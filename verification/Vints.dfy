/** Variable-length integers: the number of leading ones of the first byte is the number of further
    bytes, and the remaining bits are the value, most significant first.
 */
module Vints {
  import opened Common

  newtype Byte = x: int | 0 <= x < 256

  function Pow2(n: nat): (p: nat)
    ensures p >= 1
  {
    if n == 0 then 1 else 2 * Pow2(n - 1)
  }

  lemma {:induction false} Pow2Mono(a: nat, b: nat)
    requires a <= b
    ensures Pow2(a) <= Pow2(b)
  {
    if a < b {
      Pow2Mono(a, b - 1);
    }
  }

  function BitLength(x: nat): nat {
    if x == 0 then 0 else 1 + BitLength(x / 2)
  }

  lemma {:induction false} BitLengthBounds(x: nat)
    ensures x < Pow2(BitLength(x)) && (x > 0 ==> Pow2(BitLength(x) - 1) <= x)
  {
    if x > 0 {
      BitLengthBounds(x / 2);
    }
  }

  /** A number between two consecutive powers of two. */
  lemma BitLengthIs(x: nat, n: nat)
    requires x < Pow2(n) && (n > 0 ==> Pow2(n - 1) <= x)
    ensures BitLength(x) == n
  {
    BitLengthBounds(x);
    if BitLength(x) < n {
      Pow2Mono(BitLength(x), n - 1);
    } else if BitLength(x) > n {
      Pow2Mono(n, BitLength(x) - 1);
    }
  }

  /** The inverted byte's bit length taken from eight. */
  function ExtraBytes(b: Byte): nat {
    var inverted := 255 - b as int;
    ByteLength(inverted);
    8 - BitLength(inverted)
  }

  lemma ByteLength(x: nat)
    requires x < 256
    ensures BitLength(x) <= 8
  {
    BitLengthBounds(x);
    assert Pow2(8) == 256;
    if BitLength(x) > 8 {
      Pow2Mono(8, BitLength(x) - 1);
    }
  }

  // ---- decoding ----

  /** Bytes folded into `acc`, most significant first. */
  function Fold(acc: nat, bytes: seq<Byte>): nat
    decreases |bytes|
  {
    if bytes == [] then acc else Fold(256 * acc + bytes[0] as int, bytes[1..])
  }

  /** The value and the rest of the buffer; None if the buffer ends too early. */
  function DecodeUnsigned(buf: seq<Byte>): Option<(nat, seq<Byte>)> {
    if buf == [] then None
    else
      var size := ExtraBytes(buf[0]);
      if buf[0] < 128 then Some((buf[0] as int, buf[1..]))
      else if |buf| <= size then None
      else Some((Fold(buf[0] as int % Pow2(8 - size), buf[1..1 + size]), buf[1 + size..]))
  }

  lemma {:induction false} FoldLast(acc: nat, bytes: seq<Byte>, b: Byte)
    ensures Fold(acc, bytes + [b]) == 256 * Fold(acc, bytes) + b as int
    decreases |bytes|
  {
    if bytes == [] {
      assert [b][1..] == [];
      assert bytes + [b] == [b];
    } else {
      assert (bytes + [b])[1..] == bytes[1..] + [b];
      FoldLast(256 * acc + bytes[0] as int, bytes[1..], b);
    }
  }

  method DecodeLoop(buf: seq<Byte>) returns (r: Option<(nat, seq<Byte>)>)
    ensures r == DecodeUnsigned(buf)
  {
    if buf == [] {
      return None;
    }
    var first := buf[0];
    if first < 128 {
      return Some((first as int, buf[1..]));
    }
    var size := ExtraBytes(first);
    var retval := first as int % Pow2(8 - size);
    for i := 0 to size
      invariant i < |buf|
      invariant retval == Fold(first as int % Pow2(8 - size), buf[1..1 + i])
    {
      if i + 1 == |buf| {
        return None;
      }
      FoldLast(first as int % Pow2(8 - size), buf[1..1 + i], buf[1 + i]);
      assert buf[1..2 + i] == buf[1..1 + i] + [buf[1 + i]];
      retval := 256 * retval + buf[1 + i] as int;
    }
    return Some((retval, buf[1 + size..]));
  }

  // ---- encoding ----

  /** The `k` low bytes of `n`, most significant first. */
  function LowBytes(n: nat, k: nat): (bytes: seq<Byte>)
    ensures |bytes| == k
  {
    if k == 0 then [] else LowBytes(n / 256, k - 1) + [(n % 256) as Byte]
  }

  /** What is left of `n` above its `k` low bytes. */
  function High(n: nat, k: nat): nat {
    if k == 0 then n else High(n / 256, k - 1)
  }

  lemma {:induction false} FoldLowBytes(n: nat, k: nat)
    ensures Fold(High(n, k), LowBytes(n, k)) == n
  {
    if k > 0 {
      FoldLowBytes(n / 256, k - 1);
      FoldLast(High(n, k), LowBytes(n / 256, k - 1), (n % 256) as Byte);
    }
  }

  function Pow256(k: nat): nat {
    if k == 0 then 1 else 256 * Pow256(k - 1)
  }

  lemma {:induction false} HighBelow(n: nat, k: nat, q: nat)
    requires n < q * Pow256(k)
    ensures High(n, k) < q
    decreases k
  {
    if k > 0 {
      var m := q * Pow256(k - 1);
      assert q * (256 * Pow256(k - 1)) == 256 * m;
      HighBelow(n / 256, k - 1, q);
    }
  }

  const TWO64: nat := 0x1_0000_0000_0000_0000
  const TWO63: nat := 0x8000_0000_0000_0000

  /** How many values fit with `k` extra bytes: 7 - k bits in the first byte, none in the last case. */
  function Capacity(k: nat): nat
    requires k <= 8
  {
    (if k == 8 then 1 else Pow2(7 - k)) * Pow256(k)
  }

  lemma CapacityOfEight()
    ensures Capacity(8) == TWO64
  {
    assert Pow256(4) == 0x1_0000_0000;
    assert Pow256(8) == 256 * (256 * (256 * (256 * Pow256(4))));
  }

  /** The encoding of `n` with `k` extra bytes: `k` leading ones, then the bits of `n`. */
  function EncodeWith(n: nat, k: nat): (bytes: seq<Byte>)
    requires k <= 8 && n < Capacity(k)
    ensures |bytes| == 1 + k
  {
    HighBelow(n, k, if k == 8 then 1 else Pow2(7 - k));
    LeadingOnes(k, High(n, k));
    [FirstByte(k, High(n, k)) as Byte] + LowBytes(n, k)
  }

  function FirstByte(k: nat, high: nat): int
    requires k <= 8
  {
    256 - Pow2(8 - k) + high
  }

  lemma SmallPowers()
    ensures Pow2(0) == 1 && Pow2(1) == 2 && Pow2(2) == 4 && Pow2(3) == 8 && Pow2(4) == 16
    ensures Pow2(5) == 32 && Pow2(6) == 64 && Pow2(7) == 128 && Pow2(8) == 256
  {
    assert Pow2(3) == 8;
    assert Pow2(6) == 64;
  }

  /** The first byte tells the number of extra bytes and holds the high bits. */
  lemma LeadingOnes(k: nat, high: nat)
    requires k <= 8 && high < if k == 8 then 1 else Pow2(7 - k)
    ensures var b := FirstByte(k, high);
      0 <= b < 256 && ExtraBytes(b as Byte) == k && b % Pow2(8 - k) == high && (b < 128 <==> k == 0)
  {
    SmallPowers();
    var b := FirstByte(k, high);
    FirstByteBits(k, Pow2(8 - k), high);
    BitLengthIs(255 - b, 8 - k);
  }

  lemma FirstByteBits(k: nat, p: nat, high: nat)
    requires k <= 8 && high < (if k == 8 then 1 else p / 2)
    requires p == match k case 0 => 256 case 1 => 128 case 2 => 64 case 3 => 32 case 4 => 16 case 5 => 8 case 6 => 4
        case 7 => 2 case _ => 1
    ensures var b := 256 - p + high;
      0 <= b < 256 && b % p == high && (b < 128 <==> k == 0) && 255 - b < p && (k < 8 ==> 255 - b >= p / 2)
  {
    var m := match k case 0 => 1 case 1 => 2 case 2 => 4 case 3 => 8 case 4 => 16 case 5 => 32 case 6 => 64
        case 7 => 128 case _ => 256;
    assert 256 - p == p * (m - 1);
    RemainderIs(256 - p + high, p, m - 1, high);
  }

  lemma RemainderIs(n: nat, d: nat, q: nat, r: nat)
    requires d > 0 && n == d * q + r && r < d
    ensures n % d == r
  {
    var p := n / d;
    assert n == d * p + n % d;
    assert p > q ==> d * p >= d * q + d by { assert p > q ==> d * p >= d * (q + 1); }
    assert p < q ==> d * q >= d * p + d by { assert p < q ==> d * q >= d * (p + 1); }
  }

  /** Decoding returns the encoded value and consumes exactly 1 + k bytes, whatever follows. */
  lemma DecodeEncodeWith(n: nat, k: nat, rest: seq<Byte>)
    requires k <= 8 && n < Capacity(k)
    ensures DecodeUnsigned(EncodeWith(n, k) + rest) == Some((n, rest))
  {
    HighBelow(n, k, if k == 8 then 1 else Pow2(7 - k));
    LeadingOnes(k, High(n, k));
    FoldLowBytes(n, k);
    var buf := EncodeWith(n, k) + rest;
    assert buf[1..1 + k] == LowBytes(n, k) && buf[1 + k..] == rest;
    SmallPowers();
  }

  /** The shortest encoding. */
  function SizeFor(n: nat, k: nat): (size: nat)
    requires k <= 8 && n < TWO64
    ensures k <= size <= 8 && n < Capacity(size)
    ensures forall j :: k <= j < size ==> n >= Capacity(j)
    decreases 8 - k
  {
    CapacityOfEight();
    if n < Capacity(k) then k else SizeFor(n, k + 1)
  }

  function EncodeUnsigned(n: nat): seq<Byte>
    requires n < TWO64
  {
    EncodeWith(n, SizeFor(n, 0))
  }

  /** Every value below 2^64 survives, and no two encodings start alike. */
  lemma UnsignedRoundTrip(n: nat, rest: seq<Byte>)
    requires n < TWO64
    ensures DecodeUnsigned(EncodeUnsigned(n) + rest) == Some((n, rest))
  {
    DecodeEncodeWith(n, SizeFor(n, 0), rest);
  }

  // ---- zig-zag ----

  /** Even numbers stand for the numbers from 0 up, odd ones for those from -1 down. */
  function DecodeZigZag(n: nat): int {
    if n % 2 == 0 then n / 2 else -(n / 2) - 1
  }

  function EncodeZigZag(v: int): nat {
    if v >= 0 then 2 * v else -2 * v - 1
  }

  /** Zig-zag decoding is one-to-one from [0, 2^64) onto [-2^63, 2^63). */
  lemma ZigZagBijection(n: nat, v: int)
    ensures n < TWO64 <==> 0 - TWO63 <= DecodeZigZag(n) < TWO63
    ensures DecodeZigZag(n) == v <==> n == EncodeZigZag(v)
  {
  }

  function DecodeVint(buf: seq<Byte>): Option<(int, seq<Byte>)> {
    match DecodeUnsigned(buf)
    case None => None
    case Some((n, rest)) => Some((DecodeZigZag(n), rest))
  }

  lemma VintRoundTrip(v: int, rest: seq<Byte>)
    requires 0 - TWO63 <= v < TWO63
    ensures EncodeZigZag(v) < TWO64
    ensures DecodeVint(EncodeUnsigned(EncodeZigZag(v)) + rest) == Some((v, rest))
  {
    ZigZagBijection(EncodeZigZag(v), v);
    UnsignedRoundTrip(EncodeZigZag(v), rest);
  }
}
