/** FilesReader: the lines of several files, without headers, in chunks.

    Skipping the header of an empty file raises. Inside a read that loses the rows the read has
    collected; the feeder reports the error and reads on. While starting it ends the feeder.
 */
module FilesReader {
  import opened Common

  type Line = string

  /** maxRows below zero means no limit. */
  datatype Options = Options(header: bool, chunkSize: int, maxRows: int, skipRows: int)

  /** The unread lines of the open source, if any, the sources still to open, and the lines counted. */
  datatype Reader = Reader(current: Option<seq<Line>>, sources: seq<seq<Line>>, numRead: nat)

  predicate Exhausted(r: Reader) {
    r.current.None?
  }

  function Body(opts: Options, source: seq<Line>): seq<Line> {
    if opts.header && source != [] then source[1..] else source
  }

  /** The next source is empty, so that its header cannot be skipped. */
  predicate NoHeader(opts: Options, r: Reader) {
    opts.header && r.sources != [] && r.sources[0] == []
  }

  /** The next source, opened; even one whose header could not be skipped stays open. */
  function NextSource(opts: Options, r: Reader): Reader {
    if r.sources == [] then r.(current := None) else Reader(Some(Body(opts, r.sources[0])), r.sources[1..], r.numRead)
  }

  function Start(opts: Options, sources: seq<seq<Line>>): Reader {
    NextSource(opts, Reader(None, sources, 0))
  }

  predicate StartRaises(opts: Options, sources: seq<seq<Line>>) {
    NoHeader(opts, Reader(None, sources, 0))
  }

  /** What one read collects; if it raised, the caller does not get the rows. */
  datatype Chunk = Chunk(rows: seq<Line>, raised: bool, reader: Reader)

  predicate Beyond(opts: Options, number: nat) {
    0 <= opts.maxRows < number
  }

  /** The reader after one more line. */
  function Advance(r: Reader): (next: Reader)
    requires r.current.Some? && r.current.value != []
    ensures next.current.Some?
  {
    r.(current := Some(r.current.value[1..]), numRead := r.numRead + 1)
  }

  /** That line, unless it is still to be skipped. */
  function Taken(opts: Options, r: Reader): seq<Line>
    requires r.current.Some? && r.current.value != []
  {
    if r.numRead + 1 > opts.skipRows then [r.current.value[0]] else []
  }

  /** The read ends where the source does. */
  function LeaveSource(opts: Options, r: Reader): Chunk {
    Chunk([], NoHeader(opts, r), NextSource(opts, r))
  }

  /** The read ends beyond maxRows; a header that cannot be skipped there only costs one more source. */
  function LeaveLimit(opts: Options, r: Reader): Chunk {
    if NoHeader(opts, r) then LeaveSource(opts, NextSource(opts, r)) else LeaveSource(opts, r)
  }

  /** At most `n` more lines of the current source. */
  function ReadUpTo(opts: Options, r: Reader, n: nat): Chunk
    requires r.current.Some?
    decreases n
  {
    if n == 0 then Chunk([], false, r)
    else if r.current.value == [] then LeaveSource(opts, r)
    else if Beyond(opts, r.numRead + 1) then LeaveLimit(opts, Advance(r))
    else
      var more := ReadUpTo(opts, Advance(r), n - 1);
      more.(rows := Taken(opts, r) + more.rows)
  }

  function Limit(opts: Options, maxRows: int): nat {
    var n := if maxRows < opts.chunkSize then maxRows else opts.chunkSize;
    if n < 0 then 0 else n
  }

  function ReadRows(opts: Options, r: Reader, maxRows: int): Chunk {
    if r.current.None? then Chunk([], false, r) else ReadUpTo(opts, r, Limit(opts, maxRows))
  }

  // ---- what should be delivered ----

  function Bodies(opts: Options, sources: seq<seq<Line>>): seq<seq<Line>> {
    seq(|sources|, i requires 0 <= i < |sources| => Body(opts, sources[i]))
  }

  /** Lines numbered `first`, `first + 1`, ... that lie after skipRows and not beyond maxRows. */
  function Selected(opts: Options, lines: seq<Line>, first: nat): seq<Line> {
    if lines == [] then []
    else
      var head := if first > opts.skipRows && !Beyond(opts, first) then [lines[0]] else [];
      head + Selected(opts, lines[1..], first + 1)
  }

  /** The unread lines. */
  function Unread(opts: Options, r: Reader): seq<Line> {
    (if r.current.Some? then r.current.value else []) + Flatten(Bodies(opts, r.sources))
  }

  /** The lines the reader has still to collect; a closed reader collects nothing. */
  function Due(opts: Options, r: Reader): seq<Line> {
    if r.current.None? then [] else Selected(opts, Unread(opts, r), r.numRead + 1)
  }

  /** Lines and files left: falls with every read. */
  function Size(r: Reader): nat {
    (if r.current.Some? then |r.current.value| + 1 else 0) + SourcesSize(r.sources)
  }

  function SourcesSize(sources: seq<seq<Line>>): nat {
    if sources == [] then 0 else |sources[0]| + 1 + SourcesSize(sources[1..])
  }

  lemma {:induction false} SelectedBeyond(opts: Options, lines: seq<Line>, first: nat)
    requires Beyond(opts, first)
    ensures Selected(opts, lines, first) == []
    decreases |lines|
  {
    if lines != [] {
      SelectedBeyond(opts, lines[1..], first + 1);
    }
  }

  lemma BodiesCons(opts: Options, sources: seq<seq<Line>>)
    requires sources != []
    ensures Flatten(Bodies(opts, sources)) == Body(opts, sources[0]) + Flatten(Bodies(opts, sources[1..]))
  {
    assert Bodies(opts, sources)[1..] == Bodies(opts, sources[1..]);
  }

  /** Moving on from a source that is read to its end changes nothing that is due. */
  lemma NextSourceDue(opts: Options, r: Reader)
    requires r.current == Some([])
    ensures Due(opts, NextSource(opts, r)) == Due(opts, r)
  {
    if r.sources == [] {
      assert Unread(opts, r) == [];
    } else {
      BodiesCons(opts, r.sources);
      assert [] + Flatten(Bodies(opts, r.sources)) == Flatten(Bodies(opts, r.sources));
    }
  }

  /** Once the limit is passed nothing is due, whatever is skipped. */
  lemma NothingDue(opts: Options, r: Reader)
    requires Beyond(opts, r.numRead)
    ensures Due(opts, r) == []
  {
    SelectedBeyond(opts, Unread(opts, r), r.numRead + 1);
  }

  lemma LeaveLimitDue(opts: Options, r: Reader)
    requires Beyond(opts, r.numRead)
    ensures LeaveLimit(opts, r).rows == [] && Due(opts, LeaveLimit(opts, r).reader) == []
  {
    NothingDue(opts, LeaveLimit(opts, r).reader);
  }

  lemma DueHead(opts: Options, r: Reader)
    requires r.current.Some? && r.current.value != [] && !Beyond(opts, r.numRead + 1)
    ensures Due(opts, r) == Taken(opts, r) + Due(opts, Advance(r))
  {
    assert Unread(opts, r)[0] == r.current.value[0] && Unread(opts, r)[1..] == Unread(opts, Advance(r));
  }

  /** A read collects the first rows that are due, at most `n`, whether it raises or not. */
  lemma {:induction false} ReadUpToDelivers(opts: Options, r: Reader, n: nat)
    requires r.current.Some?
    ensures var c := ReadUpTo(opts, r, n);
      c.rows + Due(opts, c.reader) == Due(opts, r) && |c.rows| <= n
    decreases n
  {
    if n > 0 {
      if r.current.value == [] {
        NextSourceDue(opts, r);
      } else if Beyond(opts, r.numRead + 1) {
        LeaveLimitDue(opts, Advance(r));
        SelectedBeyond(opts, Unread(opts, r), r.numRead + 1);
      } else {
        ReadUpToDelivers(opts, Advance(r), n - 1);
        OneMore(opts, r, ReadUpTo(opts, Advance(r), n - 1));
      }
    }
  }

  lemma OneMore(opts: Options, r: Reader, more: Chunk)
    requires r.current.Some? && r.current.value != [] && !Beyond(opts, r.numRead + 1)
    requires more.rows + Due(opts, more.reader) == Due(opts, Advance(r))
    ensures Taken(opts, r) + more.rows + Due(opts, more.reader) == Due(opts, r)
  {
    DueHead(opts, r);
    Regroup(Taken(opts, r), more.rows, Due(opts, more.reader));
  }

  /** As long as the source has them and maxrows allows them, a read takes as many lines as the lesser
      of its limit and the chunk size. */
  lemma ReadsFull(opts: Options, r: Reader, maxRows: nat)
    requires
      && r.current.Some? && 0 <= opts.chunkSize
      && var n := if opts.chunkSize < maxRows then opts.chunkSize else maxRows;
      n <= |r.current.value| && !Beyond(opts, r.numRead + n)
    ensures
      var n := if opts.chunkSize < maxRows then opts.chunkSize else maxRows;
      var c := ReadRows(opts, r, maxRows);
      !c.raised && c.reader == Reader(Some(r.current.value[n..]), r.sources, r.numRead + n)
  {
    var n := if opts.chunkSize < maxRows then opts.chunkSize else maxRows;
    ReadsLines(opts, r, n);
  }

  lemma {:induction false} ReadsLines(opts: Options, r: Reader, n: nat)
    requires r.current.Some? && n <= |r.current.value| && !Beyond(opts, r.numRead + n)
    ensures
      var c := ReadUpTo(opts, r, n);
      !c.raised && c.reader == Reader(Some(r.current.value[n..]), r.sources, r.numRead + n)
    decreases n
  {
    if n > 0 {
      ReadsLines(opts, Advance(r), n - 1);
      assert r.current.value[1..][n - 1..] == r.current.value[n..];
    }
  }

  lemma LeaveFalls(opts: Options, r: Reader)
    requires r.current.Some?
    ensures Size(LeaveSource(opts, r).reader) < Size(r) && Size(LeaveLimit(opts, r).reader) < Size(r)
  {
    var next := NextSource(opts, r);
    assert Size(next) < Size(r);
    if next.current.Some? {
      assert Size(NextSource(opts, next)) < Size(next);
    }
  }

  lemma {:induction false} ReadUpToProgress(opts: Options, r: Reader, n: nat)
    requires r.current.Some?
    ensures var c := ReadUpTo(opts, r, n);
      Size(c.reader) <= Size(r) && (n > 0 ==> Size(c.reader) < Size(r))
    decreases n
  {
    if n > 0 {
      LeaveFalls(opts, r);
      if r.current.value != [] {
        LeaveFalls(opts, Advance(r));
        ReadUpToProgress(opts, Advance(r), n - 1);
      }
    }
  }

  // ---- whole imports ----

  datatype Run = Run(got: seq<Chunk>, reader: Reader)

  function ReadAll(opts: Options, r: Reader, limits: seq<int>): (run: Run)
    ensures |run.got| == |limits|
    decreases |limits|
  {
    if limits == [] then Run([], r)
    else
      var c := ReadRows(opts, r, limits[0]);
      var more := ReadAll(opts, c.reader, limits[1..]);
      Run([c] + more.got, more.reader)
  }

  /** All rows collected, and those that were handed on. */
  function Collected(got: seq<Chunk>): seq<Line> {
    if got == [] then [] else got[0].rows + Collected(got[1..])
  }

  function Delivered(got: seq<Chunk>): seq<Line> {
    if got == [] then [] else (if got[0].raised then [] else got[0].rows) + Delivered(got[1..])
  }

  /** No more rows than the limit of the read and the chunk size allow. */
  predicate WithinLimits(opts: Options, c: Chunk, limit: int) {
    c.rows == [] || (|c.rows| <= limit && |c.rows| <= opts.chunkSize)
  }

  lemma {:induction false} RunDelivers(opts: Options, r: Reader, limits: seq<int>)
    ensures var run := ReadAll(opts, r, limits);
      && Collected(run.got) + Due(opts, run.reader) == Due(opts, r)
      && forall i :: 0 <= i < |limits| ==> WithinLimits(opts, run.got[i], limits[i])
    decreases |limits|
  {
    if limits != [] {
      var c := ReadRows(opts, r, limits[0]);
      if r.current.Some? {
        ReadUpToDelivers(opts, r, Limit(opts, limits[0]));
      }
      RunDelivers(opts, c.reader, limits[1..]);
      var more, run := ReadAll(opts, c.reader, limits[1..]), ReadAll(opts, r, limits);
      assert run.got[0] == c && run.got[1..] == more.got;
      Regroup(c.rows, Collected(more.got), Due(opts, more.reader));
      assert forall i :: 1 <= i < |limits| ==> run.got[i] == more.got[i - 1];
    }
  }

  lemma {:induction false} RunExhausts(opts: Options, r: Reader, limits: seq<int>)
    requires opts.chunkSize > 0 && forall i :: 0 <= i < |limits| ==> limits[i] > 0
    requires |limits| >= Size(r)
    ensures Exhausted(ReadAll(opts, r, limits).reader)
    decreases |limits|
  {
    if limits != [] {
      var c := ReadRows(opts, r, limits[0]);
      if r.current.Some? {
        ReadUpToProgress(opts, r, Limit(opts, limits[0]));
        RunExhausts(opts, c.reader, limits[1..]);
      } else {
        StaysExhausted(opts, r, limits);
      }
    }
  }

  lemma {:induction false} StaysExhausted(opts: Options, r: Reader, limits: seq<int>)
    requires Exhausted(r)
    ensures ReadAll(opts, r, limits).reader == r
    decreases |limits|
  {
    if limits != [] {
      StaysExhausted(opts, r, limits[1..]);
    }
  }

  function Clamp(n: int, hi: nat): nat {
    if n < 0 then 0 else if n > hi then hi else n
  }

  /** Lines skiprows + 1 to maxrows of `lines`. */
  function Window(opts: Options, lines: seq<Line>): seq<Line> {
    var hi := if opts.maxRows < 0 then |lines| else Clamp(opts.maxRows, |lines|);
    lines[Clamp(opts.skipRows, hi)..hi]
  }

  lemma {:induction false} SelectedIs(opts: Options, lines: seq<Line>, k: nat)
    requires k <= |lines|
    ensures var hi := if opts.maxRows < 0 then |lines| else Clamp(opts.maxRows, |lines|);
      var lo := Clamp(opts.skipRows, hi);
      Selected(opts, lines[k..], k + 1) == if k >= hi then [] else lines[if k < lo then lo else k..hi]
    decreases |lines| - k
  {
    if k < |lines| {
      SelectedIs(opts, lines, k + 1);
      assert lines[k..][0] == lines[k] && lines[k..][1..] == lines[k + 1..];
    }
  }

  lemma StartDue(opts: Options, sources: seq<seq<Line>>)
    ensures Due(opts, Start(opts, sources)) == Window(opts, Flatten(Bodies(opts, sources)))
  {
    var lines := Flatten(Bodies(opts, sources));
    SelectedIs(opts, lines, 0);
    assert lines[0..] == lines;
    if sources != [] {
      BodiesCons(opts, sources);
    }
  }

  /** The reads of a feeder with these limits; it makes none if starting raises. */
  function Import(opts: Options, sources: seq<seq<Line>>, limits: seq<int>): Run {
    if StartRaises(opts, sources) then Run([], Start(opts, sources)) else ReadAll(opts, Start(opts, sources), limits)
  }

  /** A file without its header line, if it has one to skip. */
  lemma BodyIs(opts: Options, source: seq<Line>)
    ensures if opts.header && source != [] then [source[0]] + Body(opts, source) == source
            else Body(opts, source) == source
  {
  }

  /** For all files and all read limits: the rows collected are, in order, lines skiprows + 1 to maxrows
      of the files without their headers, as far as reading has got; no read exceeds its limit; and
      after enough reads everything has been collected. What is delivered is what was collected in
      reads that did not raise. */
  lemma ReadsDeliverWindow(opts: Options, sources: seq<seq<Line>>, limits: seq<int>)
    ensures StartRaises(opts, sources) ==> Import(opts, sources, limits).got == []
    ensures !StartRaises(opts, sources) ==>
      var run := Import(opts, sources, limits);
      var wanted := Window(opts, Flatten(Bodies(opts, sources)));
      && |run.got| == |limits| && Collected(run.got) <= wanted
      && (Exhausted(run.reader) ==> Collected(run.got) == wanted)
      && (forall i :: 0 <= i < |limits| ==> WithinLimits(opts, run.got[i], limits[i]))
      && (Enough(opts, sources, limits) ==> Exhausted(run.reader))
  {
    var r := Start(opts, sources);
    RunDelivers(opts, r, limits);
    if Enough(opts, sources, limits) {
      RunExhausts(opts, r, limits);
    }
    StartDue(opts, sources);
  }

  /** As many positive limits as there are lines and files. */
  ghost predicate Enough(opts: Options, sources: seq<seq<Line>>, limits: seq<int>) {
    opts.chunkSize > 0 && |limits| >= Size(Start(opts, sources)) && forall i :: 0 <= i < |limits| ==> limits[i] > 0
  }

  // ---- when rows are lost ----

  /** Every source has a header line to skip. */
  ghost predicate Openable(opts: Options, sources: seq<seq<Line>>) {
    opts.header ==> forall i :: 0 <= i < |sources| ==> sources[i] != []
  }

  lemma {:induction false} OpenableReads(opts: Options, r: Reader, n: nat)
    requires r.current.Some? && Openable(opts, r.sources)
    ensures !ReadUpTo(opts, r, n).raised && Openable(opts, ReadUpTo(opts, r, n).reader.sources)
    decreases n
  {
    if n > 0 && r.current.value != [] && !Beyond(opts, r.numRead + 1) {
      OpenableReads(opts, Advance(r), n - 1);
    }
  }

  /** With a header line in every file no read raises, so everything collected is delivered. */
  lemma {:induction false} NothingLost(opts: Options, r: Reader, limits: seq<int>)
    requires Openable(opts, r.sources)
    ensures Delivered(ReadAll(opts, r, limits).got) == Collected(ReadAll(opts, r, limits).got)
    decreases |limits|
  {
    if limits != [] {
      var c := ReadRows(opts, r, limits[0]);
      if r.current.Some? {
        OpenableReads(opts, r, Limit(opts, limits[0]));
      }
      NothingLost(opts, c.reader, limits[1..]);
      assert ReadAll(opts, r, limits).got[1..] == ReadAll(opts, c.reader, limits[1..]).got;
    }
  }

  ghost predicate NoneLost(got: seq<Chunk>) {
    forall i :: 0 <= i < |got| && got[i].raised ==> got[i].rows == []
  }

  lemma {:induction false} DeliveredShort(got: seq<Chunk>)
    ensures |Delivered(got)| <= |Collected(got)|
    ensures NoneLost(got) ==> Delivered(got) == Collected(got)
    ensures !NoneLost(got) ==> |Delivered(got)| < |Collected(got)|
  {
    if got != [] {
      DeliveredShort(got[1..]);
      assert forall i :: 1 <= i < |got| ==> got[i] == got[1..][i - 1];
      assert NoneLost(got) <==> NoneLost(got[1..]) && (got[0].raised ==> got[0].rows == []);
    }
  }

  /** When reading is over, all wanted lines have been delivered exactly if every read that raised had
      collected nothing yet. */
  lemma DeliveredExactly(opts: Options, sources: seq<seq<Line>>, limits: seq<int>)
    requires !StartRaises(opts, sources) && Exhausted(Import(opts, sources, limits).reader)
    ensures var got := Import(opts, sources, limits).got;
      Delivered(got) == Window(opts, Flatten(Bodies(opts, sources))) <==> NoneLost(got)
  {
    ReadsDeliverWindow(opts, sources, limits);
    DeliveredShort(Import(opts, sources, limits).got);
  }

  const HEADED := Options(true, 10, -1, 0)

  /** An empty file between two others: the row of the first file, read in the call that comes upon the
      empty one, is lost. */
  lemma EmptyFileLosesRow()
    ensures
      var c := ReadRows(HEADED, Start(HEADED, [["h", "a"], [], ["h", "b"]]), 10);
      c.rows == ["a"] && c.raised && Due(HEADED, c.reader) == ["b"]
  {
    var r := Start(HEADED, [["h", "a"], [], ["h", "b"]]);
    assert r == Reader(Some(["a"]), [[], ["h", "b"]], 0);
    var next := Advance(r);
    assert next == Reader(Some([]), [[], ["h", "b"]], 1);
    var end := NextSource(HEADED, next);
    assert end == Reader(Some([]), [["h", "b"]], 1);
    assert ReadUpTo(HEADED, next, 9) == Chunk([], true, end);
    assert ReadUpTo(HEADED, r, 10) == Chunk(["a"], true, end);
    BodiesCons(HEADED, end.sources);
    assert end.sources[1..] == [] && Bodies(HEADED, []) == [];
    assert Unread(HEADED, end) == ["b"];
    assert ["b"][1..] == [];
  }

  // ---- the reader itself ----

  class ReaderObject {
    const opts: Options
    var current: Option<seq<Line>>
    var sources: seq<seq<Line>>
    var numRead: nat

    function View(): Reader
      reads this
    {
      Reader(current, sources, numRead)
    }

    constructor (opts: Options, sources: seq<seq<Line>>)
      ensures this.opts == opts && View() == Reader(None, sources, 0)
    {
      this.opts := opts;
      this.current, this.sources, numRead := None, sources, 0;
    }

    /** Opens the next source; `raised` says that it has no header to skip. */
    method OpenNext() returns (raised: bool)
      modifies this`current, this`sources
      ensures View() == NextSource(opts, old(View())) && raised == NoHeader(opts, old(View()))
    {
      current, raised := None, false;
      if sources != [] {
        var source := sources[0];
        sources := sources[1..];
        if opts.header {
          if source == [] {
            raised := true;
          } else {
            source := source[1..];
          }
        }
        current := Some(source);
      }
    }

    method Read(maxRows: int) returns (rows: seq<Line>, raised: bool)
      modifies this
      ensures Chunk(rows, raised, View()) == ReadRows(opts, old(View()), maxRows)
    {
      rows, raised := [], false;
      if current.None? {
        return;
      }
      var n := Limit(opts, maxRows);
      for i := 0 to n
        invariant current.Some? && !raised
        invariant Prefixed(rows, ReadUpTo(opts, View(), n - i)) == ReadUpTo(opts, old(View()), n)
      {
        ghost var before := View();
        if current.value == [] {
          raised := OpenNext();
          return;
        }
        var row := current.value[0];
        current := Some(current.value[1..]);
        numRead := numRead + 1;
        assert View() == Advance(before);
        if 0 <= opts.maxRows < numRead {
          raised := OpenNext();
          if raised {
            raised := OpenNext();
          }
          return;
        }
        ghost var more := ReadUpTo(opts, View(), n - i - 1);
        Regroup(rows, Taken(opts, before), more.rows);
        if numRead > opts.skipRows {
          rows := rows + [row];
        } else {
          assert rows + [] == rows;
        }
      }
    }
  }

  /** The rest of a chunk put behind rows already read. */
  ghost function Prefixed(rows: seq<Line>, c: Chunk): Chunk {
    c.(rows := rows + c.rows)
  }
}
