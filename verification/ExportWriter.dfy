/** ExportWriter: rows go to one file, or to files of at most maxoutputsize rows each. */
module ExportWriter {
  import opened Common

  /** A csv line without its newline. */
  type Row = string

  /** A line that survives being joined to others with newlines and split again. */
  predicate IsLine(row: Row) {
    row != "" && forall i :: 0 <= i < |row| ==> row[i] != '\n'
  }

  ghost predicate AllLines(rows: seq<Row>) {
    forall i :: 0 <= i < |rows| ==> IsLine(rows[i])
  }

  function Unlines(rows: seq<Row>): string {
    if rows == [] then "" else rows[0] + "\n" + Unlines(rows[1..])
  }

  lemma {:induction false} UnlinesJoin(a: seq<Row>, b: seq<Row>)
    ensures Unlines(a + b) == Unlines(a) + Unlines(b)
  {
    if a == [] {
      assert a + b == b;
    } else {
      assert (a + b)[1..] == a[1..] + b;
      UnlinesJoin(a[1..], b);
      assert a[0] + "\n" + (Unlines(a[1..]) + Unlines(b)) == a[0] + "\n" + Unlines(a[1..]) + Unlines(b);
    }
  }

  lemma UnlinesLast(rows: seq<Row>, row: Row)
    ensures Unlines(rows + [row]) == Unlines(rows) + (row + "\n")
  {
    UnlinesJoin(rows, [row]);
    assert Unlines([row]) == row + "\n" + Unlines([]);
  }

  // ---- splitting a block into its lines ----

  /** The pieces between newlines; `cur` is the start of the first piece. */
  function SplitLines(data: string, cur: string): seq<string>
    decreases |data|
  {
    if data == "" then [cur]
    else if data[0] == '\n' then [cur] + SplitLines(data[1..], "")
    else SplitLines(data[1..], cur + [data[0]])
  }

  function NonEmpty(pieces: seq<string>): seq<string> {
    if pieces == [] then [] else (if pieces[0] == "" then [] else [pieces[0]]) + NonEmpty(pieces[1..])
  }

  lemma {:induction false} SplitPast(line: string, rest: string, cur: string)
    requires forall i :: 0 <= i < |line| ==> line[i] != '\n'
    ensures SplitLines(line + "\n" + rest, cur) == [cur + line] + SplitLines(rest, "")
    decreases |line|
  {
    var data := line + "\n" + rest;
    if line == "" {
      assert data[1..] == rest && cur + line == cur;
    } else {
      assert data[1..] == line[1..] + "\n" + rest;
      SplitPast(line[1..], rest, cur + [line[0]]);
      assert cur + [line[0]] + line[1..] == cur + line;
    }
  }

  /** Splitting a block gives its lines back. */
  lemma {:induction false} LinesRoundTrip(rows: seq<Row>)
    requires AllLines(rows)
    ensures NonEmpty(SplitLines(Unlines(rows), "")) == rows
  {
    if rows == [] {
      assert NonEmpty([""]) == NonEmpty([""][1..]);
    } else {
      LinesRoundTrip(rows[1..]);
      SplitPast(rows[0], Unlines(rows[1..]), "");
      assert "" + rows[0] == rows[0];
      var pieces := SplitLines(Unlines(rows), "");
      assert pieces[0] == rows[0] && pieces[1..] == SplitLines(Unlines(rows[1..]), "");
      assert rows == [rows[0]] + rows[1..];
    }
  }

  // ---- how rows should be spread over files ----

  /** Full files of `size` rows and a last one with the rest. */
  function Pack(rows: seq<Row>, size: nat): (files: seq<seq<Row>>)
    requires size > 0
    ensures files != []
    decreases |rows|
  {
    if |rows| <= size then [rows] else [rows[..size]] + Pack(rows[size..], size)
  }

  /** Every file but the last is full, the last has between one and `size` rows (none only if there
      are no rows), and the files in order are the rows in order. */
  ghost predicate IsPacking(files: seq<seq<Row>>, rows: seq<Row>, size: nat) {
    && files != [] && Flatten(files) == rows
    && (forall k :: 0 <= k < |files| - 1 ==> |files[k]| == size)
    && |files[|files| - 1]| <= size
    && (files[|files| - 1] == [] ==> |files| == 1)
  }

  lemma {:induction false} PackShape(rows: seq<Row>, size: nat)
    requires size > 0
    ensures IsPacking(Pack(rows, size), rows, size)
    decreases |rows|
  {
    if |rows| <= size {
      assert Flatten([rows]) == rows + Flatten([]);
    } else {
      PackShape(rows[size..], size);
      var files := Pack(rows, size);
      assert files[1..] == Pack(rows[size..], size);
      assert forall k :: 1 <= k < |files| ==> files[k] == files[1..][k - 1];
      assert rows == rows[..size] + rows[size..];
      if |files| == 2 {
        assert Flatten(files[1..]) == files[1] + Flatten([]);
      }
    }
  }

  /** There is only one such division, so the files do not depend on how rows came in blocks. */
  lemma {:induction false} PackUnique(files: seq<seq<Row>>, rows: seq<Row>, size: nat)
    requires size > 0
    ensures IsPacking(files, rows, size) <==> files == Pack(rows, size)
    decreases |files|
  {
    PackShape(rows, size);
    if IsPacking(files, rows, size) {
      if |files| == 1 {
        assert Flatten(files) == files[0] + Flatten(files[1..]) == files[0];
      } else {
        var rest := Flatten(files[1..]);
        assert rows == files[0] + rest;
        assert rows[..size] == files[0] && rows[size..] == rest;
        assert forall k :: 1 <= k < |files| ==> files[k] == files[1..][k - 1];
        PackUnique(files[1..], rest, size);
        PackShape(rest, size);
        assert files == [files[0]] + files[1..];
      }
    }
  }

  function Last(files: seq<seq<Row>>): seq<Row>
    requires files != []
  {
    files[|files| - 1]
  }

  /** One more row: in the last file, or in a new one if that is full. */
  function AddRow(files: seq<seq<Row>>, row: Row, size: nat): seq<seq<Row>>
    requires files != []
  {
    if |Last(files)| == size then files + [[row]] else files[..|files| - 1] + [Last(files) + [row]]
  }

  lemma {:induction false} PackAdd(rows: seq<Row>, row: Row, size: nat)
    requires size > 0
    ensures Pack(rows + [row], size) == AddRow(Pack(rows, size), row, size)
    decreases |rows|
  {
    if |rows| < size {
      assert [rows][..0] == [];
    } else if |rows| == size {
      var all := rows + [row];
      assert all[..size] == rows && all[size..] == [row];
      assert Pack(all, size) == [rows] + Pack([row], size);
    } else {
      var all := rows + [row];
      assert all[..size] == rows[..size] && all[size..] == rows[size..] + [row];
      PackAdd(rows[size..], row, size);
      var rest := Pack(rows[size..], size);
      assert Pack(rows, size)[..|rest|] == [rows[..size]] + rest[..|rest| - 1];
    }
  }

  /** A block that fits changes only the last file. */
  lemma {:induction false} PackFits(rows: seq<Row>, block: seq<Row>, size: nat)
    requires size > 0 && |Last(Pack(rows, size))| + |block| <= size
    ensures var files := Pack(rows, size);
      Pack(rows + block, size) == files[..|files| - 1] + [Last(files) + block]
    decreases |rows|
  {
    if |rows| > size {
      var all := rows + block;
      assert all[..size] == rows[..size] && all[size..] == rows[size..] + block;
      PackFits(rows[size..], block, size);
      var rest := Pack(rows[size..], size);
      assert Pack(rows, size)[..|rest|] == [rows[..size]] + rest[..|rest| - 1];
    }
  }

  /** Rows behind a full last file, or behind one filled up first. */
  lemma {:induction false} PackSplit(rows: seq<Row>, block: seq<Row>, size: nat)
    requires size > 0 && |Last(Pack(rows, size))| + |block| > size
    ensures var files := Pack(rows, size); var room := size - |Last(files)|;
      && 0 <= room < |block|
      && Pack(rows + block, size) == files[..|files| - 1] + [Last(files) + block[..room]] + Pack(block[room..], size)
    decreases |rows|
  {
    var files := Pack(rows, size);
    PackShape(rows, size);
    var room := size - |Last(files)|;
    var all := rows + block;
    if |rows| <= size {
      assert all[..size] == rows + block[..room] && all[size..] == block[room..];
    } else {
      assert all[..size] == rows[..size] && all[size..] == rows[size..] + block;
      PackSplit(rows[size..], block, size);
      var rest := Pack(rows[size..], size);
      assert files[..|files| - 1] == [rows[..size]] + rest[..|rest| - 1] && Last(files) == Last(rest);
    }
  }

  // ---- the files as text ----

  function Texts(files: seq<seq<Row>>): (out: seq<string>)
    ensures |out| == |files|
  {
    seq(|files|, k requires 0 <= k < |files| => Unlines(files[k]))
  }

  function Rendered(header: string, files: seq<seq<Row>>): (out: seq<string>)
    ensures |out| == |files|
  {
    seq(|files|, k requires 0 <= k < |files| => (if k == 0 then header else "") + Unlines(files[k]))
  }

  lemma RenderedLine(prefix: string, a: seq<Row>, b: seq<Row>)
    ensures prefix + Unlines(a + b) == prefix + Unlines(a) + Unlines(b)
  {
    UnlinesJoin(a, b);
  }

  lemma RenderedGrow(header: string, files: seq<seq<Row>>, block: seq<Row>)
    requires files != []
    ensures Rendered(header, files[..|files| - 1] + [Last(files) + block]) ==
            Append(Rendered(header, files), Unlines(block))
  {
    var k := |files| - 1;
    var out, grown := Rendered(header, files), files[..k] + [Last(files) + block];
    assert forall j :: 0 <= j < k ==> grown[j] == files[j] && Rendered(header, grown)[j] == out[j];
    RenderedLine(if k == 0 then header else "", Last(files), block);
  }

  lemma RenderedMore(header: string, files: seq<seq<Row>>, more: seq<seq<Row>>)
    requires files != []
    ensures Rendered(header, files + more) == Rendered(header, files) + Texts(more)
  {
    var all, out := files + more, Rendered(header, files + more);
    forall k | 0 <= k < |all|
      ensures out[k] == (Rendered(header, files) + Texts(more))[k]
    {
      if k >= |files| {
        assert all[k] == more[k - |files|] && "" + Unlines(all[k]) == Unlines(all[k]);
      }
    }
  }

  // ---- one write ----

  datatype Config = Config(header: string, maxOutputSize: int, toStdout: bool)

  predicate Splits(cfg: Config) {
    cfg.maxOutputSize > 0 && !cfg.toStdout
  }

  /** The text of every file opened so far, the current one last, and the count kept for it. */
  datatype Out = Out(outputs: seq<string>, numWritten: int)

  function Append(outputs: seq<string>, text: string): (after: seq<string>)
    requires outputs != []
    ensures after != []
  {
    outputs[..|outputs| - 1] + [outputs[|outputs| - 1] + text]
  }

  /** There is room for `room` lines in the current file and for `size` in every further one; the room
      is negative if the count has gone beyond the limit, and then no further file is opened. */
  predicate Overflows(n: nat, room: int) {
    0 <= room < n
  }

  function Spread(outputs: seq<string>, lines: seq<Row>, room: int, size: nat): (after: seq<string>)
    requires outputs != [] && size > 0
    ensures after != []
  {
    if Overflows(|lines|, room) then Append(outputs, Unlines(lines[..room])) + Texts(Pack(lines[room..], size))
    else Append(outputs, Unlines(lines))
  }

  /** How many lines were written before the last file was opened; 0 if none was. */
  function LastSwitch(lines: seq<Row>, room: int, size: nat): nat
    requires size > 0
  {
    if Overflows(|lines|, room) then
      PackShape(lines[room..], size);
      LastLength(lines[room..], size);
      |lines| - |Last(Pack(lines[room..], size))|
    else 0
  }

  lemma {:induction false} LastLength(rows: seq<Row>, size: nat)
    requires size > 0
    ensures |Last(Pack(rows, size))| <= |rows|
    decreases |rows|
  {
    if |rows| > size {
      LastLength(rows[size..], size);
    }
  }

  /** One write of `data`, said to be `num` rows. */
  function WriteBlock(cfg: Config, o: Out, data: string, num: nat): (after: Out)
    requires o.outputs != []
    ensures after.outputs != []
  {
    if !Splits(cfg) then o.(outputs := Append(o.outputs, data))
    else if o.numWritten + num <= cfg.maxOutputSize then Out(Append(o.outputs, data), o.numWritten + num)
    else WriteSpread(cfg, o, NonEmpty(SplitLines(data, "")), num)
  }

  /** Lines that do not all fit, said to be `num` rows. */
  function WriteSpread(cfg: Config, o: Out, lines: seq<Row>, num: nat): (after: Out)
    requires o.outputs != [] && Splits(cfg)
    ensures after.outputs != []
  {
    var room, size := cfg.maxOutputSize - o.numWritten, cfg.maxOutputSize;
    Out(Spread(o.outputs, lines, room, size), num - LastSwitch(lines, room, size))
  }

  lemma WriteOverflow(cfg: Config, o: Out, block: seq<Row>, num: nat)
    requires o.outputs != [] && Splits(cfg) && AllLines(block) && o.numWritten + num > cfg.maxOutputSize
    ensures WriteBlock(cfg, o, Unlines(block), num) == WriteSpread(cfg, o, block, num)
  {
    LinesRoundTrip(block);
  }

  // ---- no text is lost ----

  lemma FlattenAppend(outputs: seq<string>, text: string)
    requires outputs != []
    ensures Flatten(Append(outputs, text)) == Flatten(outputs) + text
  {
    FlattenGrow(outputs, text);
  }

  lemma {:induction false} FlattenTexts(files: seq<seq<Row>>)
    ensures Flatten(Texts(files)) == Unlines(Flatten(files))
  {
    if files != [] {
      FlattenTexts(files[1..]);
      assert Texts(files)[1..] == Texts(files[1..]);
      UnlinesJoin(files[0], Flatten(files[1..]));
    }
  }

  lemma SpreadText(outputs: seq<string>, lines: seq<Row>, room: int, size: nat)
    requires outputs != [] && size > 0
    ensures Flatten(Spread(outputs, lines, room, size)) == Flatten(outputs) + Unlines(lines)
  {
    if Overflows(|lines|, room) {
      var first, rest := lines[..room], lines[room..];
      FlattenAppend(outputs, Unlines(first));
      FlattenJoin(Append(outputs, Unlines(first)), Texts(Pack(rest, size)));
      FlattenTexts(Pack(rest, size));
      PackShape(rest, size);
      assert lines == first + rest;
      UnlinesJoin(first, rest);
      Regroup(Flatten(outputs), Unlines(first), Unlines(rest));
    } else {
      FlattenAppend(outputs, Unlines(lines));
    }
  }

  /** The data itself, or, when files are changed within the block, its lines that are not empty. */
  function Written(cfg: Config, o: Out, data: string, num: nat): string {
    if Splits(cfg) && o.numWritten + num > cfg.maxOutputSize then Unlines(NonEmpty(SplitLines(data, ""))) else data
  }

  /** Whatever the data and the count are, the files one after the other hold all text in order. */
  lemma WriteText(cfg: Config, o: Out, data: string, num: nat)
    requires o.outputs != []
    ensures Flatten(WriteBlock(cfg, o, data, num).outputs) == Flatten(o.outputs) + Written(cfg, o, data, num)
  {
    if Splits(cfg) && o.numWritten + num > cfg.maxOutputSize {
      var lines, room := NonEmpty(SplitLines(data, "")), cfg.maxOutputSize - o.numWritten;
      SpreadText(o.outputs, lines, room, cfg.maxOutputSize);
    } else {
      FlattenAppend(o.outputs, data);
    }
  }

  // ---- blocks whose count is right ----

  ghost function Files(cfg: Config, rows: seq<Row>): (files: seq<seq<Row>>)
    ensures files != []
  {
    if cfg.maxOutputSize <= 0 || cfg.toStdout then [rows] else Pack(rows, cfg.maxOutputSize)
  }

  /** The files hold exactly these rows, packed, and the count is right. */
  ghost predicate Packed(cfg: Config, o: Out, rows: seq<Row>) {
    && o.outputs == Rendered(cfg.header, Files(cfg, rows))
    && (Splits(cfg) ==> o.numWritten == |Last(Files(cfg, rows))|)
  }

  lemma OpenPacked(cfg: Config)
    ensures Packed(cfg, Out([cfg.header], 0), [])
  {
    assert cfg.header + "" == cfg.header;
  }

  /** The texts of files that were filled up and of those behind them. */
  lemma RenderedSpread(header: string, rows: seq<Row>, block: seq<Row>, size: nat)
    requires size > 0 && |Last(Pack(rows, size))| + |block| > size
    ensures
      var files := Pack(rows, size);
      Rendered(header, Pack(rows + block, size)) ==
      Spread(Rendered(header, files), block, size - |Last(files)|, size)
  {
    var files := Pack(rows, size);
    var room := size - |Last(files)|;
    PackSplit(rows, block, size);
    RenderedGrow(header, files, block[..room]);
    RenderedMore(header, files[..|files| - 1] + [Last(files) + block[..room]], Pack(block[room..], size));
  }

  lemma LastBehind(rows: seq<Row>, block: seq<Row>, size: nat)
    requires size > 0 && |Last(Pack(rows, size))| + |block| > size
    ensures |block| - LastSwitch(block, size - |Last(Pack(rows, size))|, size) == |Last(Pack(rows + block, size))|
  {
    PackSplit(rows, block, size);
  }

  lemma OverflowPacked(cfg: Config, o: Out, rows: seq<Row>, block: seq<Row>)
    requires Packed(cfg, o, rows) && Splits(cfg) && o.numWritten + |block| > cfg.maxOutputSize
    ensures Packed(cfg, WriteSpread(cfg, o, block, |block|), rows + block)
  {
    RenderedSpread(cfg.header, rows, block, cfg.maxOutputSize);
    LastBehind(rows, block, cfg.maxOutputSize);
  }

  /** A block of as many lines as it says keeps the files packed. */
  lemma WritePacked(cfg: Config, o: Out, rows: seq<Row>, block: seq<Row>)
    requires Packed(cfg, o, rows) && AllLines(block)
    ensures Packed(cfg, WriteBlock(cfg, o, Unlines(block), |block|), rows + block)
  {
    if !Splits(cfg) {
      RenderedGrow(cfg.header, [rows], block);
      assert [rows][..0] + [rows + block] == [rows + block];
    } else if o.numWritten + |block| <= cfg.maxOutputSize {
      PackFits(rows, block, cfg.maxOutputSize);
      RenderedGrow(cfg.header, Pack(rows, cfg.maxOutputSize), block);
    } else {
      WriteOverflow(cfg, o, block, |block|);
      OverflowPacked(cfg, o, rows, block);
    }
  }

  function WriteAll(cfg: Config, o: Out, blocks: seq<seq<Row>>): Out
    requires o.outputs != []
    decreases |blocks|
  {
    if blocks == [] then o else WriteAll(cfg, WriteBlock(cfg, o, Unlines(blocks[0]), |blocks[0]|), blocks[1..])
  }

  /** After any such blocks the files are the header and all rows, packed; how the rows came in blocks
      leaves no trace. */
  lemma {:induction false} WritesPacked(cfg: Config, o: Out, rows: seq<Row>, blocks: seq<seq<Row>>)
    requires Packed(cfg, o, rows) && forall i :: 0 <= i < |blocks| ==> AllLines(blocks[i])
    ensures Packed(cfg, WriteAll(cfg, o, blocks), rows + Flatten(blocks))
    decreases |blocks|
  {
    if blocks == [] {
      assert rows + [] == rows;
    } else {
      WritePacked(cfg, o, rows, blocks[0]);
      WritesPacked(cfg, WriteBlock(cfg, o, Unlines(blocks[0]), |blocks[0]|), rows + blocks[0], blocks[1..]);
      Regroup(rows, blocks[0], Flatten(blocks[1..]));
    }
  }

  // ---- blocks with more lines than rows ----

  /** A row with a newline inside counts once but is written as several lines. When files are changed
      within such a block, this is done by lines, and the count falls short of the lines in the last
      file by the number of extra lines. */
  lemma ExtraLines(cfg: Config, o: Out, block: seq<Row>, num: nat)
    requires o.outputs != [] && Splits(cfg) && AllLines(block)
    requires o.numWritten + num > cfg.maxOutputSize >= o.numWritten && num <= |block|
    ensures
      var after, room := WriteBlock(cfg, o, Unlines(block), num), cfg.maxOutputSize - o.numWritten;
      var rest := Pack(block[room..], cfg.maxOutputSize);
      && after.outputs == Append(o.outputs, Unlines(block[..room])) + Texts(rest)
      && after.numWritten == |Last(rest)| - (|block| - num)
  {
    WriteOverflow(cfg, o, block, num);
  }

  const TWO_ROWS := Config("", 2, false)

  /** A row `x`, then two rows `"a` newline `b"` and `c` with a limit of two: the first of them is cut
      in two, and the second file is taken to hold one row. */
  lemma RowCutInTwo()
    ensures
      var o := WriteBlock(TWO_ROWS, Out(["x\n"], 1), Unlines(["\"a", "b\"", "c"]), 2);
      o == Out(["x\n\"a\n", "b\"\nc\n"], 1)
  {
    var block := ["\"a", "b\"", "c"];
    ExtraLines(TWO_ROWS, Out(["x\n"], 1), block, 2);
    assert block[..1] == ["\"a"] && block[1..] == ["b\"", "c"];
    LinesOfRow();
  }

  lemma LinesOfRow()
    ensures Append(["x\n"], Unlines(["\"a"])) == ["x\n\"a\n"]
    ensures Texts(Pack(["b\"", "c"], 2)) == ["b\"\nc\n"] && Last(Pack(["b\"", "c"], 2)) == ["b\"", "c"]
  {
    UnlinesLast([], "\"a");
    assert [] + ["\"a"] == ["\"a"];
    assert Unlines(["\"a"]) == "\"a\n" && "x\n" + "\"a\n" == "x\n\"a\n";
    UnlinesTwo("b\"", "c");
    assert Unlines(["b\"", "c"]) == "b\"\nc\n";
    assert Texts([["b\"", "c"]]) == [Unlines(["b\"", "c"])];
  }

  lemma UnlinesTwo(a: Row, b: Row)
    ensures Unlines([a, b]) == a + "\n" + (b + "\n")
  {
    UnlinesLast([a], b);
    UnlinesLast([], a);
    assert [] + [a] == [a] && [a] + [b] == [a, b];
  }

  // ---- the writer itself ----

  class Writer {
    const cfg: Config
    var outputs: seq<string>
    var numWritten: int

    function View(): Out
      reads this
    {
      Out(outputs, numWritten)
    }

    /** Opening: the first file holds the header line, if any. */
    constructor (cfg: Config)
      ensures this.cfg == cfg && View() == Out([cfg.header], 0)
    {
      this.cfg, outputs, numWritten := cfg, [cfg.header], 0;
    }

    method WriteCurrent(text: string)
      requires outputs != []
      modifies this`outputs
      ensures outputs == Append(old(outputs), text)
    {
      var k := |outputs| - 1;
      outputs := outputs[..k] + [outputs[k] + text];
    }

    method NextDest()
      modifies this`outputs
      ensures outputs == old(outputs) + [""]
    {
      outputs := outputs + [""];
    }

    method Write(data: string, num: nat)
      requires outputs != []
      modifies this
      ensures View() == WriteBlock(cfg, old(View()), data, num)
    {
      if !Splits(cfg) {
        WriteCurrent(data);
      } else if numWritten + num > cfg.maxOutputSize {
        var lastSwitch := WriteLines(NonEmpty(SplitLines(data, "")));
        numWritten := num - lastSwitch;
      } else {
        numWritten := numWritten + num;
        WriteCurrent(data);
      }
    }

    /** The lines one by one, changing file whenever the room is used up. */
    method WriteLines(lines: seq<Row>) returns (lastSwitch: nat)
      requires outputs != [] && Splits(cfg)
      modifies this`outputs
      ensures outputs == Spread(old(outputs), lines, cfg.maxOutputSize - numWritten, cfg.maxOutputSize)
      ensures lastSwitch == LastSwitch(lines, cfg.maxOutputSize - numWritten, cfg.maxOutputSize)
    {
      var numRemaining := cfg.maxOutputSize - numWritten;
      ghost var room, size := numRemaining, cfg.maxOutputSize;
      lastSwitch := 0;
      SpreadNone(outputs, room, size);
      for i := 0 to |lines|
        invariant outputs == Spread(old(outputs), lines[..i], room, size)
        invariant lastSwitch == LastSwitch(lines[..i], room, size)
        invariant numRemaining == if Overflows(i, room) then lastSwitch + size else room
      {
        SpreadNext(old(outputs), lines, i, room, size);
        if i == numRemaining {
          NextDest();
          lastSwitch := i;
          numRemaining := numRemaining + cfg.maxOutputSize;
        }
        WriteCurrent(lines[i] + "\n");
      }
      assert lines[..|lines|] == lines;
    }
  }

  lemma SpreadNone(outputs: seq<string>, room: int, size: nat)
    requires outputs != [] && size > 0
    ensures Spread(outputs, [], room, size) == outputs
  {
    assert outputs[|outputs| - 1] + "" == outputs[|outputs| - 1];
  }

  /** The room is used up before line `i`. */
  ghost predicate Full(lines: seq<Row>, i: nat, room: int, size: nat)
    requires i < |lines| && size > 0
  {
    i == if Overflows(i, room) then LastSwitch(lines[..i], room, size) + size else room
  }

  /** One more line, in a new file if the room is used up. */
  lemma SpreadNext(outputs: seq<string>, lines: seq<Row>, i: nat, room: int, size: nat)
    requires outputs != [] && size > 0 && i < |lines|
    ensures
      var before, after := Spread(outputs, lines[..i], room, size), Spread(outputs, lines[..i + 1], room, size);
      && after == Append(if Full(lines, i, room, size) then before + [""] else before, lines[i] + "\n")
      && LastSwitch(lines[..i + 1], room, size) ==
         (if Full(lines, i, room, size) then i else LastSwitch(lines[..i], room, size))
  {
    var a, line := lines[..i], lines[i];
    assert lines[..i + 1] == a + [line];
    if Overflows(i, room) {
      SpreadFurther(outputs, a, line, room, size);
    } else if i == room {
      assert (a + [line])[..room] == a && (a + [line])[room..] == [line];
      SpreadFirst(outputs, a, line, size);
    } else {
      UnlinesLast(a, line);
      AppendTwice(outputs, Unlines(a), line + "\n");
    }
  }

  lemma AppendTwice(outputs: seq<string>, s: string, t: string)
    requires outputs != []
    ensures Append(Append(outputs, s), t) == Append(outputs, s + t)
  {
    Regroup(outputs[|outputs| - 1], s, t);
  }

  /** The line that opens the first further file. */
  lemma SpreadFirst(outputs: seq<string>, a: seq<Row>, line: Row, size: nat)
    requires outputs != [] && size > 0
    ensures Append(outputs, Unlines(a)) + Texts(Pack([line], size)) ==
            Append(Append(outputs, Unlines(a)) + [""], line + "\n")
  {
    UnlinesLast([], line);
    assert [] + [line] == [line] && "" + (line + "\n") == line + "\n";
    assert Texts([[line]]) == [Unlines([line])];
  }

  /** A line behind one or more further files. */
  lemma SpreadFurther(outputs: seq<string>, a: seq<Row>, line: Row, room: nat, size: nat)
    requires outputs != [] && size > 0 && room < |a|
    ensures
      var before, after := Spread(outputs, a, room, size), Spread(outputs, a + [line], room, size);
      var full := |Last(Pack(a[room..], size))| == size;
      && after == Append(if full then before + [""] else before, line + "\n")
      && LastSwitch(a + [line], room, size) == (if full then |a| else LastSwitch(a, room, size))
      && (full <==> |a| == LastSwitch(a, room, size) + size)
  {
    var rest := a[room..];
    assert (a + [line])[..room] == a[..room] && (a + [line])[room..] == rest + [line];
    PackAdd(rest, line, size);
    FurtherText(Append(outputs, Unlines(a[..room])), Pack(rest, size), line, size);
  }

  lemma FurtherText(first: seq<string>, files: seq<seq<Row>>, line: Row, size: nat)
    requires first != [] && files != []
    ensures
      var before, full := first + Texts(files), |Last(files)| == size;
      first + Texts(AddRow(files, line, size)) == Append(if full then before + [""] else before, line + "\n")
  {
    TextsAdd(files, line, size);
    assert "" + (line + "\n") == line + "\n";
  }

  lemma TextsAdd(files: seq<seq<Row>>, row: Row, size: nat)
    requires files != []
    ensures Texts(AddRow(files, row, size)) ==
            if |Last(files)| == size then Texts(files) + [row + "\n"] else Append(Texts(files), row + "\n")
  {
    UnlinesLast([], row);
    assert [] + [row] == [row] && "" + (row + "\n") == row + "\n";
    UnlinesLast(Last(files), row);
    var added := AddRow(files, row, size);
    assert forall k :: 0 <= k < |files| - 1 ==> added[k] == files[k];
  }
}
