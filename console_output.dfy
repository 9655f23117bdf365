/** The console variant (`ConsoleOutputStrategy` in patternLab4/src/output_strategy.py).
    Standard output is an append-only log of lines; a line keeps its structure
    (which banner, which record number, which field) rather than its wording, and
    a field line keeps the field's name and the text `str()` gives its value. */
module ConsoleOutput {
  import opened Wrappers
  import opened Values

  datatype Line =
    | Banner                                 // the "=== ... ===" header printed once per call
    | Heading(number: nat)                   // "Record #n:", numbered from 1
    | FieldLine(name: string, text: string)  // "  name: value", `text` being str(value)
    | Rule                                   // fifty dashes

  /** A field as it reads on the console: its name and the text of its value. */
  datatype TextField = TextField(name: string, text: string)

  /** A record as it reads on the console. */
  function Printed(r: Record): (p: seq<TextField>)
    ensures |p| == |r|
  {
    seq(|r|, i requires 0 <= i < |r| => TextField(r[i].name, Show(r[i].value)))
  }

  /** A batch as it reads on the console. */
  function PrintedAll(data: seq<Record>): (ps: seq<seq<TextField>>)
    ensures |ps| == |data|
  {
    seq(|data|, i requires 0 <= i < |data| => Printed(data[i]))
  }

  /** One "  name: value" line per field, in the record's field order. */
  function FieldLines(r: Record): (ls: seq<Line>)
    ensures |ls| == |r|
  {
    if r == [] then [] else [FieldLine(r[0].name, Show(r[0].value))] + FieldLines(r[1..])
  }

  /** What is printed for the record numbered `number`. */
  function Block(number: nat, r: Record): seq<Line>
  {
    [Heading(number)] + FieldLines(r) + [Rule]
  }

  /** The blocks of `data`, the first one numbered `first`. */
  function Blocks(data: seq<Record>, first: nat): seq<Line>
  {
    if data == [] then [] else Block(first, data[0]) + Blocks(data[1..], first + 1)
  }

  /** Everything one `output_data(data)` call prints. */
  function Report(data: seq<Record>): seq<Line>
  {
    [Banner] + Blocks(data, 1)
  }

  lemma {:induction false} FieldLinesAppend(r: Record, f: Field)
    ensures FieldLines(r + [f]) == FieldLines(r) + [FieldLine(f.name, Show(f.value))]
  {
    if r != [] {
      assert (r + [f])[1..] == r[1..] + [f];
      FieldLinesAppend(r[1..], f);
    }
  }

  lemma {:induction false} BlocksAppend(data: seq<Record>, r: Record, first: nat)
    ensures Blocks(data + [r], first) == Blocks(data, first) + Block(first + |data|, r)
  {
    if data != [] {
      assert (data + [r])[1..] == data[1..] + [r];
      BlocksAppend(data[1..], r, first + 1);
    }
  }

  // ---- reading the printed lines back ----

  /** Reads field lines up to and including the closing rule. */
  function ParseFields(ls: seq<Line>): (r: Option<(seq<TextField>, seq<Line>)>)
    ensures r.Some? ==> |r.value.1| < |ls|
  {
    if ls == [] then None
    else match ls[0]
      case FieldLine(name, text) =>
        (match ParseFields(ls[1..])
         case None => None
         case Some((fields, rest)) => Some(([TextField(name, text)] + fields, rest)))
      case Rule => Some(([], ls[1..]))
      case _ => None
  }

  /** Reads consecutive blocks numbered `next`, `next + 1`, ... */
  function ParseBlocks(ls: seq<Line>, next: nat): Option<seq<seq<TextField>>>
    decreases |ls|
  {
    if ls == [] then Some([])
    else if ls[0] != Heading(next) then None
    else match ParseFields(ls[1..])
      case None => None
      case Some((r, rest)) =>
        match ParseBlocks(rest, next + 1)
        case None => None
        case Some(rs) => Some([r] + rs)
  }

  function ParseReport(ls: seq<Line>): Option<seq<seq<TextField>>>
  {
    if ls == [] || ls[0] != Banner then None else ParseBlocks(ls[1..], 1)
  }

  lemma {:induction false} ParseFieldsOfFieldLines(r: Record, tail: seq<Line>)
    ensures ParseFields(FieldLines(r) + [Rule] + tail) == Some((Printed(r), tail))
  {
    var ls := FieldLines(r) + [Rule] + tail;
    if r == [] {
      assert ls == [Rule] + tail;
    } else {
      assert ls[1..] == FieldLines(r[1..]) + [Rule] + tail;
      ParseFieldsOfFieldLines(r[1..], tail);
      assert [TextField(r[0].name, Show(r[0].value))] + Printed(r[1..]) == Printed(r);
    }
  }

  lemma {:induction false} ParseBlocksOfBlocks(data: seq<Record>, first: nat)
    ensures ParseBlocks(Blocks(data, first), first) == Some(PrintedAll(data))
  {
    if data != [] {
      var rest := Blocks(data[1..], first + 1);
      var ls := Blocks(data, first);
      assert ls == [Heading(first)] + (FieldLines(data[0]) + [Rule] + rest);
      assert ls[1..] == FieldLines(data[0]) + [Rule] + rest;
      ParseFieldsOfFieldLines(data[0], rest);
      ParseBlocksOfBlocks(data[1..], first + 1);
      assert [Printed(data[0])] + PrintedAll(data[1..]) == PrintedAll(data);
    }
  }

  /** The console output determines the batch as printed: every record appears, in
      input order, numbered from 1, with every field's name and value text in field order. */
  lemma ReportRoundTrip(data: seq<Record>)
    ensures ParseReport(Report(data)) == Some(PrintedAll(data))
  {
    assert Report(data)[1..] == Blocks(data, 1);
    ParseBlocksOfBlocks(data, 1);
  }

  /** The output does not determine the values' types: a batch whose value is the
      int 1 prints exactly like one whose value is the string "1". */
  lemma ReportLosesKind(name: string)
    ensures Report([[Field(name, Int(1))]]) == Report([[Field(name, Str("1"))]])
    ensures [[Field(name, Int(1))]] != [[Field(name, Str("1"))]]
  {
    ShowLosesKind();
    var a, b := Field(name, Int(1)), Field(name, Str("1"));
    assert FieldLines([a]) == [FieldLine(name, Show(Int(1)))] + FieldLines([]);
    assert FieldLines([b]) == [FieldLine(name, Show(Str("1")))] + FieldLines([]);
    assert Blocks([[a]], 1) == Block(1, [a]) + Blocks([], 2);
    assert Blocks([[b]], 1) == Block(1, [b]) + Blocks([], 2);
  }

  class ConsoleSink {
    /** Everything printed so far. */
    var lines: seq<Line>

    /** `ConsoleOutputStrategy(**kwargs)`: options are accepted and ignored. */
    constructor ()
      ensures lines == []
    {
      lines := [];
    }

    /** One pass of the outer loop: the heading, one line per field in order, the rule. */
    method PrintRecord(number: nat, item: Record)
      modifies this
      ensures lines == old(lines) + Block(number, item)
    {
      lines := lines + [Heading(number)];
      var j := 0;
      while j < |item|
        invariant 0 <= j <= |item|
        invariant lines == old(lines) + [Heading(number)] + FieldLines(item[..j])
      {
        FieldLinesAppend(item[..j], item[j]);
        assert item[..j + 1] == item[..j] + [item[j]];
        lines := lines + [FieldLine(item[j].name, Show(item[j].value))];
        j := j + 1;
      }
      lines := lines + [Rule];
      assert item[..j] == item;
    }

    /** `output_data(data)`: appends the banner and one block per record, in order. */
    method OutputData(data: seq<Record>)
      modifies this
      ensures lines == old(lines) + Report(data)
    {
      lines := lines + [Banner];
      var i := 0;
      while i < |data|
        invariant 0 <= i <= |data|
        invariant lines == old(lines) + [Banner] + Blocks(data[..i], 1)
      {
        PrintRecord(i + 1, data[i]);
        BlocksAppend(data[..i], data[i], 1);
        assert data[..i + 1] == data[..i] + [data[i]];
        i := i + 1;
      }
      assert data[..i] == data;
    }

    /** `close()` does nothing: nothing more is printed. */
    method Close()
      ensures lines == old(lines)
    {
    }
  }
}
