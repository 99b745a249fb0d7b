/** The delta interpreter accepts exactly the correct documents and inverts the printer. */
module DeltaTheorems {
  import opened Prelude
  import opened DeltaFormat

  /** A byte that ends a digit run without an error. */
  predicate Terminates(s: Bytes) { s == [] || (!IsDigit(s[0]) && s[0] < 128) }

  lemma {:induction false} DigitRunShown(t: Bytes, s: Bytes)
    requires AllDigits(t) && (s == [] || !IsDigit(s[0]))
    ensures DigitRun(t + s) == |t|
  {
    if t == [] {
      assert t + s == s;
    } else {
      DigitRunShown(t[1..], s);
      assert (t + s)[1..] == t[1..] + s;
    }
  }

  /** Reading back a digit string leaves the cursor on its terminator. */
  lemma ScanShown(t: Bytes, s: Bytes)
    requires AllDigits(t) && Terminates(s)
    ensures ScanInt(t + s) == Ok(Scanned(Num(t), s))
  {
    DigitRunShown(t, s);
    assert (t + s)[..|t|] == t && (t + s)[|t|..] == s;
  }

  /** `get_int` inverts `encode_int` on every u32 before any ASCII byte that is not a digit. */
  lemma ScanInvertsEncode(v: u32, s: Bytes)
    requires Terminates(s)
    ensures ScanInt(EncodeInt(v) + s) == Ok(Scanned(v, s))
  {
    ScanShown(EncodeInt(v), s);
    NumEncoded(v);
  }

  lemma NumEncoded(v: u32)
    ensures Num(EncodeInt(v)) == v
  {
    if v == 0 {
      assert [Digit(0)][..0] == [];
    } else {
      NumeralValue(v);
    }
  }

  /** What a successful scan read: a digit string and the rest of the input. */
  lemma ScanSound(s: Bytes) returns (t: Bytes)
    requires ScanInt(s).Ok?
    ensures AllDigits(t) && Num(t) == ScanInt(s).value.num && s == t + ScanInt(s).value.rest
  {
    t := s[..DigitRun(s)];
  }

  /** A concatenation read from either end. */
  lemma Regroup(a: Bytes, b: Bytes, c: Bytes, d: Bytes)
    ensures a + b + c + d == a + (b + (c + d))
  {}

  // ---------- completeness ----------

  lemma CopyShown(source: Bytes, limit: nat, g: Segment, s: Bytes, output: Bytes)
    requires WellFormedSegment(g) && g.CopySegment? && InSource(source, EditOf(g))
    requires |output| + Num(g.count) <= limit
    ensures ShowSegment(g) + s != []
    ensures Command(source, limit, ShowSegment(g) + s, output) == Continued(s, output + Piece(source, EditOf(g)))
  {
    hide Num, ScanInt, DigitRun;
    var inner := [COMMA] + s;
    var tail := [AT] + (g.offset + inner);
    Regroup(g.count, [AT], g.offset, [COMMA]);
    Regroup(g.count, [AT], g.offset, inner);
    Regroup(g.count + [AT], g.offset, [COMMA], s);
    assert ShowSegment(g) + s == g.count + tail;
    ScanShown(g.count, tail);
    assert tail[1..] == g.offset + inner;
    ScanShown(g.offset, inner);
    assert inner[1..] == s;
  }

  lemma InsertShown(source: Bytes, limit: nat, g: Segment, s: Bytes, output: Bytes)
    requires WellFormedSegment(g) && g.InsertSegment?
    requires |output| + |g.literal| <= limit
    ensures ShowSegment(g) + s != []
    ensures Command(source, limit, ShowSegment(g) + s, output) == Continued(s, output + Piece(source, EditOf(g)))
  {
    hide Num, ScanInt, DigitRun;
    var tail := [COLON] + (g.literal + s);
    Regroup(g.count, [COLON], g.literal, s);
    assert ShowSegment(g) + s == g.count + tail;
    ScanShown(g.count, tail);
    assert tail[1..] == g.literal + s;
    assert (g.literal + s)[..|g.literal|] == g.literal && (g.literal + s)[|g.literal|..] == s;
  }

  lemma ClosingShown(source: Bytes, limit: nat, checksum: Bytes, more: Bytes, output: Bytes)
    requires AllDigits(checksum) && |output| == limit && Checksum(output) == Num(checksum)
    ensures Command(source, limit, checksum + [SEMICOLON] + more, output) == Finished(output)
  {
    var tail := [SEMICOLON] + more;
    assert checksum + [SEMICOLON] + more == checksum + tail;
    ScanShown(checksum, tail);
  }

  lemma Associative(a: Bytes, b: Bytes, c: Bytes)
    ensures (a + b) + c == a + (b + c)
  {}

  lemma FirstEdit(source: Bytes, gs: seq<Segment>)
    requires gs != [] && WellFormedSegments(gs) && AllInSource(source, Edits(gs))
    ensures InSource(source, EditOf(gs[0]))
    ensures WellFormedSegments(gs[1..]) && AllInSource(source, Edits(gs[1..]))
    ensures Target(source, Edits(gs)) == Piece(source, EditOf(gs[0])) + Target(source, Edits(gs[1..]))
  {}

  lemma PrependEdit(source: Bytes, g: Segment, gs: seq<Segment>)
    requires WellFormedSegment(g) && InSource(source, EditOf(g))
    requires WellFormedSegments(gs) && AllInSource(source, Edits(gs))
    ensures WellFormedSegments([g] + gs) && AllInSource(source, Edits([g] + gs))
    ensures Target(source, Edits([g] + gs)) == Piece(source, EditOf(g)) + Target(source, Edits(gs))
    ensures ShowSegments([g] + gs) == ShowSegment(g) + ShowSegments(gs)
  {}

  /** The limit checks of the single steps all follow from the final size equality. */
  lemma {:induction false} CommandsComplete(source: Bytes, limit: nat, gs: seq<Segment>, checksum: Bytes,
                                            more: Bytes, output: Bytes)
    requires WellFormedSegments(gs) && AllDigits(checksum) && AllInSource(source, Edits(gs))
    requires |output + Target(source, Edits(gs))| == limit
    requires Checksum(output + Target(source, Edits(gs))) == Num(checksum)
    ensures Commands(source, limit, ShowSegments(gs) + (checksum + [SEMICOLON] + more), output)
         == Ok(output + Target(source, Edits(gs)))
  {
    var closing := checksum + [SEMICOLON] + more;
    if gs == [] {
      assert ShowSegments(gs) + closing == closing;
      assert output + Target(source, Edits(gs)) == output;
      ClosingShown(source, limit, checksum, more, output);
    } else {
      FirstEdit(source, gs);
      var piece, others := Piece(source, EditOf(gs[0])), Target(source, Edits(gs[1..]));
      var tail := ShowSegments(gs[1..]) + closing;
      Associative(output, piece, others);
      Associative(ShowSegment(gs[0]), ShowSegments(gs[1..]), closing);
      CommandsComplete(source, limit, gs[1..], checksum, more, output + piece);
      SegmentShown(source, limit, gs[0], tail, output);
    }
  }

  lemma SegmentShown(source: Bytes, limit: nat, g: Segment, s: Bytes, output: Bytes)
    requires WellFormedSegment(g) && InSource(source, EditOf(g))
    requires |output| + |Piece(source, EditOf(g))| <= limit
    ensures Commands(source, limit, ShowSegment(g) + s, output)
         == Commands(source, limit, s, output + Piece(source, EditOf(g)))
  {
    if g.CopySegment? {
      CopyShown(source, limit, g, s, output);
    } else {
      InsertShown(source, limit, g, s, output);
    }
  }

  lemma Complete(source: Bytes, doc: Document, target: Bytes, more: Bytes)
    requires Describes(source, doc, target)
    ensures Apply(source, Show(doc) + more) == Ok(target)
  {
    ShowMore(doc, more);
    var body := ShowSegments(doc.segments) + (doc.checksum + [SEMICOLON] + more);
    var tail := [NEWLINE] + body;
    ScanShown(doc.size, tail);
    assert tail[1..] == body;
    assert [] + target == target;
    CommandsComplete(source, Num(doc.size), doc.segments, doc.checksum, more, []);
  }

  lemma ShowMore(doc: Document, more: Bytes)
    ensures Show(doc) + more
         == doc.size + ([NEWLINE] + (ShowSegments(doc.segments) + (doc.checksum + [SEMICOLON] + more)))
  {}

  // ---------- soundness ----------

  /** What a turn that goes on has read: one well-formed segment, unless the input ran out. */
  lemma TurnSound(source: Bytes, limit: nat, s: Bytes, output: Bytes) returns (g: Segment)
    requires s != [] && Command(source, limit, s, output).Continued?
    requires Command(source, limit, s, output).rest != []
    ensures WellFormedSegment(g) && InSource(source, EditOf(g))
    ensures s == ShowSegment(g) + Command(source, limit, s, output).rest
    ensures Command(source, limit, s, output).output == output + Piece(source, EditOf(g))
  {
    var count := ScanSound(s);
    var s1 := ScanInt(s).value.rest;
    if s1[0] == AT {
      g := CopyOperand(source, limit, s1, output, count);
    } else {
      g := InsertOperand(limit, s1, output, count);
    }
  }

  lemma CopyOperand(source: Bytes, limit: nat, s: Bytes, output: Bytes, count: Bytes) returns (g: Segment)
    requires AllDigits(count) && s != [] && s[0] == AT
    requires CopyCommand(source, limit, s[1..], output, Num(count)).Continued?
    requires CopyCommand(source, limit, s[1..], output, Num(count)).rest != []
    ensures WellFormedSegment(g) && InSource(source, EditOf(g))
    ensures count + s == ShowSegment(g) + CopyCommand(source, limit, s[1..], output, Num(count)).rest
    ensures CopyCommand(source, limit, s[1..], output, Num(count)).output == output + Piece(source, EditOf(g))
  {
    hide Num, ScanInt, DigitRun;
    var offset := ScanSound(s[1..]);
    var rest := CopyCommand(source, limit, s[1..], output, Num(count)).rest;
    g := CopySegment(count, offset);
    assert s == [AT] + (offset + ([COMMA] + rest));
    Regroup(count, [AT], offset, [COMMA] + rest);
    Regroup(count + [AT], offset, [COMMA], rest);
  }

  lemma InsertOperand(limit: nat, s: Bytes, output: Bytes, count: Bytes) returns (g: Segment)
    requires AllDigits(count) && s != [] && s[0] == COLON
    requires InsertCommand(limit, s[1..], output, Num(count)).Continued?
    ensures WellFormedSegment(g) && g.InsertSegment?
    ensures count + s == ShowSegment(g) + InsertCommand(limit, s[1..], output, Num(count)).rest
    ensures InsertCommand(limit, s[1..], output, Num(count)).output == output + g.literal
  {
    hide Num;
    var rest := InsertCommand(limit, s[1..], output, Num(count)).rest;
    g := InsertSegment(count, s[1..][..Num(count)]);
    assert s == [COLON] + (g.literal + rest);
    Regroup(count, [COLON], g.literal, rest);
  }

  lemma ClosingSound(source: Bytes, limit: nat, s: Bytes, output: Bytes) returns (checksum: Bytes, more: Bytes)
    requires s != [] && Command(source, limit, s, output).Finished?
    ensures AllDigits(checksum) && s == checksum + [SEMICOLON] + more
    ensures Command(source, limit, s, output) == Finished(output)
    ensures |output| == limit && Checksum(output) == Num(checksum)
  {
    hide Num, ScanInt, DigitRun, Checksum;
    checksum := ScanSound(s);
    var s1 := ScanInt(s).value.rest;
    more := s1[1..];
    assert s1 == [SEMICOLON] + more;
    Associative(checksum, [SEMICOLON], more);
  }

  lemma {:induction false} CommandsSound(source: Bytes, limit: nat, s: Bytes, output: Bytes)
    returns (gs: seq<Segment>, checksum: Bytes, more: Bytes)
    requires Commands(source, limit, s, output).Ok?
    ensures WellFormedSegments(gs) && AllDigits(checksum) && AllInSource(source, Edits(gs))
    ensures s == ShowSegments(gs) + (checksum + [SEMICOLON] + more)
    ensures Commands(source, limit, s, output).value == output + Target(source, Edits(gs))
    ensures |output + Target(source, Edits(gs))| == limit
    ensures Checksum(output + Target(source, Edits(gs))) == Num(checksum)
    decreases |s|
  {
    match Command(source, limit, s, output) {
      case Finished(target) =>
        checksum, more := ClosingSound(source, limit, s, output);
        gs := [];
        assert output + Target(source, Edits(gs)) == output;
        assert s == ShowSegments(gs) + s;
      case Continued(rest, output') =>
        var g := TurnSound(source, limit, s, output);
        var tail;
        tail, checksum, more := CommandsSound(source, limit, rest, output');
        gs := [g] + tail;
        PrependEdit(source, g, tail);
        Associative(output, Piece(source, EditOf(g)), Target(source, Edits(tail)));
        Associative(ShowSegment(g), ShowSegments(tail), checksum + [SEMICOLON] + more);
    }
  }

  lemma Sound(source: Bytes, delta: Bytes) returns (doc: Document, more: Bytes)
    requires Apply(source, delta).Ok?
    ensures delta == Show(doc) + more && Describes(source, doc, Apply(source, delta).value)
  {
    hide Commands, Target, Checksum, Num, DigitRun, Edits;
    var size := ScanSound(delta);
    var s := ScanInt(delta).value.rest;
    var gs, checksum;
    gs, checksum, more := CommandsSound(source, Num(size), s[1..], []);
    doc := Document(size, gs, checksum);
    ShowMore(doc, more);
    assert s == [NEWLINE] + s[1..];
    assert [] + Target(source, Edits(gs)) == Target(source, Edits(gs));
  }

  // ---------- main results ----------

  ghost predicate HasDocument(source: Bytes, delta: Bytes, target: Bytes) {
    exists doc, more :: delta == Show(doc) + more && Describes(source, doc, target)
  }

  /** The interpreter returns `target` exactly when some prefix of the delta is a document for it. */
  lemma ApplyExact(source: Bytes, delta: Bytes, target: Bytes)
    ensures Apply(source, delta) == Ok(target) <==> HasDocument(source, delta, target)
  {
    if Apply(source, delta) == Ok(target) {
      var doc, more := Sound(source, delta);
    }
    if HasDocument(source, delta, target) {
      var doc, more :| delta == Show(doc) + more && Describes(source, doc, target);
      Complete(source, doc, target, more);
    }
  }

  /** Bytes after the terminator never matter. */
  lemma PrefixStable(source: Bytes, delta: Bytes, suffix: Bytes)
    requires Apply(source, delta).Ok?
    ensures Apply(source, delta + suffix) == Apply(source, delta)
  {
    var doc, more := Sound(source, delta);
    Associative(Show(doc), more, suffix);
    Complete(source, doc, Apply(source, delta).value, more + suffix);
  }

  // ---------- round trip ----------

  predicate Encodable(e: Edit) {
    match e
    case Copy(offset, count) => offset < TWO_32 && count < TWO_32
    case Insert(literal) => |literal| < TWO_32
  }

  predicate AllEncodable(script: seq<Edit>) {
    forall i :: 0 <= i < |script| ==> Encodable(script[i])
  }

  function PrintEdit(e: Edit): (g: Segment)
    requires Encodable(e)
  {
    match e
    case Copy(offset, count) => CopySegment(EncodeInt(count), EncodeInt(offset))
    case Insert(literal) => InsertSegment(EncodeInt(|literal|), literal)
  }

  function PrintEdits(script: seq<Edit>): seq<Segment>
    requires AllEncodable(script)
  {
    if script == [] then [] else [PrintEdit(script[0])] + PrintEdits(script[1..])
  }

  /** The server's side: a script written in the documented format. */
  function Print(source: Bytes, script: seq<Edit>): Document
    requires AllEncodable(script) && AllInSource(source, script) && |Target(source, script)| < TWO_32
  {
    var target := Target(source, script);
    Document(EncodeInt(|target|), PrintEdits(script), EncodeInt(Checksum(target)))
  }

  lemma {:induction false} PrintEditsInverse(script: seq<Edit>)
    requires AllEncodable(script)
    ensures WellFormedSegments(PrintEdits(script)) && Edits(PrintEdits(script)) == script
  {
    if script != [] {
      var g := PrintEdit(script[0]);
      match script[0] {
        case Copy(offset, count) =>
          NumEncoded(count);
          NumEncoded(offset);
        case Insert(literal) =>
          NumEncoded(|literal|);
      }
      PrintEditsInverse(script[1..]);
      assert PrintEdits(script)[1..] == PrintEdits(script[1..]);
      assert script == [script[0]] + script[1..];
    }
  }

  /** Delta round trip: applying the printed script yields the script's target. */
  lemma RoundTrip(source: Bytes, script: seq<Edit>)
    requires AllEncodable(script) && AllInSource(source, script) && |Target(source, script)| < TWO_32
    ensures Apply(source, Show(Print(source, script))) == Ok(Target(source, script))
  {
    var target := Target(source, script);
    var doc := Print(source, script);
    PrintEditsInverse(script);
    NumEncoded(|target|);
    NumEncoded(Checksum(target));
    Complete(source, doc, target, []);
    assert Show(doc) + [] == Show(doc);
  }
}
