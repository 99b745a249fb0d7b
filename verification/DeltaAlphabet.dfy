/**
 The delta format spelled out: its alphabet, its operators and its checksum, defined from their
 documentation and without the interpreter's tables. `Accepts` ties the two together.
 */
module DeltaAlphabet {
  import opened Prelude
  import opened DeltaFormat
  import DeltaTheorems

  /** The 64 digits in the order of their values. */
  const ALPHABET := "0123456789" + "ABCDEFGHIJKLMNOPQRSTUVWXYZ" + "_" + "abcdefghijklmnopqrstuvwxyz" + "~"

  /** Text as bytes; the format uses ASCII only. */
  function Ascii(text: string): (b: Bytes)
    requires forall i :: 0 <= i < |text| ==> text[i] as int < 128
    ensures |b| == |text| && forall i :: 0 <= i < |b| ==> b[i] == text[i] as int
  {
    seq(|text|, i requires 0 <= i < |text| => text[i] as int)
  }

  // ---------- digits ----------

  lemma CapitalAt(i: nat)
    requires 10 <= i < 36
    ensures ALPHABET[i] as int == 55 + i
  {
    assert ALPHABET[i] == "ABCDEFGHIJKLMNOPQRSTUVWXYZ"[i - 10];
  }

  lemma SmallAt(i: nat)
    requires 37 <= i < 63
    ensures ALPHABET[i] as int == 60 + i
  {
    assert ALPHABET[i] == "abcdefghijklmnopqrstuvwxyz"[i - 37];
  }

  /** Each character of the alphabet is worth its position, and is written for it. */
  lemma DigitIsPosition(i: nat)
    requires i < 64
    ensures |ALPHABET| == 64
    ensures ALPHABET[i] as int == Digit(i) && DigitValue(Digit(i)) == i
  {
    if 10 <= i < 36 {
      CapitalAt(i);
    } else if 37 <= i < 63 {
      SmallAt(i);
    }
  }

  /** A byte is worth `v` exactly if the alphabet has it at position `v`, and -1 exactly if it does not have it. */
  lemma DigitsAreTheAlphabet(b: u8, v: nat)
    ensures DigitValue(b) == v <==> v < |ALPHABET| && ALPHABET[v] as int == b
    ensures DigitValue(b) == -1 <==> forall i :: 0 <= i < |ALPHABET| ==> ALPHABET[i] as int != b
  {
    assert |ALPHABET| == 64;
    if v < 64 { DigitIsPosition(v); }
    forall i | 0 <= i < 64
      ensures ALPHABET[i] as int == Digit(i) && DigitValue(Digit(i)) == i
    {
      DigitIsPosition(i);
    }
    if DigitValue(b) >= 0 {
      DigitIsPosition(DigitValue(b));
      assert Digit(DigitValue(b)) == b;
    }
  }

  // ---------- numbers ----------

  function Power(base: nat, n: nat): nat { if n == 0 then 1 else base * Power(base, n - 1) }

  function Times(a: nat, b: nat): nat { a * b }

  ghost predicate Has(b: u8) { exists k :: 0 <= k < |ALPHABET| && ALPHABET[k] as int == b }

  /** Where the alphabet has the byte, if it has it. */
  ghost function Position(b: u8): (i: nat)
    ensures Has(b) ==> i < |ALPHABET| && ALPHABET[i] as int == b
  {
    if Has(b) then var k :| 0 <= k < |ALPHABET| && ALPHABET[k] as int == b; k else 0
  }

  /** Made of characters of the alphabet alone. */
  ghost predicate InAlphabet(t: Bytes) { forall i :: 0 <= i < |t| ==> Has(t[i]) }

  /** The base-64 number written `t`: each digit times the power of 64 of its place. */
  ghost function Number(t: Bytes): nat {
    if t == [] then 0 else Times(Position(t[0]), Power(64, |t| - 1)) + Number(t[1..])
  }

  lemma InAlphabetIsDigits(t: Bytes)
    ensures InAlphabet(t) <==> AllDigits(t)
  {
    hide DigitValue;
    forall i | 0 <= i < |t|
      ensures IsDigit(t[i]) <==> Has(t[i])
    {
      DigitsAreTheAlphabet(t[i], 0);
    }
  }

  lemma {:induction false} NumberSnoc(t: Bytes, b: u8)
    requires InAlphabet(t) && Has(b)
    ensures InAlphabet(t + [b])
    ensures Number(t + [b]) == 64 * Number(t) + Position(b)
  {
    hide Has;
    if t == [] {
      assert t + [b] == [b];
    } else {
      assert (t + [b])[1..] == t[1..] + [b];
      NumberSnoc(t[1..], b);
      Rescale(Position(t[0]), Power(64, |t| - 1), Number(t[1..]), Position(b));
    }
  }

  lemma Rescale(d: nat, p: nat, n: nat, e: nat)
    ensures Times(d, 64 * p) + (64 * n + e) == 64 * (Times(d, p) + n) + e
  {
    assert d * (64 * p) == 64 * (d * p);
  }

  /** The value the reader's specification computes digit by digit is that number. */
  lemma {:induction false} ValueIsNumber(t: Bytes)
    requires AllDigits(t)
    ensures InAlphabet(t) && Value(t) == Number(t)
  {
    hide DigitValue, Has;
    InAlphabetIsDigits(t);
    if t != [] {
      var n := |t| - 1;
      assert t == t[..n] + [t[n]];
      ValueIsNumber(t[..n]);
      assert Has(t[n]);
      NumberSnoc(t[..n], t[n]);
      DigitsAreTheAlphabet(t[n], Position(t[n]));
    }
  }

  // ---------- the checksum ----------

  /** How often byte `i` counts. */
  function Weight(i: nat): nat { Power(256, 3 - i % 4) }

  function Weighed(d: Bytes): nat {
    if d == [] then 0 else Weighed(d[..|d| - 1]) + d[|d| - 1] * Weight(|d| - 1)
  }

  lemma WeightRepeats(m: nat, n: nat)
    requires m % 4 == 0
    ensures Weight(m + n) == Weight(n)
  {
    hide Power;
    assert (m + n) % 4 == n % 4;
  }

  lemma {:induction false} WeighedConcat(a: Bytes, b: Bytes)
    requires |a| % 4 == 0
    ensures Weighed(a + b) == Weighed(a) + Weighed(b)
  {
    hide Weight;
    if b == [] {
      assert a + b == a;
    } else {
      var n := |b| - 1;
      assert (a + b)[..|a| + n] == a + b[..n] && (a + b)[|a| + n] == b[n];
      WeighedConcat(a, b[..n]);
      WeightRepeats(|a|, n);
    }
  }

  lemma {:induction false} WeighedPadded(d: Bytes)
    requires |d| <= 4
    ensures Weighed(d) == PaddedAt(d, 0) * Weight(0) + PaddedAt(d, 1) * Weight(1)
                          + PaddedAt(d, 2) * Weight(2) + PaddedAt(d, 3) * Weight(3)
  {
    hide Weight;
    if d != [] { WeighedPadded(d[..|d| - 1]); }
  }

  lemma WeighedWord(d: Bytes)
    requires |d| <= 4
    ensures Weighed(d) == Word(d)
  {
    assert Weight(0) == 0x100_0000 && Weight(1) == 0x1_0000 && Weight(2) == 0x100 && Weight(3) == 1;
    WeighedPadded(d);
  }

  lemma {:induction false} TotalIsWeighed(d: Bytes)
    ensures WordTotal(d) == Weighed(d)
  {
    if |d| <= 4 {
      WeighedWord(d);
    } else {
      TotalIsWeighed(d[4..]);
      WeighedWord(d[..4]);
      WeighedConcat(d[..4], d[4..]);
      assert d == d[..4] + d[4..];
    }
  }

  /** The checksum is the weighed sum of the bytes modulo 2^32. */
  lemma ChecksumWeighs(d: Bytes)
    ensures Checksum(d) == Weighed(d) % 0x1_0000_0000
  {
    TotalIsWeighed(d);
  }

  // ---------- documents ----------

  /** Commands as the format writes them. */
  function Spelled(gs: seq<Segment>): Bytes {
    if gs == [] then []
    else
      match gs[0]
      case CopySegment(count, offset) => count + Ascii("@") + offset + Ascii(",") + Spelled(gs[1..])
      case InsertSegment(count, literal) => count + Ascii(":") + literal + Spelled(gs[1..])
  }

  /** What a number means to the reader, which keeps 32 bits. */
  ghost function Read(t: Bytes): nat { Number(t) % 0x1_0000_0000 }

  /** The bytes one command stands for: as many as it counts, copied from its offset or given with it. */
  ghost predicate Means(source: Bytes, g: Segment, piece: Bytes) {
    && InAlphabet(g.count) && |piece| == Read(g.count)
    && match g
       case CopySegment(count, offset) =>
         && InAlphabet(offset)
         && Read(offset) + Read(count) <= |source|
         && piece == source[Read(offset)..Read(offset) + Read(count)]
       case InsertSegment(count, literal) => piece == literal
  }

  /** The commands turn `source` into `target`, piece by piece. */
  ghost predicate Rebuilds(source: Bytes, gs: seq<Segment>, target: Bytes) {
    if gs == [] then target == []
    else
      && InAlphabet(gs[0].count) && Read(gs[0].count) <= |target|
      && Means(source, gs[0], target[..Read(gs[0].count)])
      && Rebuilds(source, gs[1..], target[Read(gs[0].count)..])
  }

  /** A size, a newline, the commands, a checksum and a semicolon; then anything. */
  ghost predicate Accepted(source: Bytes, delta: Bytes, target: Bytes) {
    exists size, gs, checksum, more :: AcceptedAs(source, delta, target, size, gs, checksum, more)
  }

  ghost predicate AcceptedAs(
      source: Bytes, delta: Bytes, target: Bytes, size: Bytes, gs: seq<Segment>, checksum: Bytes, more: Bytes)
  {
    && delta == size + Ascii("\n") + Spelled(gs) + checksum + Ascii(";") + more
    && InAlphabet(size) && InAlphabet(checksum)
    && Rebuilds(source, gs, target)
    && |target| == Read(size)
    && Weighed(target) % 0x1_0000_0000 == Read(checksum)
  }

  lemma {:induction false} SpelledIsShown(gs: seq<Segment>)
    ensures Spelled(gs) == ShowSegments(gs)
  {
    if gs != [] {
      SpelledIsShown(gs[1..]);
      assert Ascii("@") == [AT] && Ascii(",") == [COMMA] && Ascii(":") == [COLON];
    }
  }

  lemma ReadIsNum(t: Bytes)
    ensures InAlphabet(t) <==> AllDigits(t)
    ensures AllDigits(t) ==> Read(t) == Num(t)
  {
    hide DigitValue;
    InAlphabetIsDigits(t);
    if AllDigits(t) { ValueIsNumber(t); }
  }

  /** What one command stands for, in the terms of either. */
  lemma SegmentMeans(source: Bytes, g: Segment, piece: Bytes)
    ensures Means(source, g, piece)
       <==> WellFormedSegment(g) && InSource(source, EditOf(g)) && piece == Piece(source, EditOf(g))
  {
    hide AllDigits, InAlphabet, Read, Num;
    ReadIsNum(g.count);
    if g.CopySegment? { ReadIsNum(g.offset); }
  }

  lemma {:induction false} RebuildsTarget(source: Bytes, gs: seq<Segment>, target: Bytes)
    requires Rebuilds(source, gs, target)
    ensures WellFormedSegments(gs) && AllInSource(source, Edits(gs)) && target == Target(source, Edits(gs))
  {
    hide Means, WellFormedSegments, AllInSource, Target, InAlphabet, Edits, Read, Piece, EditOf, WellFormedSegment;
    if gs == [] {
      EmptyTarget(source);
    } else {
      var n := Read(gs[0].count);
      var first, others := target[..n], target[n..];
      SegmentMeans(source, gs[0], first);
      RebuildsTarget(source, gs[1..], others);
      DeltaTheorems.PrependEdit(source, gs[0], gs[1..]);
      assert gs == [gs[0]] + gs[1..];
      assert target == first + others;
    }
  }

  lemma EmptyTarget(source: Bytes)
    ensures WellFormedSegments([]) && AllInSource(source, Edits([])) && Target(source, Edits([])) == []
  {}

  lemma {:induction false} TargetRebuilt(source: Bytes, gs: seq<Segment>)
    requires WellFormedSegments(gs) && AllInSource(source, Edits(gs))
    ensures Rebuilds(source, gs, Target(source, Edits(gs)))
  {
    hide Means, WellFormedSegments, AllInSource, Target, InAlphabet, Edits, Piece, EditOf, Read;
    if gs == [] {
      EmptyTarget(source);
    } else {
      DeltaTheorems.FirstEdit(source, gs);
      FirstWellFormed(gs);
      var piece, others := Piece(source, EditOf(gs[0])), Target(source, Edits(gs[1..]));
      SegmentMeans(source, gs[0], piece);
      MeansCounts(source, gs[0], piece);
      TargetRebuilt(source, gs[1..]);
      assert (piece + others)[..|piece|] == piece && (piece + others)[|piece|..] == others;
    }
  }

  lemma FirstWellFormed(gs: seq<Segment>)
    requires gs != [] && WellFormedSegments(gs)
    ensures WellFormedSegment(gs[0])
  {}

  lemma MeansCounts(source: Bytes, g: Segment, piece: Bytes)
    requires Means(source, g, piece)
    ensures InAlphabet(g.count) && |piece| == Read(g.count)
  {}

  lemma RebuildsIsTarget(source: Bytes, gs: seq<Segment>, target: Bytes)
    ensures Rebuilds(source, gs, target) <==>
            WellFormedSegments(gs) && AllInSource(source, Edits(gs)) && target == Target(source, Edits(gs))
  {
    hide Rebuilds, Target, WellFormedSegments, AllInSource;
    if Rebuilds(source, gs, target) { RebuildsTarget(source, gs, target); }
    if WellFormedSegments(gs) && AllInSource(source, Edits(gs)) { TargetRebuilt(source, gs); }
  }

  /** A document in the interpreter's terms is one as spelled here. */
  lemma DocumentSpelled(source: Bytes, delta: Bytes, target: Bytes, doc: Document, more: Bytes)
    ensures delta == Show(doc) + more && Describes(source, doc, target) <==>
            AcceptedAs(source, delta, target, doc.size, doc.segments, doc.checksum, more)
  {
    hide Has, Rebuilds, Target, AllInSource, InAlphabet, AllDigits, Num, Read, Checksum, Weighed;
    SpelledIsShown(doc.segments);
    RebuildsIsTarget(source, doc.segments, target);
    ReadIsNum(doc.size);
    ReadIsNum(doc.checksum);
    ChecksumWeighs(target);
    assert Ascii("\n") == [NEWLINE] && Ascii(";") == [SEMICOLON];
    DeltaTheorems.ShowMore(doc, more);
    Regrouped(doc.size, ShowSegments(doc.segments), doc.checksum, more);
  }

  lemma Regrouped(size: Bytes, body: Bytes, checksum: Bytes, more: Bytes)
    ensures size + [NEWLINE] + body + checksum + [SEMICOLON] + more
         == size + ([NEWLINE] + (body + (checksum + [SEMICOLON] + more)))
  {}

  /** The interpreter returns `target` exactly for the deltas the format's documentation describes. */
  lemma AcceptsExactly(source: Bytes, delta: Bytes, target: Bytes)
    ensures Apply(source, delta) == Ok(target) <==> Accepted(source, delta, target)
  {
    hide Apply, Describes, AcceptedAs, Show;
    DeltaTheorems.ApplyExact(source, delta, target);
    if DeltaTheorems.HasDocument(source, delta, target) {
      var doc, more :| delta == Show(doc) + more && Describes(source, doc, target);
      DocumentSpelled(source, delta, target, doc, more);
    }
    if Accepted(source, delta, target) {
      var size, gs, checksum, more :| AcceptedAs(source, delta, target, size, gs, checksum, more);
      DocumentSpelled(source, delta, target, Document(size, gs, checksum), more);
    }
  }

  // ---------- what is written ----------

  /** The encoder writes the number, and no digit too many. */
  lemma {:induction false} NumeralShortest(v: nat)
    requires v > 0
    ensures Numeral(v)[0] != '0' as int
  {
    if v >= 64 { NumeralShortest(v / 64); }
  }

  lemma EncodesNumber(v: u32)
    ensures InAlphabet(EncodeInt(v)) && Number(EncodeInt(v)) == v
    ensures EncodeInt(v)[0] == '0' as int <==> v == 0
    ensures v == 0 ==> |EncodeInt(v)| == 1
  {
    hide Has, Number;
    ValueIsNumber(EncodeInt(v));
    if v == 0 {
      assert [Digit(0)][..0] == [];
    } else {
      NumeralValue(v);
      NumeralShortest(v);
    }
  }

  // ---------- what is refused, and how ----------

  /** Size, newline and the commands so far. */
  function Opening(size: Bytes, gs: seq<Segment>): Bytes { size + Ascii("\n") + Spelled(gs) }

  /** The opening of a delta is fine: it declares at least the bytes `done` its commands rebuild. */
  ghost predicate Opens(source: Bytes, size: Bytes, gs: seq<Segment>, done: Bytes) {
    InAlphabet(size) && Rebuilds(source, gs, done) && |done| <= Read(size)
  }

  lemma {:induction false} CommandsResume(source: Bytes, limit: nat, gs: seq<Segment>, s: Bytes, output: Bytes)
    requires WellFormedSegments(gs) && AllInSource(source, Edits(gs))
    requires |output| + |Target(source, Edits(gs))| <= limit
    ensures Commands(source, limit, ShowSegments(gs) + s, output)
         == Commands(source, limit, s, output + Target(source, Edits(gs)))
  {
    hide Commands, WellFormedSegment, InSource, Edits, ShowSegment;
    if gs == [] {
      assert ShowSegments(gs) + s == s;
      assert Edits(gs) == [] && output + Target(source, Edits(gs)) == output;
    } else {
      DeltaTheorems.FirstEdit(source, gs);
      var piece, others := Piece(source, EditOf(gs[0])), Target(source, Edits(gs[1..]));
      DeltaTheorems.Associative(output, piece, others);
      DeltaTheorems.Associative(ShowSegment(gs[0]), ShowSegments(gs[1..]), s);
      DeltaTheorems.SegmentShown(source, limit, gs[0], ShowSegments(gs[1..]) + s, output);
      CommandsResume(source, limit, gs[1..], s, output + piece);
    }
  }

  /** After a fine opening the interpreter stands at what follows with `done` in its output. */
  lemma AfterOpening(source: Bytes, size: Bytes, gs: seq<Segment>, done: Bytes, s: Bytes)
    requires Opens(source, size, gs, done)
    ensures Apply(source, Opening(size, gs) + s) == Commands(source, Read(size), s, done)
  {
    hide Rebuilds, Target, InAlphabet, Num, Read, Commands, ScanInt, Has, WellFormedSegments, AllInSource, Edits;
    ReadIsNum(size);
    SpelledIsShown(gs);
    RebuildsIsTarget(source, gs, done);
    assert Ascii("\n") == [NEWLINE];
    var tail := [NEWLINE] + (ShowSegments(gs) + s);
    assert Opening(size, gs) + s == size + tail;
    DeltaTheorems.ScanShown(size, tail);
    assert tail[1..] == ShowSegments(gs) + s;
    assert [] + done == done;
    CommandsResume(source, Num(size), gs, s, []);
  }

  /** A digit string before a byte above 127 is an error, and before any other byte that is no digit a number. */
  lemma Scans(t: Bytes, s: Bytes)
    requires InAlphabet(t) && (s == [] || !Has(s[0]))
    ensures ScanInt(t + s) == if s != [] && s[0] >= 128 then Err(InvalidByte) else Ok(Scanned(Read(t), s))
  {
    hide Read, Num, Has;
    ReadIsNum(t);
    if s != [] {
      InAlphabetIsDigits([s[0]]);
      assert !InAlphabet([s[0]]) by { assert [s[0]][0] == s[0]; }
    }
    DeltaTheorems.DigitRunShown(t, s);
    assert (t + s)[..|t|] == t && (t + s)[|t|..] == s;
  }

  /** A byte the alphabet does not have. */
  lemma NotADigit(c: char)
    requires c in "\n@:;,"
    ensures c as int < 128 && !Has(c as int)
  {
    DigitsAreTheAlphabet(c as int, 0);
  }

  /** A delta that does not start with a number and a newline. */
  lemma RefusedSize(source: Bytes, size: Bytes, rest: Bytes)
    requires InAlphabet(size) && (rest == [] || (!Has(rest[0]) && rest[0] != '\n' as int))
    ensures Apply(source, size + rest) == Err(
      if rest == [] then UnexpectedEnd else if rest[0] >= 128 then InvalidByte else MissingNewline)
  {
    hide InAlphabet, Has, Read, ScanInt, Commands;
    Scans(size, rest);
  }

  /** A delta that ends without a trailer, or has something else where a command should be. */
  lemma RefusedOperator(source: Bytes, size: Bytes, gs: seq<Segment>, done: Bytes, count: Bytes, rest: Bytes)
    requires Opens(source, size, gs, done) && InAlphabet(count)
    requires rest == [] || (!Has(rest[0]) && rest[0] !in Ascii("@:;"))
    ensures Apply(source, Opening(size, gs) + (count + rest)) == Err(
      if count + rest == [] then Unterminated
      else if rest == [] then UnexpectedEnd
      else if rest[0] >= 128 then InvalidByte
      else UnknownOperator(rest[0]))
  {
    hide InAlphabet, Has, Read, ScanInt, Opens, Apply, Opening;
    AfterOpening(source, size, gs, done, count + rest);
    Scans(count, rest);
    assert rest != [] ==> rest[0] != AT && rest[0] != COLON && rest[0] != SEMICOLON by {
      assert Ascii("@:;")[0] == AT && Ascii("@:;")[1] == COLON && Ascii("@:;")[2] == SEMICOLON;
    }
  }

  /** A copy that is not closed by a comma, exceeds the declared size or leaves the source. */
  lemma RefusedCopy(source: Bytes, size: Bytes, gs: seq<Segment>, done: Bytes, count: Bytes, offset: Bytes, rest: Bytes)
    requires Opens(source, size, gs, done) && InAlphabet(count) && InAlphabet(offset) && (rest == [] || !Has(rest[0]))
    ensures var r := Apply(source, Opening(size, gs) + (count + Ascii("@") + offset + rest));
      if rest != [] && rest[0] >= 128 then r == Err(InvalidByte)
      else if rest != [] && rest[0] != ',' as int then r == Err(MissingComma)
      else if |done| + Read(count) > Read(size) then r == Err(CopyExceedsLimit)
      else if Read(offset) + Read(count) > |source|
        then r == Err(CopyPastSource(Read(offset), Read(count), |source|))
      else rest == [] ==> r == Err(Unterminated)
  {
    hide InAlphabet, Has, Read, ScanInt, Opens, Apply, Opening;
    var tail := [AT] + (offset + rest);
    assert count + Ascii("@") + offset + rest == count + tail by { assert Ascii("@") == [AT]; }
    AfterOpening(source, size, gs, done, count + tail);
    NotADigit('@');
    Scans(count, tail);
    assert tail[1..] == offset + rest;
    Scans(offset, rest);
  }

  /** An insert that exceeds the declared size or the delta. */
  lemma RefusedInsert(source: Bytes, size: Bytes, gs: seq<Segment>, done: Bytes, count: Bytes, rest: Bytes)
    requires Opens(source, size, gs, done) && InAlphabet(count)
    requires |done| + Read(count) > Read(size) || Read(count) > |rest|
    ensures Apply(source, Opening(size, gs) + (count + Ascii(":") + rest)) == Err(
      if |done| + Read(count) > Read(size) then InsertExceedsLimit else InsertPastDelta)
  {
    hide InAlphabet, Has, Read, ScanInt, Opens, Apply, Opening;
    var tail := [COLON] + rest;
    assert count + Ascii(":") + rest == count + tail by { assert Ascii(":") == [COLON]; }
    AfterOpening(source, size, gs, done, count + tail);
    NotADigit(':');
    Scans(count, tail);
    assert tail[1..] == rest;
  }

  /** A trailer whose checksum, or else whose size, is not that of the bytes rebuilt. */
  lemma RefusedTrailer(source: Bytes, size: Bytes, gs: seq<Segment>, done: Bytes, checksum: Bytes, rest: Bytes)
    requires Opens(source, size, gs, done) && InAlphabet(checksum)
    requires Read(checksum) != Weighed(done) % 0x1_0000_0000 || |done| != Read(size)
    ensures Apply(source, Opening(size, gs) + (checksum + Ascii(";") + rest)) == Err(
      if Read(checksum) != Weighed(done) % 0x1_0000_0000 then BadChecksum(Read(checksum), Weighed(done) % 0x1_0000_0000)
      else SizeMismatch(Read(size), |done|))
  {
    hide InAlphabet, Has, Read, ScanInt, Opens, Apply, Opening, Weighed, Checksum;
    var tail := [SEMICOLON] + rest;
    assert checksum + Ascii(";") + rest == checksum + tail by { assert Ascii(";") == [SEMICOLON]; }
    AfterOpening(source, size, gs, done, checksum + tail);
    NotADigit(';');
    Scans(checksum, tail);
    ChecksumWeighs(done);
  }
}
