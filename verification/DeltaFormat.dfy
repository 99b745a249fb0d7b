/**
 The Fossil delta format: numerals, checksum, edit scripts, and the interpreter as a
 function. `DeltaReader.dfy` holds the source's cursor-based code, proved equal to it.
 */
module DeltaFormat {
  import opened Prelude

  // ---------- numerals ----------

  const COMMA: u8 := 44
  const COLON: u8 := 58
  const SEMICOLON: u8 := 59
  const AT: u8 := 64

  /** The `Z_VALUE` table, for bytes below 128 and beyond. */
  function DigitValue(b: u8): (v: int)
    ensures -1 <= v < 64
  {
    if 48 <= b <= 57 then b - 48
    else if 65 <= b <= 90 then b - 55
    else if b == 95 then 36
    else if 97 <= b <= 122 then b - 60
    else if b == 126 then 63
    else -1
  }

  /** The `DIGITS` string of the test encoder. */
  function Digit(v: int): (b: u8)
    requires 0 <= v < 64
    ensures DigitValue(b) == v
  {
    if v < 10 then 48 + v
    else if v < 36 then 55 + v
    else if v == 36 then 95
    else if v < 63 then 60 + v
    else 126
  }

  predicate IsDigit(b: u8) { DigitValue(b) >= 0 }

  predicate AllDigits(t: Bytes) { forall i :: 0 <= i < |t| ==> IsDigit(t[i]) }

  /** The exact base-64 value of a digit string, most significant digit first. */
  function Value(t: Bytes): (v: nat)
    requires AllDigits(t)
  {
    if t == [] then 0 else 64 * Value(t[..|t| - 1]) + DigitValue(t[|t| - 1])
  }

  /** What a digit string means to the reader: its value in a wrapping u32. */
  function Num(t: Bytes): u32
    requires AllDigits(t)
  {
    Value(t) % TWO_32
  }

  /** The length of the longest digit prefix. */
  function DigitRun(s: Bytes): (n: nat)
    ensures n <= |s| && AllDigits(s[..n])
    ensures n < |s| ==> !IsDigit(s[n])
  {
    if s == [] || !IsDigit(s[0]) then 0
    else
      var m := DigitRun(s[1..]);
      assert s[..m + 1] == [s[0]] + s[1..][..m];
      m + 1
  }

  function Numeral(v: nat): (t: Bytes)
    requires v > 0
    ensures AllDigits(t) && |t| > 0
  {
    if v < 64 then [Digit(v)] else Numeral(v / 64) + [Digit(v % 64)]
  }

  function EncodeInt(v: u32): (t: Bytes)
    ensures AllDigits(t) && |t| > 0
  {
    if v == 0 then [Digit(0)] else Numeral(v)
  }

  lemma {:induction false} NumeralValue(v: nat)
    requires v > 0
    ensures Value(Numeral(v)) == v
  {
    if v >= 64 {
      NumeralValue(v / 64);
      assert Numeral(v)[..|Numeral(v)| - 1] == Numeral(v / 64);
    }
  }

  // ---------- checksum ----------

  /** Byte `i` of the zero-padded `d`. */
  function PaddedAt(d: Bytes, i: nat): nat { if i < |d| then d[i] else 0 }

  /** The big-endian word at the front of the zero-padded `d`. */
  function Word(d: Bytes): nat {
    PaddedAt(d, 0) * 0x100_0000 + PaddedAt(d, 1) * 0x1_0000 + PaddedAt(d, 2) * 0x100 + PaddedAt(d, 3)
  }

  function WordTotal(d: Bytes): nat {
    if |d| <= 4 then Word(d) else Word(d[..4]) + WordTotal(d[4..])
  }

  /** The Fossil checksum: the sum of the words modulo 2^32. */
  function Checksum(d: Bytes): u32 { WordTotal(d) % TWO_32 }

  lemma {:induction false} WordTotalConcat(a: Bytes, b: Bytes)
    requires |a| % 4 == 0
    ensures WordTotal(a + b) == WordTotal(a) + WordTotal(b)
  {
    if |a| == 0 {
      assert a + b == b;
    } else if |a| == 4 {
      assert (a + b)[..4] == a && (a + b)[4..] == b;
      if b == [] { assert a + b == a; }
    } else {
      WordTotalConcat(a[4..], b);
      assert (a + b)[..4] == a[..4] && (a + b)[4..] == a[4..] + b;
    }
  }

  /** The checksum is a homomorphism on word-aligned prefixes. */
  lemma ChecksumConcat(a: Bytes, b: Bytes)
    requires |a| % 4 == 0
    ensures Checksum(a + b) == (Checksum(a) + Checksum(b)) % TWO_32
  {
    WordTotalConcat(a, b);
    ModAdd(WordTotal(a), WordTotal(b));
  }

  lemma ModAdd(x: int, y: int)
    ensures (x + y) % TWO_32 == (x % TWO_32 + y % TWO_32) % TWO_32
  {}

  lemma ModUnique(x: int, q: int, r: int)
    requires x == TWO_32 * q + r && 0 <= r < TWO_32
    ensures x % TWO_32 == r
  {}

  // ---------- edit scripts ----------

  datatype Edit = Copy(offset: nat, count: nat) | Insert(literal: Bytes)

  predicate InSource(source: Bytes, e: Edit) {
    e.Copy? ==> e.offset + e.count <= |source|
  }

  predicate AllInSource(source: Bytes, script: seq<Edit>) {
    forall i :: 0 <= i < |script| ==> InSource(source, script[i])
  }

  function Piece(source: Bytes, e: Edit): Bytes
    requires InSource(source, e)
  {
    match e
    case Copy(offset, count) => source[offset..offset + count]
    case Insert(literal) => literal
  }

  /** The bytes an edit script stands for. */
  function Target(source: Bytes, script: seq<Edit>): Bytes
    requires AllInSource(source, script)
  {
    if script == [] then [] else Piece(source, script[0]) + Target(source, script[1..])
  }

  // ---------- concrete syntax ----------

  /** A command as written: its digit strings and its literal. */
  datatype Segment =
    | CopySegment(count: Bytes, offset: Bytes)
    | InsertSegment(count: Bytes, literal: Bytes)

  /** A whole delta as written: size, commands, checksum. */
  datatype Document = Document(size: Bytes, segments: seq<Segment>, checksum: Bytes)

  predicate WellFormedSegment(g: Segment) {
    AllDigits(g.count) &&
    match g
    case CopySegment(_, offset) => AllDigits(offset)
    case InsertSegment(count, literal) => Num(count) == |literal|
  }

  predicate WellFormedSegments(gs: seq<Segment>) {
    forall i :: 0 <= i < |gs| ==> WellFormedSegment(gs[i])
  }

  predicate WellFormed(doc: Document) {
    AllDigits(doc.size) && AllDigits(doc.checksum) && WellFormedSegments(doc.segments)
  }

  function ShowSegment(g: Segment): Bytes {
    match g
    case CopySegment(count, offset) => count + [AT] + offset + [COMMA]
    case InsertSegment(count, literal) => count + [COLON] + literal
  }

  function ShowSegments(gs: seq<Segment>): Bytes {
    if gs == [] then [] else ShowSegment(gs[0]) + ShowSegments(gs[1..])
  }

  function Show(doc: Document): Bytes {
    doc.size + [NEWLINE] + (ShowSegments(doc.segments) + (doc.checksum + [SEMICOLON]))
  }

  function EditOf(g: Segment): Edit
    requires WellFormedSegment(g)
  {
    match g
    case CopySegment(count, offset) => Copy(Num(offset), Num(count))
    case InsertSegment(_, literal) => Insert(literal)
  }

  function Edits(gs: seq<Segment>): (es: seq<Edit>)
    requires WellFormedSegments(gs)
    ensures |es| == |gs| && forall i :: 0 <= i < |gs| ==> es[i] == EditOf(gs[i])
  {
    if gs == [] then [] else [EditOf(gs[0])] + Edits(gs[1..])
  }

  /** The document is a correct delta for `source`. */
  predicate Describes(source: Bytes, doc: Document, target: Bytes) {
    && WellFormed(doc)
    && AllInSource(source, Edits(doc.segments))
    && target == Target(source, Edits(doc.segments))
    && |target| == Num(doc.size)
    && Checksum(target) == Num(doc.checksum)
  }

  // ---------- the interpreter ----------

  datatype DeltaError =
    | UnexpectedEnd
    | InvalidByte
    | MissingNewline
    | MissingComma
    | CopyPastSource(offset: nat, count: nat, sourceLen: nat)
    | CopyExceedsLimit
    | InsertExceedsLimit
    | InsertPastDelta
    | BadChecksum(declared: u32, actual: u32)
    | SizeMismatch(declaredSize: nat, actualSize: nat)
    | UnknownOperator(op: u8)
    | Unterminated

  datatype Scanned = Scanned(num: u32, rest: Bytes)

  /** `get_int`: the maximal digit run, failing when a byte above 127 ends it. */
  function ScanInt(s: Bytes): (r: Result<Scanned, DeltaError>)
    ensures r.Ok? ==> |r.value.rest| <= |s|
  {
    var n := DigitRun(s);
    if n < |s| && s[n] >= 128 then Err(InvalidByte) else Ok(Scanned(Num(s[..n]), s[n..]))
  }

  /** What one turn of the command loop leads to. */
  datatype Turn = Failed(error: DeltaError) | Finished(target: Bytes) | Continued(rest: Bytes, output: Bytes)

  /** One command: the count, the operator and its operand. */
  function Command(source: Bytes, limit: nat, s: Bytes, output: Bytes): (t: Turn)
    requires s != []
    ensures t.Continued? ==> |t.rest| < |s|
  {
    match ScanInt(s)
    case Err(e) => Failed(e)
    case Ok(Scanned(count, s1)) =>
      if s1 == [] then Failed(UnexpectedEnd)
      else if s1[0] == AT then CopyCommand(source, limit, s1[1..], output, count)
      else if s1[0] == COLON then InsertCommand(limit, s1[1..], output, count)
      else if s1[0] == SEMICOLON then ClosingCommand(limit, output, count)
      else Failed(UnknownOperator(s1[0]))
  }

  function CopyCommand(source: Bytes, limit: nat, s: Bytes, output: Bytes, count: u32): (t: Turn)
    ensures t.Continued? ==> |t.rest| <= |s|
  {
    match ScanInt(s)
    case Err(e) => Failed(e)
    case Ok(Scanned(offset, s1)) =>
      if s1 != [] && s1[0] != COMMA then Failed(MissingComma)
      else if |output| + count > limit then Failed(CopyExceedsLimit)
      else if offset + count > |source| then Failed(CopyPastSource(offset, count, |source|))
      else Continued(if s1 == [] then [] else s1[1..], output + source[offset..offset + count])
  }

  function InsertCommand(limit: nat, s: Bytes, output: Bytes, count: u32): Turn {
    if |output| + count > limit then Failed(InsertExceedsLimit)
    else if count > |s| then Failed(InsertPastDelta)
    else Continued(s[count..], output + s[..count])
  }

  function ClosingCommand(limit: nat, output: Bytes, declared: u32): Turn {
    if declared != Checksum(output) then Failed(BadChecksum(declared, Checksum(output)))
    else if |output| != limit then Failed(SizeMismatch(limit, |output|))
    else Finished(output)
  }

  /** The command loop. */
  function Commands(source: Bytes, limit: nat, s: Bytes, output: Bytes): Result<Bytes, DeltaError>
    decreases |s|
  {
    if s == [] then Err(Unterminated) else
    match Command(source, limit, s, output)
    case Failed(e) => Err(e)
    case Finished(target) => Ok(target)
    case Continued(rest, output') => Commands(source, limit, rest, output')
  }

  function Apply(source: Bytes, delta: Bytes): Result<Bytes, DeltaError> {
    match ScanInt(delta)
    case Err(e) => Err(e)
    case Ok(Scanned(limit, s)) =>
      if s == [] then Err(UnexpectedEnd)
      else if s[0] != NEWLINE then Err(MissingNewline)
      else Commands(source, limit, s[1..], [])
  }
}
