/** `src/delta.rs`: the cursor, the checksum loop, the command loop and the test encoder. */
module DeltaReaders {
  import opened Prelude
  import opened DeltaFormat
  import opened DeltaTheorems

  lemma DigitRunIs(s: Bytes, n: nat)
    requires n <= |s| && AllDigits(s[..n]) && (n < |s| ==> !IsDigit(s[n]))
    ensures DigitRun(s) == n
  {
    DigitRunShown(s[..n], s[n..]);
    assert s[..n] + s[n..] == s;
  }

  /** Shifting a wrapped u32 left by six bits and adding a digit wraps the exact value. */
  lemma ShiftIn(x: nat, digit: nat)
    requires digit < 64
    ensures ((x % TWO_32) * 64) % TWO_32 + digit == (64 * x + digit) % TWO_32
  {
    var r := x % TWO_32;
    var q, low := r * 64 / TWO_32, (r * 64) % TWO_32;
    assert low % 64 == 0;
    assert low <= TWO_32 - 64;
    ModUnique(64 * x + digit, 64 * (x / TWO_32) + q, low + digit);
  }

  lemma ValueAppend(t: Bytes, b: u8)
    requires AllDigits(t) && IsDigit(b)
    ensures AllDigits(t + [b]) && Value(t + [b]) == 64 * Value(t) + DigitValue(b)
  {}

  class DeltaReader {
    const data: Bytes
    var pos: nat

    ghost predicate Valid()
      reads this
    {
      pos <= |data|
    }

    /** The input not yet consumed. */
    ghost function Rest(): Bytes
      requires Valid()
      reads this
    {
      data[pos..]
    }

    constructor (data: Bytes)
      ensures Valid() && this.data == data && Rest() == data
    {
      this.data := data;
      pos := 0;
    }

    predicate HaveBytes()
      requires Valid()
      reads this
      ensures HaveBytes() <==> Rest() != []
    {
      pos < |data|
    }

    method GetByte() returns (r: Result<u8, DeltaError>)
      requires Valid()
      modifies this
      ensures Valid()
      ensures old(Rest()) == [] ==> r == Err(UnexpectedEnd) && Rest() == []
      ensures old(Rest()) != [] ==> r == Ok(old(Rest())[0]) && Rest() == old(Rest())[1..]
    {
      if pos >= |data| {
        return Err(UnexpectedEnd);
      }
      var b := data[pos];
      pos := pos + 1;
      return Ok(b);
    }

    method GetInt() returns (r: Result<u32, DeltaError>)
      requires Valid()
      modifies this
      ensures Valid()
      ensures r.Ok? ==> ScanInt(old(Rest())) == Ok(Scanned(r.value, Rest()))
      ensures r.Err? ==> ScanInt(old(Rest())) == Err(r.error)
    {
      ghost var start := pos;
      ghost var input := Rest();
      var v: u32 := 0;
      while HaveBytes()
        invariant start <= pos <= |data|
        invariant AllDigits(input[..pos - start]) && v == Num(input[..pos - start])
        invariant input == data[start..]
        decreases |data| - pos
      {
        ghost var n := pos - start;
        assert Rest() == input[n..];
        var byte := GetByte();
        var b := byte.value;
        assert b == input[n];
        if b >= 128 {
          DigitRunIs(input, n);
          return Err(InvalidByte);
        }
        var c := DigitValue(b);
        if c < 0 {
          pos := pos - 1;
          DigitRunIs(input, n);
          return Ok(v);
        }
        ValueAppend(input[..n], b);
        assert input[..n + 1] == input[..n] + [b];
        ShiftIn(Value(input[..n]), c);
        v := (v * 64) % TWO_32 + c;
      }
      DigitRunIs(input, |input|);
      return Ok(v);
    }
  }

  // ---------- checksum ----------

  function LaneSum(sums: seq<nat>): nat
    requires |sums| == 4
  {
    sums[0] * 0x100_0000 + sums[1] * 0x1_0000 + sums[2] * 0x100 + sums[3]
  }

  function Shl(x: u32, factor: nat): u32 { (x * factor) % TWO_32 }

  function WrappingAdd(x: u32, y: u32): u32 { (x + y) % TWO_32 }

  lemma ModMul(x: nat, k: nat)
    ensures ((x % TWO_32) * k) % TWO_32 == (x * k) % TWO_32
  {
    var q, r := x / TWO_32, x % TWO_32;
    assert x * k == TWO_32 * (q * k) + r * k;
    ModAdd(TWO_32 * (q * k), r * k);
    ModUnique(TWO_32 * (q * k), q * k, 0);
    assert (r * k) % TWO_32 % TWO_32 == (r * k) % TWO_32;
  }

  /** Adding a further term to a wrapped total wraps the exact total. */
  lemma WrapStep(total: nat, x: nat)
    ensures WrappingAdd(total % TWO_32, x % TWO_32) == (total + x) % TWO_32
  {}

  /** The four wrapped lanes, shifted and added, give the wrapped lane sum. */
  lemma CombineLanes(lanes: seq<nat>, a: u32, b: u32, c: u32, d: u32)
    requires |lanes| == 4
    requires a == lanes[0] % TWO_32 && b == lanes[1] % TWO_32 && c == lanes[2] % TWO_32 && d == lanes[3] % TWO_32
    ensures WrappingAdd(WrappingAdd(WrappingAdd(d, Shl(c, 0x100)), Shl(b, 0x1_0000)), Shl(a, 0x100_0000))
         == LaneSum(lanes) % TWO_32
  {
    ModMul(lanes[2], 0x100);
    ModMul(lanes[1], 0x1_0000);
    ModMul(lanes[0], 0x100_0000);
    WrapStep(lanes[3], lanes[2] * 0x100);
    WrapStep(lanes[3] + lanes[2] * 0x100, lanes[1] * 0x1_0000);
    WrapStep(lanes[3] + lanes[2] * 0x100 + lanes[1] * 0x1_0000, lanes[0] * 0x100_0000);
  }

  lemma WordTotalStep(d: Bytes, n: nat)
    requires n % 4 == 0 && n + 4 <= |d|
    ensures WordTotal(d[..n + 4]) == WordTotal(d[..n]) + Word(d[n..n + 4])
  {
    WordTotalConcat(d[..n], d[n..n + 4]);
    assert d[..n] + d[n..n + 4] == d[..n + 4];
  }

  /** A byte moved to its place in a word; nothing is shifted out. */
  function Placed(b: u8, factor: nat): (r: u32)
    requires factor <= 0x100_0000
    ensures r == b as int * factor
  {
    assert 0 <= b as int * factor <= 255 * 0x100_0000;
    b as int * factor
  }

  method AddTerm(sum: u32, ghost total: nat, term: u32) returns (sum': u32, ghost total': nat)
    requires sum == total % TWO_32
    ensures sum' == WrappingAdd(sum, term) && total' == total + term
    ensures sum' == total' % TWO_32
  {
    WrapStep(total, term);
    sum', total' := WrappingAdd(sum, term), total + term;
  }

  /** The trailing bytes, each shifted to its place in the last, zero-padded word. */
  method AddRemainder(sum: u32, ghost total: nat, remainder: Bytes) returns (result: u32, ghost total': nat)
    requires sum == total % TWO_32 && |remainder| < 4
    ensures result == total' % TWO_32 && total' == total + Word(remainder)
  {
    result, total' := sum, total;
    if |remainder| >= 3 {
      result, total' := AddTerm(result, total', Placed(remainder[2], 0x100));
    }
    if |remainder| >= 2 {
      result, total' := AddTerm(result, total', Placed(remainder[1], 0x1_0000));
    }
    if remainder != [] {
      result, total' := AddTerm(result, total', Placed(remainder[0], 0x100_0000));
    }
  }

  /** The lane sums are the exact lane totals, wrapped. */
  ghost predicate Wraps(sums: seq<u32>, lanes: seq<nat>) {
    |sums| == 4 && |lanes| == 4 && forall i :: 0 <= i < 4 ==> sums[i] == lanes[i] % TWO_32
  }

  /** One chunk of four bytes, one byte a lane. */
  method AddChunk(sums: array<u32>, chunk: Bytes, ghost lanes: seq<nat>) returns (ghost lanes': seq<nat>)
    requires |chunk| == 4 && sums.Length == 4 && Wraps(sums[..], lanes)
    modifies sums
    ensures Wraps(sums[..], lanes') && LaneSum(lanes') == LaneSum(lanes) + Word(chunk)
  {
    for i := 0 to 4
      invariant forall j :: i <= j < 4 ==> sums[j] == lanes[j] % TWO_32
      invariant forall j :: 0 <= j < i ==> sums[j] == (lanes[j] + chunk[j]) % TWO_32
    {
      WrapStep(lanes[i], chunk[i]);
      sums[i] := WrappingAdd(sums[i], chunk[i]);
    }
    lanes' := [lanes[0] + chunk[0], lanes[1] + chunk[1], lanes[2] + chunk[2], lanes[3] + chunk[3]];
  }

  /** The checksum with four wrapping lanes and up to three trailing bytes. */
  method ComputeChecksum(data: Bytes) returns (result: u32)
    ensures result == Checksum(data)
  {
    var sums := new u32[4](_ => 0);
    ghost var lanes: seq<nat> := [0, 0, 0, 0];
    var n := 0;
    while n + 4 <= |data|
      invariant n <= |data| && n % 4 == 0
      invariant Wraps(sums[..], lanes) && LaneSum(lanes) == WordTotal(data[..n])
    {
      WordTotalStep(data, n);
      lanes := AddChunk(sums, data[n..n + 4], lanes);
      n := n + 4;
    }
    result := CombinedLanes(sums, lanes);
    ghost var total: nat;
    result, total := AddRemainder(result, WordTotal(data[..n]), data[n..]);
    WordTotalConcat(data[..n], data[n..]);
    assert data[..n] + data[n..] == data;
  }

  method CombinedLanes(sums: array<u32>, ghost lanes: seq<nat>) returns (result: u32)
    requires sums.Length == 4 && Wraps(sums[..], lanes)
    ensures result == LaneSum(lanes) % TWO_32
  {
    CombineLanes(lanes, sums[0], sums[1], sums[2], sums[3]);
    result := WrappingAdd(
      WrappingAdd(WrappingAdd(sums[3], Shl(sums[2], 0x100)), Shl(sums[1], 0x1_0000)), Shl(sums[0], 0x100_0000));
  }

  // ---------- apply ----------

  method ApplyDelta(source: Bytes, delta: Bytes) returns (r: Result<Bytes, DeltaError>)
    ensures r == Apply(source, delta)
  {
    var reader := new DeltaReader(delta);
    var size := reader.GetInt();
    if size.Err? {
      return Err(size.error);
    }
    var limit: nat := size.value;
    var c := reader.GetByte();
    if c.Err? {
      return Err(c.error);
    }
    if c.value != NEWLINE {
      return Err(MissingNewline);
    }
    var output: Bytes := [];
    var total: nat := 0;
    ghost var whole := Commands(source, limit, reader.Rest(), output);
    while reader.HaveBytes()
      invariant reader.Valid() && fresh(reader) && reader.data == delta
      invariant total == |output|
      invariant Apply(source, delta) == whole
      invariant Commands(source, limit, reader.Rest(), output) == whole
      decreases |reader.Rest()|
    {
      var turn := OneCommand(reader, source, limit, output, total);
      match turn {
        case Stop(answer) =>
          return answer;
        case Go(output', total') =>
          output, total := output', total';
      }
    }
    return Err(Unterminated);
  }

  /** The answer, or the output and total the command loop goes on with. */
  datatype LoopTurn = Stop(answer: Result<Bytes, DeltaError>) | Go(output: Bytes, total: nat)

  /** The loop turn does what `t` says, leaving `rest` unread. */
  ghost predicate Matches(turn: LoopTurn, rest: Bytes, t: Turn) {
    match t
    case Failed(e) => turn == Stop(Err(e))
    case Finished(target) => turn == Stop(Ok(target))
    case Continued(rest', output) => turn == Go(output, |output|) && rest == rest'
  }

  /** The body of the command loop. */
  method OneCommand(reader: DeltaReader, source: Bytes, limit: nat, output: Bytes, total: nat) returns (turn: LoopTurn)
    requires reader.Valid() && reader.Rest() != [] && total == |output|
    modifies reader
    ensures reader.Valid()
    ensures Matches(turn, reader.Rest(), Command(source, limit, old(reader.Rest()), output))
  {
    var counted := reader.GetInt();
    if counted.Err? {
      return Stop(Err(counted.error));
    }
    var count: u32 := counted.value;
    var op := reader.GetByte();
    if op.Err? {
      return Stop(Err(op.error));
    }
    if op.value == AT {
      turn := CopyArm(reader, source, limit, output, total, count);
    } else if op.value == COLON {
      turn := InsertArm(reader, limit, output, total, count);
    } else if op.value == SEMICOLON {
      turn := ClosingArm(limit, output, total, count);
    } else {
      turn := Stop(Err(UnknownOperator(op.value)));
    }
  }

  method CopyArm(reader: DeltaReader, source: Bytes, limit: nat, output: Bytes, total: nat, count: u32)
    returns (turn: LoopTurn)
    requires reader.Valid() && total == |output|
    modifies reader
    ensures reader.Valid()
    ensures Matches(turn, reader.Rest(), CopyCommand(source, limit, old(reader.Rest()), output, count))
  {
    var scanned := reader.GetInt();
    if scanned.Err? {
      return Stop(Err(scanned.error));
    }
    var offset: nat := scanned.value;
    if reader.HaveBytes() {
      var c := reader.GetByte();
      if c.value != COMMA {
        return Stop(Err(MissingComma));
      }
    }
    var total' := total + count;
    if total' > limit {
      return Stop(Err(CopyExceedsLimit));
    }
    if offset + count > |source| {
      return Stop(Err(CopyPastSource(offset, count, |source|)));
    }
    return Go(output + source[offset..offset + count], total');
  }

  method InsertArm(reader: DeltaReader, limit: nat, output: Bytes, total: nat, count: u32)
    returns (turn: LoopTurn)
    requires reader.Valid() && total == |output|
    modifies reader
    ensures reader.Valid()
    ensures Matches(turn, reader.Rest(), InsertCommand(limit, old(reader.Rest()), output, count))
  {
    var total' := total + count;
    if total' > limit {
      return Stop(Err(InsertExceedsLimit));
    }
    if reader.pos + count > |reader.data| {
      return Stop(Err(InsertPastDelta));
    }
    assert reader.Rest()[..count] == reader.data[reader.pos..reader.pos + count];
    assert reader.Rest()[count..] == reader.data[reader.pos + count..];
    turn := Go(output + reader.data[reader.pos..reader.pos + count], total');
    reader.pos := reader.pos + count;
  }

  method ClosingArm(limit: nat, output: Bytes, total: nat, declared: u32) returns (turn: LoopTurn)
    requires total == |output|
    ensures Matches(turn, [], ClosingCommand(limit, output, declared))
  {
    var actual := ComputeChecksum(output);
    if declared != actual {
      return Stop(Err(BadChecksum(declared, actual)));
    }
    if total != limit {
      return Stop(Err(SizeMismatch(limit, total)));
    }
    return Stop(Ok(output));
  }

  // ---------- the test encoder ----------

  /** The digits of `v`, least significant first, as the encoder's loop pushes them. */
  function Backwards(t: Bytes): (r: Bytes)
    ensures |r| == |t| && forall i :: 0 <= i < |t| ==> r[i] == t[|t| - 1 - i]
  {
    if t == [] then [] else Backwards(t[1..]) + [t[0]]
  }

  method EncodeIntLoop(value: u32) returns (t: Bytes)
    ensures t == EncodeInt(value)
  {
    if value == 0 {
      return [Digit(0)];
    }
    var v: nat := value;
    var buf: Bytes := [];
    while v > 0
      invariant v > 0 ==> Numeral(value) == Numeral(v) + Backwards(buf)
      invariant v == 0 ==> Numeral(value) == Backwards(buf)
    {
      BackwardsAppend(buf, Digit(v % 64));
      if v >= 64 {
        assert Numeral(v) + Backwards(buf) == Numeral(v / 64) + ([Digit(v % 64)] + Backwards(buf));
      }
      buf := buf + [Digit(v % 64)];
      v := v / 64;
    }
    t := Backwards(buf);
  }

  lemma BackwardsAppend(t: Bytes, b: u8)
    ensures Backwards(t + [b]) == [b] + Backwards(t)
  {}
}
