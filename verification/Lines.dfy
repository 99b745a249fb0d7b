/** `src/codec.rs`, JSON side: newline-separated messages, and the batch writer of `transport_io.rs`. */
module Lines {
  import opened Prelude
  import opened Framing

  // ---------- joining and splitting ----------

  function Join<T>(parts: seq<seq<T>>, separator: T): seq<T> {
    if parts == [] then []
    else if |parts| == 1 then parts[0]
    else parts[0] + [separator] + Join(parts[1..], separator)
  }

  /** `text.split('\n')`: always at least one line. */
  function Split(text: string): (lines: seq<string>)
    ensures lines != []
  {
    if text == [] then [[]]
    else
      var others := Split(text[1..]);
      if text[0] == '\n' then [[]] + others else [[text[0]] + others[0]] + others[1..]
  }

  /** The Unicode White_Space property, which `str::trim` strips. */
  predicate IsSpace(c: char) {
    || '\t' <= c <= '\r'
    || c in {' ', '\U{0085}', '\U{00A0}', '\U{1680}', '\U{2028}', '\U{2029}', '\U{202F}', '\U{205F}', '\U{3000}'}
    || '\U{2000}' <= c <= '\U{200A}'
  }

  function TrimStart(s: string): string {
    if s != [] && IsSpace(s[0]) then TrimStart(s[1..]) else s
  }

  function TrimEnd(s: string): string {
    if s != [] && IsSpace(s[|s| - 1]) then TrimEnd(s[..|s| - 1]) else s
  }

  function Trim(s: string): string { TrimEnd(TrimStart(s)) }

  /** A message text the codec can carry: what the JSON serializer produces. */
  predicate IsMessage(s: string) {
    s != [] && '\n' !in s && !IsSpace(s[0]) && !IsSpace(s[|s| - 1])
  }

  // ---------- decoding ----------

  function DecodeLines<T>(lines: seq<string>, parse: string -> Option<T>): Result<seq<T>, CodecError> {
    if lines == [] then Ok([])
    else if Trim(lines[0]) == [] then DecodeLines(lines[1..], parse)
    else match parse(Trim(lines[0]))
      case None => Err(BadBody)
      case Some(reply) => Then([reply], DecodeLines(lines[1..], parse))
  }

  function DecodeText<T>(text: string, parse: string -> Option<T>): Result<seq<T>, CodecError> {
    DecodeLines(Split(text), parse)
  }

  /** `decode_replies`; `text` is None when the frame is not UTF-8. */
  method DecodeReplies<T>(text: Option<string>, parse: string -> Option<T>) returns (r: Result<seq<T>, CodecError>)
    ensures r == if text.None? then Err(NotUtf8) else DecodeText(text.value, parse)
  {
    if text.None? {
      return Err(NotUtf8);
    }
    var lines := Split(text.value);
    var replies: seq<T> := [];
    ThenNothing(DecodeLines(lines, parse));
    for i := 0 to |lines|
      invariant DecodeLines(lines, parse) == Then(replies, DecodeLines(lines[i..], parse))
    {
      assert lines[i..][1..] == lines[i + 1..];
      var line := Trim(lines[i]);
      if line != [] {
        var reply := parse(line);
        if reply.None? {
          return Err(BadBody);
        }
        ThenAssociative(replies, reply.value, DecodeLines(lines[i + 1..], parse));
        replies := replies + [reply.value];
      }
    }
    assert replies + [] == replies;
    return Ok(replies);
  }

  lemma ThenAssociative<T>(replies: seq<T>, reply: T, r: Result<seq<T>, CodecError>)
    ensures Then(replies, Then([reply], r)) == Then(replies + [reply], r)
  {
    if r.Ok? {
      assert replies + ([reply] + r.value) == replies + [reply] + r.value;
    }
  }

  // ---------- round trip and homomorphism ----------

  function ParseTexts<T>(texts: seq<string>, parse: string -> Option<T>): Option<seq<T>> {
    if texts == [] then Some([]) else
    match (parse(texts[0]), ParseTexts(texts[1..], parse))
    case (Some(reply), Some(replies)) => Some([reply] + replies)
    case _ => None
  }

  lemma {:induction false} SplitConcat(x: string, y: string)
    ensures Split(x + "\n" + y) == Split(x) + Split(y)
  {
    var all := x + "\n" + y;
    if x == [] {
      assert all[1..] == y;
    } else {
      assert all[0] == x[0] && all[1..] == x[1..] + "\n" + y;
      SplitConcat(x[1..], y);
      FirstOfConcat(Split(x[1..]), Split(y));
    }
  }

  lemma FirstOfConcat<T>(a: seq<T>, b: seq<T>)
    requires a != []
    ensures (a + b)[0] == a[0] && (a + b)[1..] == a[1..] + b
    ensures forall x :: [x] + (a[1..] + b) == ([x] + a[1..]) + b
    ensures forall x :: [x] + (a + b) == ([x] + a) + b
  {}

  lemma {:induction false} SplitOneLine(x: string)
    requires '\n' !in x
    ensures Split(x) == [x]
  {
    if x != [] {
      SplitOneLine(x[1..]);
      assert x == [x[0]] + x[1..];
    }
  }

  lemma {:induction false} DecodeLinesConcat<T>(a: seq<string>, b: seq<string>, parse: string -> Option<T>)
    ensures DecodeLines(a + b, parse)
         == match DecodeLines(a, parse)
            case Ok(replies) => Then(replies, DecodeLines(b, parse))
            case Err(e) => Err(e)
  {
    if a == [] {
      assert a + b == b;
      ThenNothing(DecodeLines(b, parse));
    } else {
      assert (a + b)[1..] == a[1..] + b;
      DecodeLinesConcat(a[1..], b, parse);
      if Trim(a[0]) != [] && parse(Trim(a[0])).Some? && DecodeLines(a[1..], parse).Ok? {
        PrependThen(parse(Trim(a[0])).value, DecodeLines(a[1..], parse).value, DecodeLines(b, parse));
      }
    }
  }

  lemma PrependThen<T>(reply: T, replies: seq<T>, r: Result<seq<T>, CodecError>)
    ensures Then([reply], Then(replies, r)) == Then([reply] + replies, r)
  {
    if r.Ok? {
      assert [reply] + (replies + r.value) == [reply] + replies + r.value;
    }
  }

  /** Frames joined by a newline decode to the concatenated replies, or to the first frame's error. */
  lemma DecodeTextConcat<T>(x: string, y: string, parse: string -> Option<T>)
    ensures DecodeText(x + "\n" + y, parse)
         == match DecodeText(x, parse)
            case Ok(replies) => Then(replies, DecodeText(y, parse))
            case Err(e) => Err(e)
  {
    SplitConcat(x, y);
    DecodeLinesConcat(Split(x), Split(y), parse);
  }

  lemma DecodeOneLine<T>(text: string, parse: string -> Option<T>)
    requires IsMessage(text) && parse(text).Some?
    ensures DecodeText(text, parse) == Ok([parse(text).value])
  {
    SplitOneLine(text);
    assert Trim(text) == text;
    assert DecodeLines([text], parse) == Then([parse(text).value], DecodeLines([text][1..], parse));
    assert [parse(text).value] + [] == [parse(text).value];
  }

  /** White space within a line: the code points of Unicode's White_Space property but for the newline. */
  predicate IsBlank(c: char) {
    c as int in {0x9, 0xB, 0xC, 0xD, 0x20, 0x85, 0xA0, 0x1680, 0x2000, 0x2001, 0x2002, 0x2003, 0x2004, 0x2005,
                 0x2006, 0x2007, 0x2008, 0x2009, 0x200A, 0x2028, 0x2029, 0x202F, 0x205F, 0x3000}
  }

  predicate AllBlank(s: string) { forall i :: 0 <= i < |s| ==> IsBlank(s[i]) }

  lemma SpaceIsBlank(c: char)
    ensures IsSpace(c) <==> IsBlank(c) || c == '\n'
  {}

  lemma {:induction false} TrimStartPadded(pad: string, s: string)
    requires AllBlank(pad) && (s == [] || !IsSpace(s[0]))
    ensures TrimStart(pad + s) == s
  {
    hide IsSpace, IsBlank;
    if pad == [] {
      assert pad + s == s;
    } else {
      SpaceIsBlank(pad[0]);
      assert (pad + s)[1..] == pad[1..] + s;
      TrimStartPadded(pad[1..], s);
    }
  }

  lemma {:induction false} TrimEndPadded(s: string, pad: string)
    requires AllBlank(pad) && (s == [] || !IsSpace(s[|s| - 1]))
    ensures TrimEnd(s + pad) == s
  {
    hide IsSpace, IsBlank;
    if pad == [] {
      assert s + pad == s;
    } else {
      var n := |pad| - 1;
      SpaceIsBlank(pad[n]);
      assert (s + pad)[|s| + n] == pad[n];
      assert (s + pad)[..|s| + n] == s + pad[..n];
      TrimEndPadded(s, pad[..n]);
    }
  }

  /** A line with a message is what the parser makes of the message, whatever white space is around it. */
  lemma PaddedLine<T>(before: string, message: string, after: string, parse: string -> Option<T>)
    requires AllBlank(before) && AllBlank(after) && IsMessage(message)
    ensures DecodeText(before + message + after, parse)
         == if parse(message).Some? then Ok([parse(message).value]) else Err(BadBody)
  {
    hide IsBlank, IsSpace, TrimStart, TrimEnd;
    var line := before + message + after;
    forall i | 0 <= i < |line|
      ensures line[i] != '\n'
    {
      NewlineNotBlank(line[i]);
      if i < |before| {
        assert IsBlank(line[i]);
      } else if i >= |before| + |message| {
        assert line[i] == after[i - |before| - |message|];
      } else {
        assert line[i] == message[i - |before|];
      }
    }
    SplitOneLine(line);
    assert line == before + (message + after) && (message + after)[0] == message[0];
    TrimStartPadded(before, message + after);
    TrimEndPadded(message, after);
    assert DecodeLines([line][1..], parse) == Ok([]);
    if parse(message).Some? { assert [parse(message).value] + [] == [parse(message).value]; }
  }

  lemma NewlineNotBlank(c: char)
    ensures IsBlank(c) ==> c != '\n'
  {}

  /** A blank line is no message. */
  lemma BlankLine<T>(pad: string, parse: string -> Option<T>)
    requires AllBlank(pad)
    ensures DecodeText(pad, parse) == Ok([])
  {
    hide IsBlank, TrimStart, TrimEnd;
    forall i | 0 <= i < |pad|
      ensures pad[i] != '\n'
    {
      NewlineNotBlank(pad[i]);
    }
    SplitOneLine(pad);
    TrimStartPadded(pad, "");
    TrimEndPadded("", "");
    assert pad + "" == pad && "" + "" == "";
    assert DecodeLines([pad][1..], parse) == Ok([]);
  }

  /** Joined messages decode to exactly those messages. */
  lemma {:induction false} LinesRoundTrip<T>(texts: seq<string>, parse: string -> Option<T>)
    requires forall i :: 0 <= i < |texts| ==> IsMessage(texts[i])
    requires ParseTexts(texts, parse).Some?
    ensures DecodeText(Join(texts, '\n'), parse) == Ok(ParseTexts(texts, parse).value)
  {
    if texts == [] {
      assert Split([]) == [[]];
    } else {
      DecodeOneLine(texts[0], parse);
      if |texts| == 1 {
        assert texts[1..] == [];
        assert [parse(texts[0]).value] + [] == [parse(texts[0]).value];
      } else {
        LinesRoundTrip(texts[1..], parse);
        DecodeTextConcat(texts[0], Join(texts[1..], '\n'), parse);
      }
    }
  }

  // ---------- encoding and batching ----------

  datatype ProtocolType = Json | Protobuf

  /** `serialize` on every command; one failure fails the whole call. */
  function SerializeAll<C>(commands: seq<C>, serialize: C -> Option<Bytes>): Option<seq<Bytes>> {
    if commands == [] then Some([]) else
    match (serialize(commands[0]), SerializeAll(commands[1..], serialize))
    case (Some(text), Some(texts)) => Some([text] + texts)
    case _ => None
  }

  /** `encode_commands` of either codec. */
  function Encode<C>(protocol: ProtocolType, commands: seq<C>, serialize: C -> Option<Bytes>): Option<Bytes> {
    match SerializeAll(commands, serialize)
    case None => None
    case Some(texts) => Some(if protocol.Json? then Join(texts, NEWLINE) else EncodeFrames(texts))
  }

  /** `encode_commands` of the JSON codec: serialize one by one, then join. */
  method EncodeTexts<C>(commands: seq<C>, serialize: C -> Option<Bytes>) returns (r: Option<Bytes>)
    ensures r == Encode(Json, commands, serialize)
  {
    var parts: seq<Bytes> := [];
    PrefixedNothing(SerializeAll(commands, serialize));
    for i := 0 to |commands|
      invariant SerializeAll(commands, serialize) == Prefixed(parts, SerializeAll(commands[i..], serialize))
    {
      assert commands[i..][1..] == commands[i + 1..];
      var text := serialize(commands[i]);
      if text.None? {
        return None;
      }
      PrefixedStep(parts, text.value, SerializeAll(commands[i + 1..], serialize));
      parts := parts + [text.value];
    }
    assert parts + [] == parts;
    return Some(Join(parts, NEWLINE));
  }

  function Prefixed(parts: seq<Bytes>, others: Option<seq<Bytes>>): Option<seq<Bytes>> {
    if others.None? then None else Some(parts + others.value)
  }

  lemma PrefixedNothing(others: Option<seq<Bytes>>)
    ensures Prefixed([], others) == others
  {
    if others.Some? {
      assert [] + others.value == others.value;
    }
  }

  lemma PrefixedStep(parts: seq<Bytes>, text: Bytes, others: Option<seq<Bytes>>)
    ensures Prefixed(parts, Prefixed([text], others)) == Prefixed(parts + [text], others)
  {
    if others.Some? {
      assert parts + ([text] + others.value) == parts + [text] + others.value;
    }
  }

  function Flatten(parts: seq<Bytes>): Bytes {
    if parts == [] then [] else parts[0] + Flatten(parts[1..])
  }

  /** The queue that `send_command` builds: every command encoded on its own. */
  ghost predicate IsQueueOf<C>(
      protocol: ProtocolType, queue: seq<Bytes>, commands: seq<C>, serialize: C -> Option<Bytes>) {
    && |queue| == |commands|
    && forall i :: 0 <= i < |queue| ==> Encode(protocol, [commands[i]], serialize) == Some(queue[i])
  }

  /** The single frame `flush_batch` writes. */
  function FlushFrame(protocol: ProtocolType, queue: seq<Bytes>): Bytes {
    if protocol.Json? then Join(queue, NEWLINE) else Flatten(queue)
  }

  lemma EncodeOne<C>(protocol: ProtocolType, command: C, serialize: C -> Option<Bytes>)
    ensures Encode(protocol, [command], serialize)
         == match serialize(command)
            case None => None
            case Some(text) => Some(if protocol.Json? then text else Frame(text))
  {
    assert [command][1..] == [];
    if serialize(command).Some? {
      var texts := [serialize(command).value];
      assert SerializeAll([command], serialize) == Some(texts + []);
      assert texts + [] == texts && texts[1..] == [];
      assert EncodeFrames(texts) == Frame(texts[0]) + EncodeFrames([]);
      assert Frame(texts[0]) + [] == Frame(texts[0]);
    }
  }

  lemma {:induction false} QueueTexts<C>(protocol: ProtocolType, queue: seq<Bytes>, commands: seq<C>,
                                         serialize: C -> Option<Bytes>)
    requires IsQueueOf(protocol, queue, commands, serialize)
    ensures SerializeAll(commands, serialize).Some?
    ensures protocol.Json? ==> SerializeAll(commands, serialize).value == queue
    ensures protocol.Protobuf? ==> EncodeFrames(SerializeAll(commands, serialize).value) == Flatten(queue)
  {
    if commands != [] {
      EncodeOne(protocol, commands[0], serialize);
      QueueTexts(protocol, queue[1..], commands[1..], serialize);
      assert queue == [queue[0]] + queue[1..];
    }
  }

  /** Batching refines encoding the whole list at once: the flushed frame is byte-equal to it. */
  lemma FlushEqualsEncode<C>(protocol: ProtocolType, queue: seq<Bytes>, commands: seq<C>, serialize: C -> Option<Bytes>)
    requires IsQueueOf(protocol, queue, commands, serialize)
    ensures Encode(protocol, commands, serialize) == Some(FlushFrame(protocol, queue))
  {
    QueueTexts(protocol, queue, commands, serialize);
  }
}
