/** `src/codec.rs`, protobuf side: varint-delimited frames around opaque message bodies. */
module Framing {
  import opened Prelude

  datatype CodecError = BadVarint | FrameExceedsData | BadBody | NotUtf8

  // ---------- varints (Protocol Buffers Encoding, section "Base 128 Varints") ----------

  function EncodeVarint(v: nat): (s: Bytes)
    ensures s != []
  {
    if v < 128 then [v] else [128 + v % 128] + EncodeVarint(v / 128)
  }

  datatype Varint = Varint(value: nat, rest: Bytes)

  /** What the bytes from the `i`-th of at most ten may still contribute to a u64. */
  function Room(i: nat): nat
    requires i <= 9
    decreases 9 - i
  {
    if i == 9 then 2 else 128 * Room(i + 1)
  }

  function ReadVarint(s: Bytes, i: nat): (r: Option<Varint>)
    requires i <= 9
    ensures r.Some? ==> |r.value.rest| < |s| && r.value.value < Room(i)
    decreases 9 - i
  {
    if s == [] then None
    else if s[0] < 128 then if s[0] < Room(i) then Some(Varint(s[0], s[1..])) else None
    else if i == 9 then None
    else match ReadVarint(s[1..], i + 1)
      case None => None
      case Some(v) => Some(Varint(s[0] - 128 + 128 * v.value, v.rest))
  }

  function DecodeVarint(s: Bytes): (r: Option<Varint>)
    ensures r.Some? ==> |r.value.rest| < |s|
  {
    ReadVarint(s, 0)
  }

  lemma {:induction false} ReadEncoded(v: nat, s: Bytes, i: nat)
    requires i <= 9 && v < Room(i)
    ensures ReadVarint(EncodeVarint(v) + s, i) == Some(Varint(v, s))
    decreases 9 - i
  {
    hide Room;
    var text := EncodeVarint(v) + s;
    if v < 128 {
      assert text[0] == v && text[1..] == s;
    } else {
      RoomShrinks(v, i);
      ReadEncoded(v / 128, s, i + 1);
      assert text[0] == 128 + v % 128 && text[1..] == EncodeVarint(v / 128) + s;
    }
  }

  /** Seven bits less, one byte less room. */
  lemma RoomShrinks(v: nat, i: nat)
    requires i <= 9 && 128 <= v < Room(i)
    ensures i < 9 && v / 128 < Room(i + 1)
  {}

  lemma RoomIs64Bits()
    ensures Room(0) == TWO_64
  {}

  /** Varints round-trip on every u64, whatever follows. */
  lemma VarintRoundTrip(v: u64, s: Bytes)
    ensures DecodeVarint(EncodeVarint(v) + s) == Some(Varint(v, s))
  {
    RoomIs64Bits();
    ReadEncoded(v, s, 0);
  }

  lemma {:induction false} ReadLocal(s: Bytes, more: Bytes, i: nat)
    requires i <= 9 && ReadVarint(s, i).Some?
    ensures ReadVarint(s + more, i)
         == Some(Varint(ReadVarint(s, i).value.value, ReadVarint(s, i).value.rest + more))
    decreases 9 - i
  {
    assert (s + more)[1..] == s[1..] + more;
    if s[0] >= 128 {
      ReadLocal(s[1..], more, i + 1);
    }
  }

  // ---------- what a varint is ----------

  /** Every byte but the last has its high bit set. */
  predicate Continues(t: Bytes) {
    t != [] && t[|t| - 1] < 0x80 && forall i :: 0 <= i < |t| - 1 ==> t[i] >= 0x80
  }

  /** The number in the low seven bits of each byte, least significant group first. */
  function Groups(t: Bytes): nat { if t == [] then 0 else t[0] % 0x80 + 0x80 * Groups(t[1..]) }

  /** The bytes end where the varint with value `v` at the front of `s` does. */
  ghost predicate Starts(s: Bytes, t: Bytes, v: nat, rest: Bytes) {
    s == t + rest && Continues(t) && v == Groups(t)
  }

  lemma ContinuesNonEmpty(t: Bytes)
    requires Continues(t)
    ensures t != []
  {}

  lemma ContinuesBy(t: Bytes)
    requires t != []
    ensures Continues(t) <==> if |t| == 1 then t[0] < 0x80 else t[0] >= 0x80 && Continues(t[1..])
    ensures Groups(t) == t[0] % 0x80 + 0x80 * Groups(t[1..])
    ensures |t| == 1 ==> Groups(t[1..]) == 0
  {
    if |t| > 1 && Continues(t[1..]) && t[0] >= 0x80 {
      assert forall i :: 0 < i < |t| ==> t[i] == t[1..][i - 1];
    }
  }

  lemma {:induction false} ReadFinds(s: Bytes, i: nat) returns (t: Bytes)
    requires i <= 9 && ReadVarint(s, i).Some?
    ensures |t| <= 10 - i && Starts(s, t, ReadVarint(s, i).value.value, ReadVarint(s, i).value.rest)
    decreases 9 - i
  {
    hide Continues, Groups, Room;
    if s[0] < 0x80 {
      t := [s[0]];
      ContinuesBy(t);
    } else {
      var tail := ReadFinds(s[1..], i + 1);
      t := [s[0]] + tail;
      assert t[1..] == tail && s == t + ReadVarint(s, i).value.rest;
      assert tail != [] by { ContinuesNonEmpty(tail); }
      ContinuesBy(t);
    }
  }

  lemma {:induction false} ReadAccepts(s: Bytes, i: nat, t: Bytes, v: nat, rest: Bytes)
    requires i <= 9 && |t| <= 10 - i && Starts(s, t, v, rest) && v < Room(i)
    ensures ReadVarint(s, i) == Some(Varint(v, rest))
    decreases |t|
  {
    assert s[0] == t[0] && s[1..] == t[1..] + rest;
    ContinuesBy(t);
    if |t| > 1 {
      assert i < 9 && Room(i) == 0x80 * Room(i + 1);
      ReadAccepts(s[1..], i + 1, t[1..], Groups(t[1..]), rest);
    }
  }

  /**
   A varint is read exactly where there is one: at most ten bytes, all but the last with their high bit
   set, that stand for a u64.
   */
  lemma VarintExact(s: Bytes, v: nat, rest: Bytes)
    ensures DecodeVarint(s) == Some(Varint(v, rest))
       <==> v < 0x1_0000_0000_0000_0000 && exists t :: |t| <= 10 && Starts(s, t, v, rest)
  {
    hide ReadVarint, Starts;
    RoomIs64Bits();
    if DecodeVarint(s) == Some(Varint(v, rest)) {
      var t := ReadFinds(s, 0);
    }
    if v < TWO_64 && exists t :: |t| <= 10 && Starts(s, t, v, rest) {
      var t :| |t| <= 10 && Starts(s, t, v, rest);
      ReadAccepts(s, 0, t, v, rest);
    }
  }

  /** Written in the same form, and with no empty group at the end. */
  lemma {:induction false} EncodeVarintExact(v: nat)
    ensures var t := EncodeVarint(v);
      Continues(t) && Groups(t) == v && (|t| > 1 ==> t[|t| - 1] > 0)
  {
    if v >= 128 { EncodeVarintExact(v / 128); }
  }

  // ---------- frames ----------

  function Frame(body: Bytes): Bytes { EncodeVarint(|body|) + body }

  /** `encode_commands` on already serialized messages. */
  function EncodeFrames(bodies: seq<Bytes>): Bytes {
    if bodies == [] then [] else Frame(bodies[0]) + EncodeFrames(bodies[1..])
  }

  /** The first frame of a non-empty buffer. */
  function FirstFrame(data: Bytes): (r: Result<(Bytes, Bytes), CodecError>)
    ensures r.Ok? ==> |r.value.1| < |data|
  {
    match DecodeVarint(data)
    case None => Err(BadVarint)
    case Some(Varint(len, rest)) =>
      if len > |rest| then Err(FrameExceedsData) else Ok((rest[..len], rest[len..]))
  }

  /** `decode_replies` with the message parser `parse`. */
  function Decode<T>(data: Bytes, parse: Bytes -> Option<T>): Result<seq<T>, CodecError>
    decreases |data|
  {
    if data == [] then Ok([]) else
    match FirstFrame(data)
    case Err(e) => Err(e)
    case Ok((body, rest)) =>
      match parse(body)
      case None => Err(BadBody)
      case Some(reply) => Then([reply], Decode(rest, parse))
  }

  /** Success appends; an error leaves nothing of what came before. */
  function Then<T>(replies: seq<T>, r: Result<seq<T>, CodecError>): Result<seq<T>, CodecError> {
    match r
    case Ok(more) => Ok(replies + more)
    case Err(e) => Err(e)
  }

  function ParseAll<T>(bodies: seq<Bytes>, parse: Bytes -> Option<T>): Option<seq<T>> {
    if bodies == [] then Some([]) else
    match (parse(bodies[0]), ParseAll(bodies[1..], parse))
    case (Some(reply), Some(replies)) => Some([reply] + replies)
    case _ => None
  }

  lemma FirstFrameShown(body: Bytes, s: Bytes)
    requires |body| < TWO_64
    ensures Frame(body) + s != [] && FirstFrame(Frame(body) + s) == Ok((body, s))
  {
    assert Frame(body) + s == EncodeVarint(|body|) + (body + s);
    VarintRoundTrip(|body|, body + s);
    assert (body + s)[..|body|] == body && (body + s)[|body|..] == s;
  }

  lemma FirstFrameLocal(data: Bytes, more: Bytes)
    requires data != [] && FirstFrame(data).Ok?
    ensures FirstFrame(data + more) == Ok((FirstFrame(data).value.0, FirstFrame(data).value.1 + more))
  {
    ReadLocal(data, more, 0);
    var v := DecodeVarint(data).value;
    assert (v.rest + more)[..v.value] == v.rest[..v.value];
    assert (v.rest + more)[v.value..] == v.rest[v.value..] + more;
  }

  /** Splitting a concatenation of frames yields exactly those frames. */
  lemma {:induction false} FramesRoundTrip<T>(bodies: seq<Bytes>, parse: Bytes -> Option<T>)
    requires forall i :: 0 <= i < |bodies| ==> |bodies[i]| < TWO_64
    requires ParseAll(bodies, parse).Some?
    ensures Decode(EncodeFrames(bodies), parse) == Ok(ParseAll(bodies, parse).value)
  {
    if bodies != [] {
      FirstFrameShown(bodies[0], EncodeFrames(bodies[1..]));
      FramesRoundTrip(bodies[1..], parse);
    }
  }

  /** After a decodable buffer, decoding goes on with the rest: a homomorphism, errors included. */
  lemma {:induction false} DecodeConcat<T>(x: Bytes, y: Bytes, parse: Bytes -> Option<T>)
    requires Decode(x, parse).Ok?
    ensures Decode(x + y, parse) == Then(Decode(x, parse).value, Decode(y, parse))
    decreases |x|
  {
    if x == [] {
      assert x + y == y;
      if Decode(y, parse).Ok? {
        assert [] + Decode(y, parse).value == Decode(y, parse).value;
      }
    } else {
      FirstFrameLocal(x, y);
      var rest := FirstFrame(x).value.1;
      var reply := parse(FirstFrame(x).value.0).value;
      DecodeConcat(rest, y, parse);
      if Decode(y, parse).Ok? {
        var xs, ys := Decode(rest, parse).value, Decode(y, parse).value;
        assert [reply] + (xs + ys) == ([reply] + xs) + ys;
      }
    }
  }

  /** A bad tail makes the whole buffer bad, so none of the good frames before it is dispatched. */
  lemma BadTailRejectsAll<T>(bodies: seq<Bytes>, bad: Bytes, parse: Bytes -> Option<T>)
    requires forall i :: 0 <= i < |bodies| ==> |bodies[i]| < TWO_64
    requires ParseAll(bodies, parse).Some? && Decode(bad, parse).Err?
    ensures Decode(EncodeFrames(bodies) + bad, parse) == Decode(bad, parse)
  {
    FramesRoundTrip(bodies, parse);
    DecodeConcat(EncodeFrames(bodies), bad, parse);
  }

  /** A buffer that does not start with the length of a frame. */
  lemma BadLength<T>(data: Bytes, parse: Bytes -> Option<T>)
    requires data != []
    requires forall v: nat, t, rest :: v < 0x1_0000_0000_0000_0000 && |t| <= 10 ==> !Starts(data, t, v, rest)
    ensures Decode(data, parse) == Err(BadVarint)
  {
    hide Starts, DecodeVarint;
    if DecodeVarint(data).Some? {
      var n := DecodeVarint(data).value;
      VarintExact(data, n.value, n.rest);
    }
  }

  /** A first frame that is longer than what is left, or that does not parse. */
  lemma BadFrame<T>(data: Bytes, length: Bytes, v: u64, rest: Bytes, parse: Bytes -> Option<T>)
    requires |length| <= 10 && Starts(data, length, v, rest)
    ensures v > |rest| ==> Decode(data, parse) == Err(FrameExceedsData)
    ensures v <= |rest| && parse(rest[..v]).None? ==> Decode(data, parse) == Err(BadBody)
  {
    hide DecodeVarint;
    VarintExact(data, v, rest);
  }

  // ---------- what exactly decodes ----------

  /** Frames whose length prefixes are the varint texts `prefixes`. */
  function Interleave(prefixes: seq<Bytes>, bodies: seq<Bytes>): Bytes
    requires |prefixes| == |bodies|
  {
    if bodies == [] then [] else prefixes[0] + bodies[0] + Interleave(prefixes[1..], bodies[1..])
  }

  ghost predicate Announces(prefixes: seq<Bytes>, bodies: seq<Bytes>) {
    && |prefixes| == |bodies|
    && forall i :: 0 <= i < |bodies| ==> DecodeVarint(prefixes[i]) == Some(Varint(|bodies[i]|, []))
  }

  ghost predicate IsFraming<T>(data: Bytes, replies: seq<T>, parse: Bytes -> Option<T>) {
    exists prefixes, bodies ::
      Announces(prefixes, bodies) && data == Interleave(prefixes, bodies) && ParseAll(bodies, parse) == Some(replies)
  }

  lemma {:induction false} ReadSplit(s: Bytes, i: nat) returns (prefix: Bytes)
    requires i <= 9 && ReadVarint(s, i).Some?
    ensures s == prefix + ReadVarint(s, i).value.rest
    ensures ReadVarint(prefix, i) == Some(Varint(ReadVarint(s, i).value.value, []))
    decreases 9 - i
  {
    if s[0] < 128 {
      prefix := [s[0]];
      assert s == prefix + s[1..];
    } else {
      var tail := ReadSplit(s[1..], i + 1);
      prefix := [s[0]] + tail;
      assert prefix[1..] == tail;
      assert s == [s[0]] + s[1..];
    }
  }

  lemma {:induction false} DecodeSound<T>(data: Bytes, parse: Bytes -> Option<T>)
    returns (prefixes: seq<Bytes>, bodies: seq<Bytes>)
    requires Decode(data, parse).Ok?
    ensures Announces(prefixes, bodies) && data == Interleave(prefixes, bodies)
    ensures ParseAll(bodies, parse) == Some(Decode(data, parse).value)
    decreases |data|
  {
    if data == [] {
      return [], [];
    }
    var (body, rest) := FirstFrame(data).value;
    var prefix := FirstFrameSound(data);
    var ps, bs := DecodeSound(rest, parse);
    prefixes, bodies := [prefix] + ps, [body] + bs;
    assert prefixes[1..] == ps && bodies[1..] == bs;
  }

  lemma FirstFrameSound(data: Bytes) returns (prefix: Bytes)
    requires FirstFrame(data).Ok?
    ensures data == prefix + FirstFrame(data).value.0 + FirstFrame(data).value.1
    ensures DecodeVarint(prefix) == Some(Varint(|FirstFrame(data).value.0|, []))
  {
    prefix := ReadSplit(data, 0);
    Regroup(prefix, DecodeVarint(data).value.rest, DecodeVarint(data).value.value);
  }

  lemma Regroup(prefix: Bytes, s: Bytes, n: nat)
    requires n <= |s|
    ensures prefix + s == prefix + s[..n] + s[n..]
  {}

  lemma {:induction false} DecodeComplete<T>(prefixes: seq<Bytes>, bodies: seq<Bytes>, parse: Bytes -> Option<T>)
    requires Announces(prefixes, bodies) && ParseAll(bodies, parse).Some?
    ensures Decode(Interleave(prefixes, bodies), parse) == Ok(ParseAll(bodies, parse).value)
  {
    if bodies != [] {
      var s := Interleave(prefixes[1..], bodies[1..]);
      var data := prefixes[0] + bodies[0] + s;
      assert data == prefixes[0] + (bodies[0] + s);
      ReadLocal(prefixes[0], bodies[0] + s, 0);
      assert [] + (bodies[0] + s) == bodies[0] + s;
      assert (bodies[0] + s)[..|bodies[0]|] == bodies[0] && (bodies[0] + s)[|bodies[0]|..] == s;
      DecodeComplete(prefixes[1..], bodies[1..], parse);
    }
  }

  /** A buffer decodes to `replies` exactly when it is a sequence of announced bodies that parse to them. */
  lemma DecodeExact<T(!new)>(data: Bytes, replies: seq<T>, parse: Bytes -> Option<T>)
    ensures Decode(data, parse) == Ok(replies) <==> IsFraming(data, replies, parse)
  {
    if Decode(data, parse) == Ok(replies) {
      var prefixes, bodies := DecodeSound(data, parse);
    }
    if IsFraming(data, replies, parse) {
      var prefixes, bodies :|
        Announces(prefixes, bodies) && data == Interleave(prefixes, bodies) && ParseAll(bodies, parse) == Some(replies);
      DecodeComplete(prefixes, bodies, parse);
    }
  }

  // ---------- the loops ----------

  method EncodeCommands<C>(commands: seq<C>, serialize: C -> Bytes) returns (buf: Bytes)
    ensures buf == EncodeFrames(Serialized(commands, serialize))
  {
    buf := [];
    for i := 0 to |commands|
      invariant buf + EncodeFrames(Serialized(commands[i..], serialize))
          == EncodeFrames(Serialized(commands, serialize))
    {
      var encoded := serialize(commands[i]);
      FrameStep(commands, serialize, i, buf);
      buf := buf + EncodeVarint(|encoded|);
      buf := buf + encoded;
    }
  }

  function Serialized<C>(commands: seq<C>, serialize: C -> Bytes): seq<Bytes> {
    if commands == [] then [] else [serialize(commands[0])] + Serialized(commands[1..], serialize)
  }

  lemma FrameStep<C>(commands: seq<C>, serialize: C -> Bytes, i: nat, buf: Bytes)
    requires i < |commands|
    ensures buf + EncodeFrames(Serialized(commands[i..], serialize))
         == buf + EncodeVarint(|serialize(commands[i])|) + serialize(commands[i])
          + EncodeFrames(Serialized(commands[i + 1..], serialize))
  {}

  method DecodeReplies<T>(data: Bytes, parse: Bytes -> Option<T>) returns (r: Result<seq<T>, CodecError>)
    ensures r == Decode(data, parse)
  {
    var replies: seq<T> := [];
    var buf := data;
    ThenNothing(Decode(data, parse));
    while buf != []
      invariant Decode(data, parse) == Then(replies, Decode(buf, parse))
      decreases |buf|
    {
      var len := DecodeVarint(buf);
      if len == None {
        return Err(BadVarint);
      }
      var rest := len.value.rest;
      if len.value.value > |rest| {
        return Err(FrameExceedsData);
      }
      var reply := parse(rest[..len.value.value]);
      if reply.None? {
        return Err(BadBody);
      }
      ghost var tail := Decode(rest[len.value.value..], parse);
      assert tail.Ok? ==> replies + ([reply.value] + tail.value) == replies + [reply.value] + tail.value;
      replies := replies + [reply.value];
      buf := rest[len.value.value..];
    }
    assert replies + [] == replies;
    return Ok(replies);
  }

  lemma ThenNothing<T>(r: Result<seq<T>, CodecError>)
    ensures Then([], r) == r
  {
    if r.Ok? {
      assert [] + r.value == r.value;
    }
  }
}
