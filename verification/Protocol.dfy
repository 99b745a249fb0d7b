/** The messages of `proto/client.proto` as far as the actor looks at them. */
module Protocol {
  import opened Prelude

  type Channel = string

  datatype StreamPosition = StreamPosition(offset: nat, epoch: string)

  // ---------- to the server ----------

  datatype SubscribeRequest = SubscribeRequest(
    channel: Channel, token: string, recover: bool, epoch: string, offset: nat, data: Bytes,
    positioned: bool, recoverable: bool, joinLeave: bool, delta: bool)

  datatype Body =
    | ConnectBody(token: string, data: Bytes, subs: map<Channel, SubscribeRequest>)
    | SubscribeBody(request: SubscribeRequest)
    | UnsubscribeBody(channel: Channel)
    | RequestBody(payload: Bytes)  // publish, history, presence, rpc: passed through unread
    | SendBody(data: Bytes)
    | RefreshBody(token: string)
    | SubRefreshBody(channel: Channel, token: string)
    | PongBody

  datatype Command = Command(id: nat, body: Body)

  // ---------- from the server ----------

  /**
   A publication. `jsonText` is the content of `data` when `data` parses as a JSON string,
   which is what `unwrap_json_string` asks the JSON parser.
   */
  datatype Publication = Publication(offset: nat, data: Bytes, jsonText: Option<Bytes>, delta: bool)

  datatype SubscribeResult = SubscribeResult(
    recoverable: bool, positioned: bool, recovered: bool, offset: nat, epoch: string,
    delta: bool, expires: bool, ttl: nat, publications: seq<Publication>)

  /** What prost's `Default` gives. */
  const EMPTY_RESULT := SubscribeResult(false, false, false, 0, "", false, false, 0, [])

  datatype ConnectResult = ConnectResult(
    client: string, ping: nat, pong: bool, expires: bool, ttl: nat, subs: map<Channel, SubscribeResult>)

  datatype RefreshResult = RefreshResult(expires: bool, ttl: nat)

  datatype ServerError = ServerError(code: nat, temporary: bool)

  /** The first field set in a push, in the order `handle_push` looks for them. */
  datatype PushBody =
    | PublicationPush(publication: Publication)
    | JoinPush
    | LeavePush
    | UnsubscribePush(code: nat)
    | SubscribePush(recoverable: bool, offset: nat, epoch: string)
    | DisconnectPush(code: nat)
    | MessagePush
    | EmptyPush

  datatype Push = Push(channel: Channel, body: PushBody)

  datatype Reply = Reply(
    id: nat, error: Option<ServerError>, push: Option<Push>, connect: Option<ConnectResult>,
    subscribe: Option<SubscribeResult>, refresh: Option<RefreshResult>, subRefresh: Option<RefreshResult>)

  /** A disconnect push. */
  predicate IsHangup(r: Reply) { r.id == 0 && r.push.Some? && r.push.value.body.DisconnectPush? }
}
