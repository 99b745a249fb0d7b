/** `src/codes.rs`: the codes the state machine branches on. */
module Codes {
  const DISCONNECT_CALLED := 0
  const DISCONNECT_UNAUTHORIZED := 1
  const BAD_PROTOCOL := 2

  const CONNECT_CALLED := 0
  const TRANSPORT_CLOSED := 1
  const NO_PING := 2
  const SUBSCRIBE_TIMEOUT := 3
  const UNSUBSCRIBE_ERROR := 4

  const SUBSCRIBE_CALLED := 0

  const UNSUBSCRIBE_CALLED := 0
  const UNSUBSCRIBED_UNAUTHORIZED := 1
  const CLIENT_CLOSED := 2
  const SERVER_SUB_REMOVED := 3

  const INTERNAL_ERROR := 100
  const ALREADY_SUBSCRIBED := 105
  const TOKEN_EXPIRED := 109

  predicate ShouldReconnectOnDisconnect(code: nat) {
    !(3500 <= code < 5000) || 4000 <= code < 4500
  }

  predicate ShouldResubscribeOnUnsubscribe(code: nat) {
    code >= 2500
  }

  predicate IsTemporary(code: nat, temporary: bool) {
    temporary || code < INTERNAL_ERROR || code == TOKEN_EXPIRED
  }
}
