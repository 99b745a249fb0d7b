# Verified model of the Centrifugo client for Rust

This project models the connection actor of the client, the Fossil delta interpreter it uses for
compressed publications, its wire framing and its backoff, and proves what they are for:

* **Recovery without gaps.** The actor is composed with a server that keeps an append-only log for
  a channel, answers a recovering subscribe with everything after the requested offset, and sends
  each entry in full or, where deltas were negotiated, as a valid delta from its predecessor. In
  every run - transport closes, reconnects, temporary errors, stale timers, resubscribing and
  terminal unsubscribes, disconnect pushes, batching, token and data callbacks - the subscription
  has delivered every entry after its start position up to the present one, with the logged
  payloads, and nothing that is not in the log. For a start position this is sure if and only if it
  has a positive offset or an epoch. A subscription that starts without one gets its position from an
  accepted result; from any point of a run on at which it has one, is connected and no disconnect
  push is on its way, every later entry is sure to be delivered if and only if no request without a
  position is yet to be served and no answer to one is about to skip entries. After a handshake that
  leaves it with a position this is always so.
* **The actor as a state machine.** Joint invariant, no lost wake-up, caller conservation, request
  identity, observer agreement, provenance and order of everything written - each for every run.
* **What follows from each input.** Whether the client reconnects or disconnects, what each caller is
  told, what every command that leaves says, and which timers run, spelled out field by field and with
  the protocol's numbers, for every step from every state; and across steps: after any transport close
  the next connection asks for everything the client had from where it stood.
* **Deltas.** `apply_delta` accepts exactly the documents of the format as its documentation writes it,
  returns the same result whatever follows them, and inverts the printer; a chain of deltas delivers what uncompressed publications
  would have delivered, over whole runs of the actor.
* **Framing and batching.** The decoders accept exactly the well-framed buffers, are homomorphisms,
  and a flushed batch is byte-equal to encoding the queued commands at once.

## How it is laid out

| file | content |
|---|---|
| `Prelude.dfy`, `Codes.dfy`, `Protocol.dfy` | value types, the codes the actor branches on, the messages it reads and writes |
| `Backoff.dfy` | the saturating cap and the jittered delay |
| `DeltaFormat.dfy`, `DeltaTheorems.dfy`, `DeltaReader.dfy` | the delta format and interpreter, its theorems, the cursor and loops of the source |
| `DeltaAlphabet.dfy` | the format again, from its documented alphabet and punctuation alone, and what is accepted and refused in those terms |
| `Framing.dfy`, `Lines.dfy` | varint-delimited and newline-delimited codecs, batch writer |
| `Subscriptions.dfy`, `SubscriptionCell.dfy` | one subscription as a value and as the object its handlers borrow |
| `ActorState.dfy`, `ConnectionActor.dfy` | the actor's handlers as functions on a state, and as the methods of a class, proved equal |
| `JointInvariant.dfy`, `RequestIdentity.dfy`, `WakeUps.dfy`, `Callers.dfy`, `Exits.dfy`, `Observers.dfy`, `Outbox.dfy`, `Registry.dfy` | one property family each, over every run |
| `Outcomes.dfy` | the words for what a step can do: who is told what, what leaves, how a connection ends |
| `Lifecycle.dfy`, `Commands.dfy`, `Replies.dfy`, `Pushes.dfy`, `Timers.dfy` | what each kind of input does, in those words |
| `Exchanges.dfy` | what comes of several steps together |
| `SubHistory.dfy`, `DeltaChain.dfy` | what a run brings to one subscription, and what that delivers |
| `RecoveryRequests.dfy`, `Recovery.dfy`, `GapFree.dfy`, `Anchoring.dfy` | what the client asks for, the composition with a server, the recovery theorem, and exactly when a subscription that got its position on the way comes under it |
| `Hangups.dfy`, `Edges.dfy`, `ConcreteRuns.dfy` | what follows a disconnect push, the conditions of promises that the code does not always keep, and runs in which one fails |

A run is a sequence of inputs: a command from a client handle, a timer that fires, one connection
attempt, a frame, a close. The results of callbacks, transports and sends are part of the input, so
every theorem holds for all of them. Spawned sleeps are a multiset of outstanding messages that may
fire in any order. Hash maps are iterated in an arbitrary order in the class, and the specification
functions do not depend on the order.

Where the code and its comments differ, the code is followed: disconnect codes below 3000 and from
5000 on also reconnect, although the comment in `src/codes.rs` names only two ranges; `apply_delta`
accepts a copy command whose comma is missing at the very end of the input (it then fails as
unterminated) and ignores whatever follows the checksum trailer; after a refused token
`do_connect_cycle` goes on with the attempt it says the outer loop abandons.

## Model

| member | source | states |
|---|---|---|
| GapFree.NoEntryMissed | src/client/subscriptions.rs:15-94 | in every run of client and server, from any start position with a positive offset or an epoch, the entries after the start position up to the present one have been delivered with the logged payloads, whether sent in full or as deltas, nothing else has, and while the server holds the client subscribed and nothing is in flight the position is the end of the log |
| ConcreteRuns.GuaranteeExact | src/client/subscriptions.rs:15-38 | that guarantee over all runs holds if and only if the start position has a positive offset or an epoch |
| ConcreteRuns.EntryLost | src/client/subscriptions.rs:20-24 | the run that loses an entry: from offset 0 without an epoch the subscribe command does not ask for recovery, and an accepted result moves the position past the only entry of the log |
| ConcreteRuns.SubscribedAlone | src/client/connect.rs:364-371 | a run in which the client holds itself subscribed and the server does not: connected, every command served and every reply read, it stands short of the end of the log |
| Anchoring.NoEntryMissedSince | src/client/subscriptions.rs:43-75 | wherever the subscription starts, from any point of any run on at which it has a position and no request without one is unsent, unserved or about to skip entries, no later entry is ever missed |
| Anchoring.SettlesExactly | src/client/subscriptions.rs:15-38 | while the client is connected and no disconnect push is on its way that condition is exact: every continuation keeps up with the log from the present position on if and only if no request without a position is unsent or unserved and no answer in flight skips entries |
| Anchoring.ConnectKeeps | src/client/connect.rs:124-132 | after any handshake that ends well and leaves the subscription with a position, be it from the connect result, every continuation keeps up with the log from there on |
| Anchoring.ConnectSettles | src/client/connect.rs:178-254 | such a handshake leaves no request without a position: nothing was sent after the connect command, and what is resubscribed names the position |
| ConcreteRuns.SecondAskLoses | src/client/commands.rs:126-219 | a run that loses an entry after the first accepted result: unsubscribing and subscribing again while the first command is on its way sends a second one without a position, and its answer skips the entry |
| GapFree.PlayInv | src/client/connect.rs:161-254 | every run keeps the joint invariant of client and server: in-flight replies continue the log from where the client stands, or skip ahead if they answer a request without a position, and every request that could restore the subscription still waits for its reply |
| GapFree.ReadOne | src/client/connect.rs:332-359 | reading one reply moves position and delta base exactly as the reply's id and content say, also after a disconnect push, and keeps what is still in flight consistent |
| GapFree.AnswerContinues | src/client/subscriptions.rs:40-85 | the answer to a recovering request, applied at any later position not past the log's end, continues the log without a gap, ends at its end and leaves the last payload as the delta base; the answer to one without a position ends there too |
| GapFree.PublicationFits | src/subscription.rs:215-238 | the next entry, in full or as a delta from its predecessor, decodes to its payload wherever an up-to-date client stands, and leaves it up to date; a client that has forgotten deltas needs it sent as it is |
| RecoveryRequests.ConnectAsks | src/client/connect.rs:178-229 | the connect command asks for a client-side subscription with its own epoch and exactly from its own position, in recovery mode exactly if it has one |
| RecoveryRequests.LocalReady | src/client/commands.rs:12-124 | any step that reads no frame keeps every subscribe command that is unsent, unserved or unanswered waiting under its id, unless it ends the connection |
| RecoveryRequests.TimeoutReady | src/client/commands.rs:106-122 | a timeout that takes out a tracked subscribe request also takes down the connection, so its reply cannot be missed |
| RecoveryRequests.ReplyReady | src/client/connect.rs:332-359 | a dispatched reply takes out its own request only, and leaves all others waiting |
| SubHistory.RunLived | src/client/subscriptions.rs:40-94 | over a whole run a subscription's position, delta base and deliveries change only by the publications and accepted results the frames bring it, in that order |
| SubHistory.StepLived | src/client/push.rs:29-40 | the same for one step: commands, timers, attempts and closes change none of the three |
| DeltaChain.RunDelivers | src/subscription.rs:215-238 | over a whole run with deltas negotiated, what is delivered is the payload sequence, whichever payloads came as deltas, recovered or live |
| DeltaChain.HistoryDelivers | src/client/subscriptions.rs:77-85 | the same for any history of one subscription, and the delta base ends at the last payload |
| DeltaChain.DeliveredExactly | src/subscription.rs:215-238 | one publication is taken for a payload exactly when it carries it in full or as a valid delta, or when a delta fails on bytes that already are the base |
| DeltaChain.FailingDelta | src/subscription.rs:229-232 | a delta that does not apply is delivered raw and leaves the delta base alone |
| DeltaChain.PrintedDeltaCarries | src/subscription.rs:219-228 | a delta printed from any edit script carries the script's target, as raw bytes or wrapped in a JSON string |
| DeltaChain.AlreadySubscribedExactly | src/client/connect.rs:364-371 | after an already-subscribed error without a result and until a result negotiates deltas again, live and recovered publications are delivered with their payloads if and only if each is sent byte for byte as its payload |
| DeltaChain.RunForgets | src/client/connect.rs:364-371 | the same over whole runs of the actor |
| DeltaChain.DeltaDeliveredRaw | src/subscription.rs:215-218 | the frame that delivers a wrong payload: such an error and a delta that is valid for what was last received, which is handed over as it came |
| DeltaChain.SomeDeltaIsLost | src/subscription.rs:215-238 | for every delta base there is such a delta |
| DeltaTheorems.ApplyExact | src/delta.rs:193-261 | `apply_delta` returns `target` exactly when a prefix of the delta is a well-formed document whose copies lie in the source and whose edits, size and checksum give `target` |
| DeltaTheorems.Sound | src/delta.rs:204-260 | an accepted delta has such a document as a prefix |
| DeltaTheorems.Complete | src/delta.rs:204-260 | such a document is accepted whatever follows it; the per-step limit checks follow from the final size |
| DeltaTheorems.RoundTrip | src/delta.rs:7-9 | printing any edit script with counts, offsets and target size below 2^32 and applying it gives the script's target |
| DeltaTheorems.PrefixStable | src/delta.rs:238-252 | bytes after an accepted delta do not change the result |
| DeltaTheorems.ScanInvertsEncode | src/delta.rs:394-406 | reading back an encoded u32 before any ASCII byte that is not a digit gives the number and stops at that byte |
| DeltaAlphabet.AcceptsExactly | src/delta.rs:7-9 | `apply_delta` returns `target` exactly for a size, a newline, commands `count@offset,` and `count:bytes`, a checksum and a semicolon, written in those characters, that rebuild it piece by piece; numbers are sums of alphabet positions times powers of 64, in 32 bits |
| DeltaAlphabet.DigitsAreTheAlphabet | src/delta.rs:45-112 | a byte is worth v exactly if the documented alphabet of 64 characters has it at position v, and -1 exactly if it does not have it |
| DeltaAlphabet.ValueIsNumber | src/delta.rs:142-157 | the value of a digit string is the sum of its positions in the alphabet times powers of 64 |
| DeltaAlphabet.EncodesNumber | src/delta.rs:394-406 | an encoded number is written in the alphabet, stands for that number, and has no leading zero unless it is zero |
| DeltaAlphabet.ChecksumWeighs | src/delta.rs:161-190 | byte i of the input contributes 256^(3 - i mod 4) times its value to the checksum, modulo 2^32 |
| DeltaAlphabet.RefusedSize | src/delta.rs:193-199 | which error a delta without a size and a newline gives |
| DeltaAlphabet.RefusedOperator | src/delta.rs:204-260 | which error a missing trailer, an unknown operator or a byte above 127 gives, after any commands |
| DeltaAlphabet.RefusedCopy | src/delta.rs:209-226 | which error a copy gives that is not closed, exceeds the declared size or leaves the source, with its numbers |
| DeltaAlphabet.RefusedInsert | src/delta.rs:227-237 | which error an insert gives that exceeds the declared size or the delta |
| DeltaAlphabet.RefusedTrailer | src/delta.rs:238-252 | a wrong checksum, or else a wrong size, is reported with both numbers |
| DeltaFormat.ChecksumConcat | src/delta.rs:161-190 | the checksum of a word-aligned prefix and the rest add up modulo 2^32 |
| DeltaReaders.DeltaReader.GetByte | src/delta.rs:128-135 | the next byte, or `UnexpectedEnd` with the cursor left at the end |
| DeltaReaders.DeltaReader.GetInt | src/delta.rs:142-157 | the base-64 value modulo 2^32 of the maximal digit run - `DeltaAlphabet.ValueIsNumber` says which number that is - with the cursor on its terminator; a byte above 127 is an error |
| DeltaReaders.ComputeChecksum | src/delta.rs:161-190 | four wrapping lane sums and the tail equal the sum modulo 2^32 of the big-endian words of the zero-padded input |
| DeltaReaders.ApplyDelta | src/delta.rs:193-261 | the cursor loop computes the interpreter function, errors included; `DeltaAlphabet.AcceptsExactly` and the `Refused` lemmas say what that is for every input |
| DeltaReaders.EncodeIntLoop | src/delta.rs:394-406 | the digit loop and reversal compute the shortest base-64 numeral, which `DeltaAlphabet.EncodesNumber` describes |
| Framing.DecodeExact | src/codec.rs:98-114 | a buffer decodes to `replies` exactly when it is a sequence of length-announced bodies that parse to them |
| Framing.FramesRoundTrip | src/codec.rs:88-114 | splitting a concatenation of frames yields exactly those frames |
| Framing.DecodeConcat | src/codec.rs:98-114 | after a decodable buffer decoding goes on with the rest, errors included |
| Framing.BadTailRejectsAll | src/client/connect.rs:313-330 | a bad frame after good ones leaves no reply at all to dispatch |
| Framing.VarintRoundTrip | src/codec.rs:102-103 | varints read back on every u64, whatever follows |
| Framing.VarintExact | src/codec.rs:102-103 | a varint is read exactly where there is one: at most ten bytes, all but the last with their high bit set, whose low seven bits, least significant group first, make a u64 |
| Framing.BadLength | src/codec.rs:102-103 | a buffer that starts with no varint is refused as such |
| Framing.BadFrame | src/codec.rs:104-110 | a first frame longer than what is left, or one that does not parse, is refused as such |
| Framing.EncodeVarintExact | src/codec.rs:92-93 | what is written has that form, stands for the number and ends in no empty group |
| Framing.EncodeCommands | src/codec.rs:88-96 | the encoding loop concatenates the frames of the commands in order |
| Framing.DecodeReplies | src/codec.rs:98-114 | the decoding loop computes the decoder function |
| Lines.LinesRoundTrip | src/codec.rs:58-81 | newline-joined messages decode to exactly those messages |
| Lines.DecodeTextConcat | src/codec.rs:68-81 | texts joined by a newline decode to the concatenated replies or the first error |
| Lines.PaddedLine | src/codec.rs:71-77 | a line is what the parser makes of it without the white space around it, which is Unicode's by its code points |
| Lines.BlankLine | src/codec.rs:73-75 | a line of white space is no message |
| Lines.DecodeReplies | src/codec.rs:68-81 | the line loop computes the decoder function; text that is not UTF-8 is an error |
| Lines.EncodeTexts | src/codec.rs:58-66 | the encoding loop joins the serialized commands, or fails as a whole |
| Lines.FlushEqualsEncode | src/client/transport_io.rs:80-96 | for both codecs the frame of a flushed batch is byte-equal to encoding the queued commands at once |
| Backoff.CapIsExact | src/backoff.rs:11-12 | saturation is invisible: the cap is the exact `min(max, min * 2^attempt)` |
| Backoff.CapMonotone | src/backoff.rs:11-12 | a later attempt never has a smaller cap |
| Backoff.CapDoubles | src/backoff.rs:11-12 | the cap is the minimum at the first attempt and doubles with each until it reaches the maximum |
| Backoff.CapReachesMaximum | src/backoff.rs:11-12 | with any positive minimum it does reach it |
| Backoff.DelayIsDraw | src/backoff.rs:13-17 | while the cap fits 64 bits the delay is the draw, so each delay from zero to the cap has its draw, and all are zero if and only if the cap is |
| Backoff.DelayBounded | src/backoff.rs:13-17 | every jittered delay, after the cast to u64, is at most the maximum and the exponential bound |
| JointInvariant.RunJoint | src/client/state.rs:9-108 | after every run: pending requests, a subscribed subscription each imply connected; a subscribed subscription has no waiters; a sink implies connected or a handshake; connect waiters imply connecting; connecting implies and disconnected excludes `connect_requested`; connected implies no attempts counted; queued bytes imply an active batch |
| WakeUps.NoLostWakeUp | src/client/subscriptions.rs:96-237 | after every run, while connected, each subscribing channel has a pending subscribe with its timeout armed or an outstanding `Resubscribe`, unless its last attempt could not be sent or came back empty; every request with a deadline has its timeout armed |
| WakeUps.ForgottenByDoSubscribe | src/client/subscriptions.rs:152-237 | `do_subscribe` leaves a subscribing channel without any attempt exactly when it sends a command, the send fails, and no other attempt for the channel was outstanding |
| WakeUps.ForgottenByStep | src/client/commands.rs:126-176 | the same for commands and timers: no other one ever takes a channel its last attempt |
| WakeUps.ForgottenByReply | src/client/connect.rs:361-382 | a reply takes a channel its last attempt exactly when the channel is subscribing and the reply answers that attempt with neither an error nor a result |
| ConcreteRuns.LostWakeUp | src/client/subscriptions.rs:152-237 | a run that ends connected with a subscribing channel that nothing will ever try again |
| RequestIdentity.IdsExact | src/client/actor.rs:251-253 | the first n ids are non-zero and distinct exactly as long as n is below 2^32 |
| RequestIdentity.RunIdentified | src/client/actor.rs:251-253 | after every run below that bound, pending entries, timers, written and queued commands and the awaited id all stand for the command their id was taken for |
| RequestIdentity.ReplyResolvesOwnRequest | src/client/connect.rs:354-358 | a reply answers the caller its id was taken for and leaves every other request waiting |
| RequestIdentity.TimeoutHitsOwnRequest | src/client/commands.rs:106-122 | a late timeout fails the request it was armed for, or changes nothing |
| Callers.EveryCallerInOnePlace | src/client/commands.rs:126-276 | after every run each reply handle ever passed in is in exactly one place, once: connect waiters, one subscription's waiters, one pending request, answered or dropped |
| Callers.AnswersAreFinal | src/client/connect.rs:361-412 | an answer is never changed or taken back by any continuation of the run |
| Exits.ExitsLeaveNobody | src/client/state.rs:50-143 | in every reached state, every step but a frame that goes from connected to disconnected or closed answers all who waited for the connection, a reply or an active subscription; afterwards nothing is pending and only subscriptions that were already unsubscribed keep the waiters they had |
| Exits.ReplyExitsLeaveNobody | src/client/connect.rs:313-359 | the same for the reply of a frame that takes the client out |
| Observers.RunObserved | src/client/state.rs:9-137 | after every run the event streams tell each subscription's state, the client state unless closed, and the registry of server-side subscriptions; the shared byte is the state |
| Observers.SharedStateDecodes | src/protocol.rs:18-34 | the shared byte decodes to the state it was stored for |
| Outbox.RunTidy | src/client/transport_io.rs:66-96 | after every run what was queued while connected belongs to the present connection or was written to the one it was queued on, and numbered commands leave in the order of their ids |
| Outbox.WrittenOnce | src/client/transport_io.rs:66-96 | no numbered command is written twice |
| Outbox.FlushedFrame | src/client/transport_io.rs:80-96 | after every run, what ending a batch writes is one new frame that holds exactly the queued commands in order, with the bytes of encoding them all at once; earlier frames stay as they were |
| Registry.KeysReconciled | src/client/server_subs.rs:11-74 | afterwards the registry holds exactly the result's channels that are no client-side subscription or were already registered |
| Registry.EntriesReconciled | src/client/server_subs.rs:24-61 | a refreshed entry stands at its last positive publication offset, or else the result's; entries shadowed by a client-side subscription are untouched |
| Registry.EventsReconciled | src/client/server_subs.rs:33-73 | the events of each channel: subscribed and its publications, or one removal with code 3, or nothing |
| Registry.SubsReconciled | src/client/server_subs.rs:14-19 | client-side subscriptions in the result are resolved, all others are as before |
| Registry.ClientPositionReconciled | src/client/subscriptions.rs:43-85 | a client-side subscription takes position, epoch and recovery from a result by the same rule: its last positive publication offset, or else the result's if it has a position, or else what it had |
| Registry.ReconcileTwice | src/client/server_subs.rs:11-74 | reconciling again with the same result changes no entry |
| Exchanges.ReturnsWhereItStood | src/client/connect.rs:161-254 | after a transport close from which the client reconnects, in any reached state, the next connection that opens asks in its connect command for every subscription that was subscribed, with its token, data, flags, epoch and offset, unless a callback must be asked first, and for every recoverable server-side one from the registry's position |
| Exchanges.SubscribeHeard | src/client/connect.rs:361-382 | in any reached connected state the caller of `subscribe` hears the verdict of the reply to the command sent for it: done for a result or error 105, the server's error for any other, a bad message for neither |
| Exchanges.RequestHeard | src/client/connect.rs:383-386 | likewise the caller of a generic request gets the reply to it as it came |
| Lifecycle.TransportCloses | src/client/transport_io.rs:12-55 | a closed transport leads to connecting if and only if reconnecting is offered and was requested, and to disconnected otherwise; connecting, every subscribed subscription is subscribing again with position, delta base and waiters as they were, the registry stays and only pending requests fail |
| Lifecycle.PingTimesOut | src/client/connect.rs:299-308 | a missing ping is a close with code 2 that offers to reconnect |
| Lifecycle.BadFrameDisconnects | src/client/connect.rs:313-325 | a frame that does not decode disconnects with code 2 whatever was requested |
| Lifecycle.StartsIdle | src/client/actor.rs:190-232 | a new client is disconnected with nothing asked for, sent or said |
| Lifecycle.DisconnectPushed | src/client/push.rs:155-170 | a disconnect push is final exactly for codes from 3500 to 3999 and from 4500 to 4999 |
| Lifecycle.SubscribeTimesOut | src/client/commands.rs:106-122 | a subscribe request of a known channel that times out fails its caller and the channel's waiters with a timeout and closes the transport with code 3, offering to reconnect |
| Lifecycle.ConnectCalled | src/client/commands.rs:14-29 | by phase: connecting with code 0 and one more waiter, one more waiter, told at once that it is done, or that the client is closed |
| Lifecycle.DisconnectCalled | src/client/commands.rs:30-33 | all subscriptions end with code 2, the registry empties, all who waited hear that the client is disconnected, and the caller that it is done |
| Lifecycle.CloseCalled | src/client/commands.rs:34-37 | pending callers hear that the client is disconnected, connect waiters and waiters of subscriptions that it is closed, and the caller that it is done |
| Lifecycle.HandshakeRefused | src/client/connect.rs:134-146 | error 109 ends the attempt and asks for a fresh token, one flagged temporary or below 100 only ends it, and any other disconnects with its code |
| Lifecycle.HandshakeEmpty | src/client/connect.rs:251-254 | an answer with neither an error nor a result ends the attempt and nothing else |
| Lifecycle.HandshakeWaits | src/client/transport_io.rs:112-121 | a frame without the awaited reply is dispatched and the handshake goes on |
| Lifecycle.HandshakeBreaks | src/client/transport_io.rs:112-130 | a close, a timeout or a bad frame during the handshake ends the attempt and nothing else |
| Lifecycle.HandshakeSucceeds | src/client/connect.rs:124-132 | the link takes its terms from the result, every connect waiter hears that it is done, and the token's refresh is armed if and only if it expires after a positive time |
| Lifecycle.AttemptConnects | src/client/connect.rs:161-242 | an attempt whose transport opens sends the connect command under a fresh id with the client's token and data, fresh where a callback gave them; every field of every request in it is the one of its subscription or registry entry, named one by one |
| Lifecycle.AttemptUnauthorized | src/client/connect.rs:98-101 | a refused token disconnects with code 1, and the attempt goes on from there |
| Lifecycle.AttemptFails | src/client/connect.rs:84-122 | a token callback that fails or a transport that does not open costs the attempt and one error event |
| Lifecycle.AttemptRenews | src/client/connect.rs:148-159 | a token the callback gives replaces the old one and settles the need for it, even when the transport then does not open |
| Outcomes.SendSubscribeSends | src/client/subscriptions.rs:15-38 | a subscribe command carries channel, token, data, positioned, recoverable, join-leave and delta flags, epoch and offset of the subscription, each named, and asks to recover exactly from a known position |
| Commands.SubscribeCalled | src/client/commands.rs:126-176 | an unknown channel fails, a subscribed one is done, one under way takes one more waiter; otherwise the subscription starts with code 0 and waits for the connection, or a command leaves that says of it each field named, under a fresh id with a timeout, or the caller hears what kept it from leaving |
| Commands.UnsubscribeCalled | src/client/commands.rs:178-219 | always done; a wire unsubscribe under a fresh id leaves if and only if the subscription was subscribed and the client connected, and if it cannot leave the transport is closed with code 4 |
| Commands.RemoveCalled | src/client/commands.rs:221-259 | always done; the waiters hear that it is unsubscribed unless it already was, and the server hears of it as for unsubscribe |
| Commands.NewSubscriptionCalled | src/client/commands.rs:38-45 | a known channel is refused as a duplicate; a new subscription starts unsubscribed at the position of its configuration, and recovers if it has one or is recoverable |
| Commands.RegistryAsked | src/client/commands.rs:46-52 | presence and states are told as they are, and nothing changes |
| Commands.RequestCalled | src/client/commands.rs:262-276 | refused as disconnected unless connected, and otherwise sent as given under a fresh id with a timeout, or its caller hears what kept it from leaving |
| Commands.SendCalled | src/client/commands.rs:73-82 | a one-way message leaves as given, without a number, exactly while connected |
| Commands.SettingsCalled | src/client/commands.rs:88-93 | token and data are replaced, and nothing else changes |
| Commands.StartBatchingCalled | src/client/commands.rs:94-96 | a batch is open with whatever was queued, and nothing else changes |
| Commands.StopBatchingCalled | src/client/transport_io.rs:80-96 | the queued commands leave in order in one frame of the present connection, or are lost; the batch is over |
| Replies.SubscribeAnswered | src/client/connect.rs:361-382 | exactly the caller, and the waiters if the reply settles the subscription, hear its verdict: done for a result or error 105, the server's error for any other, a bad message for neither |
| Replies.DoneMeansSubscribed | src/client/subscriptions.rs:40-122 | a waiter of a subscribing subscription hears that it is done if and only if the reply made it subscribed, hears an error if and only if it made it unsubscribed, and else waits on |
| Replies.SubscribeAccepted | src/client/subscriptions.rs:40-94 | every field of the subscription after a success, its one event and one event for each recovered publication, and a refresh timer if and only if the token expires after a positive time; nothing else changes |
| Replies.SubscribeRefused | src/client/subscriptions.rs:96-122 | a temporary error (flagged so, below 100, or 109, which drops the token) counts the attempt and arms one resubscription; any other unsubscribes with its code; nothing else changes |
| Replies.SubscribeEmpty | src/client/connect.rs:379-381 | a reply with neither an error nor a result changes nothing but the caller's answer |
| Replies.SubscribeGone | src/client/subscriptions.rs:40-48 | nor does any reply once the subscription has been removed |
| Replies.StrayReply | src/client/connect.rs:354-358 | a reply nobody awaits does nothing |
| Replies.RequestAnswered | src/client/connect.rs:383-386 | the caller of a generic request gets the reply as it came, and nothing else happens |
| Replies.RefreshAnswered | src/client/connect.rs:387-398 | new terms and the next refresh if the token expires after a positive time; an error or an empty reply changes nothing |
| Replies.SubRefreshAnswered | src/client/connect.rs:399-410 | the next refresh of a subscription's token if it expires after a positive time, and nothing else |
| Replies.PingAnswered | src/client/connect.rs:333-345 | a ping is answered by an empty command without a number if and only if the server asked for pongs |
| Replies.ResultsRouted | src/client/server_subs.rs:11-21 | each client-side subscription in a connect result takes it over as if subscribed by itself, exactly its waiters hear that it is done, and exactly the expiring ones have their refresh armed |
| Pushes.PublicationPushed | src/client/push.rs:29-55 | what is delivered to the client-side subscription and the delta base it leaves; otherwise the offset a publication leaves in the registry: its own if positive, and else the one before |
| Pushes.PresencePushed | src/client/push.rs:57-91 | a join or leave is one event for whichever subscription the channel has |
| Pushes.UnsubscribePushed | src/client/push.rs:93-124 | from code 2500 on the subscription is subscribing with one resubscription due, below it is unsubscribed; its waiters stay; a server-side one leaves the registry |
| Pushes.SubscribePushed | src/client/push.rs:126-153 | the registry has the channel at exactly the position given, and no other entry moves |
| Pushes.OtherPushed | src/client/push.rs:24-26 | a message is one event of the client, and an empty push does nothing |
| Timers.ResubscribeFires | src/client/subscriptions.rs:152-237 | a due resubscription asks with the token and data its callbacks give, a refused or empty token unsubscribes with code 1 and fails the waiters as unauthorized, a failing token callback costs the attempt, and otherwise nothing happens |
| Timers.TimeoutFires | src/client/commands.rs:106-122 | a late timeout does nothing; a generic request, or a subscribe whose channel is gone, fails with a timeout and nothing else changes |
| Timers.RefreshFires | src/client/token.rs:43-82 | a due refresh presents the callback's token, or the one there is; it is armed again if the callback or the send fails, and a refused token disconnects with code 1 |
| Timers.SubRefreshFires | src/client/token.rs:84-140 | a due refresh of a subscribed channel presents the fresh token; a refused one unsubscribes with code 1, a failing callback is tried again, and without a callback nothing happens |
| Edges.TailDiscarded | src/client/transport_io.rs:112-121 | whatever follows the awaited reply in its frame leaves no trace |
| Edges.ConnectedHasSink | src/client/transport_io.rs:112-121 | a successful handshake leaves a connected actor, with a sink exactly when no disconnect push came before the reply in its frame |
| Edges.AttemptAfterRefusal | src/client/connect.rs:84-106 | an attempt whose token was refused goes on, and handshakes from the disconnected state exactly then |
| Edges.FreshTokenPresented | src/client/connect.rs:134-146 | after a temporary error the next attempt presents the token the callback then gives exactly when the error was an expired token or a refresh was due anyway, and the old one otherwise |
| Edges.ExpiredTokenDropped | src/client/subscriptions.rs:96-106 | a temporary error arms a resubscription, which asks for a token exactly when there is a token callback and the token was empty or has expired |
| Edges.LateReplyRevives | src/client/subscriptions.rs:40-48 | a reply makes an unsubscribed subscription subscribed exactly when it carries or implies a result |
| Hangups.CoverageAfterHangup | src/client/connect.rs:327-330 | a subscription that has everything up to its position when a disconnect push is read keeps having everything, at every point of the rest of the frame, if and only if no later publication of its channel leaves a hole after the highest offset so far |
| Hangups.EntrySkipped | src/client/push.rs:155-170 | the frame that loses an entry: a disconnect push, the reply that recovers entry x + 1, publication x + 2 |
| SubscriptionCells.SubscriptionCell.constructor | src/subscription.rs:187-205 | a new subscription's fields, read as a value |
| SubscriptionCells.SubscriptionCell.ApplyDelta | src/subscription.rs:215-238 | the in-place update of the delta base and the returned data are those of the specification, through the cursor loop of the interpreter |
| SubscriptionCells.SubscriptionCell.Receive | src/client/push.rs:31-38 | one publication moves the object as specified |
| SubscriptionCells.SubscriptionCell.Confirm | src/client/subscriptions.rs:43-75 | the subscribed transition and its event |
| SubscriptionCells.SubscriptionCell.ConfirmAndReceive | src/client/subscriptions.rs:40-85 | the loop over recovered publications |
| ConnectionActors.ConnectionActor.constructor | src/client/actor.rs:190-232 | the initial state |
| ConnectionActors.ConnectionActor.NextCmdId | src/client/actor.rs:251-253 | the wrapping counter hands out the id of the count of ids taken so far |
| ConnectionActors.ConnectionActor.FailAllPending | src/client/state.rs:139-143 | every pending caller is failed once and the map is empty, in whatever order it is drained |
| ConnectionActors.ConnectionActor.UnsubscribeAllSubs | src/client/state.rs:124-137 | every subscription that was not unsubscribed is, with one event, and its waiters are failed |
| ConnectionActors.ConnectionActor.MoveToConnecting | src/client/state.rs:9-17 | the phase and the shared byte become connecting, with one event that carries the code |
| ConnectionActors.ConnectionActor.MoveToConnected | src/client/state.rs:19-48 | the phase, the shared byte, the client id, the pong flag and the token terms come from the result, and so does a positive ping interval; the attempts restart, and there is one event |
| ConnectionActors.ConnectionActor.MoveToDisconnected | src/client/state.rs:50-89 | the five drains and the resets together move the state as specified, with one event for each dropped server-side subscription |
| ConnectionActors.ConnectionActor.MoveToClosed | src/client/state.rs:91-108 | the drains and resets together, each waiter failed with the error of its list |
| ConnectionActors.ConnectionActor.UnsubscribeUnauthorized | src/client/state.rs:110-122 | the subscription is unsubscribed with code 1 and all its waiters are told they are unauthorized; an unknown channel changes nothing |
| ConnectionActors.ConnectionActor.OnTransportClose | src/client/transport_io.rs:12-55 | the loops over both registries and the drain together move the state as specified; `Lifecycle.TransportCloses` says where that leads |
| ConnectionActors.ConnectionActor.SendCommand | src/client/transport_io.rs:66-78 | what is queued, written or refused, and the error |
| ConnectionActors.ConnectionActor.FlushBatch | src/client/transport_io.rs:80-96 | the queued commands go to the present sink under one new frame number or are lost, and the batch ends |
| ConnectionActors.ConnectionActor.HandleSubscribeSuccess | src/client/subscriptions.rs:40-94 | the subscription is subscribed at the result's position, recovered publications are received in order, all waiters are answered and a token refresh is armed if it expires |
| ConnectionActors.ConnectionActor.HandleSubscribeError | src/client/subscriptions.rs:96-122 | a temporary error arms one resubscription and keeps the waiters, an expired token is dropped; any other error unsubscribes and fails them |
| ConnectionActors.ConnectionActor.Transact | src/client/commands.rs:161-175 | id, registration, timeout and send; a failed send takes exactly its own entry out again and tells its caller |
| ConnectionActors.ConnectionActor.BuildSubscribeRequest | src/client/subscriptions.rs:15-38 | the request is that of the specification; `Outcomes.SendSubscribeSends` names it field by field |
| ConnectionActors.ConnectionActor.DoSubscribe | src/client/subscriptions.rs:152-237 | all outcomes of both callbacks and of the send |
| ConnectionActors.ConnectionActor.ResubscribeAll | src/client/subscriptions.rs:140-150 | the loop over the subscribing channels in whatever order the map yields them |
| ConnectionActors.ConnectionActor.HandlePush | src/client/push.rs:9-27 | the first body of the push decides, and nothing else changes |
| ConnectionActors.ConnectionActor.HandlePublication | src/client/push.rs:29-55 | a client-side subscription has precedence over a server-side one; a positive offset becomes its position |
| ConnectionActors.ConnectionActor.HandleServerUnsubscribe | src/client/push.rs:93-124 | codes from 2500 resubscribe with one timer, lower ones end the subscription; a server-side one leaves the registry with one event |
| ConnectionActors.ConnectionActor.HandleServerSubscribe | src/client/push.rs:126-153 | the registry entry is replaced and one event says so |
| ConnectionActors.ConnectionActor.HandleDisconnectPush | src/client/push.rs:155-170 | reconnects or disconnects by the code's range alone |
| ConnectionActors.ConnectionActor.ProcessServerSubs | src/client/server_subs.rs:11-74 | routing the results one by one in any order and dropping what is missing equals the order-free specification |
| ConnectionActors.ConnectionActor.ResolvePending | src/client/connect.rs:361-412 | each kind of request is settled as specified; the `Replies` lemmas say what each caller is told and what else changes |
| ConnectionActors.ConnectionActor.DispatchReply | src/client/connect.rs:332-359 | pings are answered if asked for, pushes handled, and a reply takes out exactly the request of its id |
| ConnectionActors.ConnectionActor.HandleReplies | src/client/connect.rs:313-330 | the loop over the replies of a frame |
| ConnectionActors.ConnectionActor.ReadReply | src/client/transport_io.rs:98-132 | dispatches exactly the replies before the awaited one, and returns it |
| ConnectionActors.ConnectionActor.RefreshTokenIfNeeded | src/client/connect.rs:84-106 | a fresh token, a disconnect on refusal, or an error event, and whether the attempt goes on |
| ConnectionActors.ConnectionActor.BuildConnectSubs | src/client/connect.rs:173-229 | the two loops over unordered maps build the requests of replayed server-side and batched client-side subscriptions, the latter taking precedence |
| ConnectionActors.ConnectionActor.BeginAttempt | src/client/connect.rs:16-49 | one attempt up to the handshake's first read |
| ConnectionActors.ConnectionActor.OnHandshakeSuccess | src/client/connect.rs:124-132 | connected, results routed, refresh armed, the rest resubscribed and then every connect waiter answered |
| ConnectionActors.ConnectionActor.OnHandshakeFailure | src/client/connect.rs:134-146 | the transport is dropped; an expired token asks for a refresh and a permanent error disconnects |
| ConnectionActors.ConnectionActor.HandshakeFrame | src/client/connect.rs:244-254 | a handshake frame, up to and including what the awaited reply leads to |
| ConnectionActors.ConnectionActor.DoRefreshToken | src/client/token.rs:43-74 | all outcomes of the callback and of the send |
| ConnectionActors.ConnectionActor.DoRefreshSubToken | src/client/token.rs:84-140 | all outcomes of the callback and of the send |
| ConnectionActors.ConnectionActor.HandleConnect | src/client/commands.rs:14-29 | by phase: start connecting and wait, wait, or be answered at once |
| ConnectionActors.ConnectionActor.HandleSubscribe | src/client/commands.rs:126-176 | by subscription state: answered, attached to the attempt under way, kept for the connection, or sent with the caller as its sender |
| ConnectionActors.ConnectionActor.HandleUnsubscribe | src/client/commands.rs:178-219 | unsubscribed with one event; the wire unsubscribe is sent only from subscribed and connected, and its failure closes the transport |
| ConnectionActors.ConnectionActor.HandleRemoveSubscription | src/client/commands.rs:221-259 | the subscription goes, its waiters are failed unless it was already unsubscribed, when they go with it unanswered |
| ConnectionActors.ConnectionActor.SendRequestCommand | src/client/commands.rs:262-276 | refused when not connected, otherwise registered under a fresh id with a timeout and sent |
| ConnectionActors.ConnectionActor.HandleRequestTimeout | src/client/commands.rs:106-122 | the request fails; if it was a subscribe of a known channel its waiters fail too and the transport is closed |
| ConnectionActors.ConnectionActor.HandleCommand | src/client/commands.rs:12-124 | every command reaches its handler and every caller it has is answered or kept |
| ConnectionActors.ConnectionActor.Turn | src/client/connect.rs:256-311 | one turn of whichever loop the actor is in |
| ConnectionActors.ConnectionActor.RunAll | src/client/actor.rs:256-273 | a whole run of the object is the run of the specification, so every theorem about runs is about the object |

## Left out

- Transports, TLS, channels, the scheduler and the clock: a frame or a close arrives, a send succeeds or fails, a timer fires. The point at which a ping deadline passes and the length of the refresh delay (90% of the TTL) are left to the environment.
- The body codecs of serde and prost and the generated message types: parsing and serializing are parameters; `Publication.jsonText` is what the JSON parser makes of the data, and JSON messages are assumed non-empty, trimmed and free of newlines.
- The handles of `src/client/mod.rs` and `src/subscription.rs`, configuration builders, presence and history conversions.
- Event channels: every event goes to an unbounded trace per subscription, per server-side channel and for the client; the payloads of server-side and client events, reason strings, drops on a full channel, replaced receivers and the relative order of events of different subscriptions are not modelled.
- Await points: the source's single task is cut where it waits for a command, a frame or a timer; callbacks, sends and the transport's connect are taken as one step with the handler that awaits them, as no other handler runs meanwhile. When every command sender is gone the actor would close; it holds a sender itself, so that arm is not modelled.
- A push with more than one body counts as its first one in the order of `handle_push`; tags filters, client name and version, and the reply fields the actor does not look at are not modelled.
- Sizes: `usize` has 64 bits and does not overflow, u64 offsets and the attempt counters are unbounded naturals, allocation does not fail.
- ConnectionActors.ConnectionActor.SendCommand: the queue and the wire hold commands rather than their bytes; `Lines.FlushEqualsEncode` and `Outbox.FlushedFrame` relate the bytes.
- ConnectionActors.ConnectionActor.HandleSubscribeSuccess: the registry maps channels to subscription values; the borrowed entry is an object during the handler and written back, so aliasing between entries is not modelled.
- ConnectionActors.ConnectionActor.ResolvePending: the senders of refresh requests have no receiver in the source and are not modelled, nor is the one `do_subscribe` drops.
- WakeUps.NoLostWakeUp: says nothing for a channel whose last subscribe command could not be sent, or whose last reply carried neither an error nor a result; the source then waits for the next connection, as `ConcreteRuns.LostWakeUp` shows.
- Callers.EveryCallerInOnePlace: holds for runs with fewer than 2^32 commands, as `RequestIdentity.IdsExact` shows ids repeat afterwards; so do the other theorems that bound the ids taken.
- GapFree.NoEntryMissed: the subscription is not removed and its channel is not also a server-side subscription (`Edges.SharedChannelSafe` says when such a channel is asked for from a later position). The server delivers in order per connection, ends a frame with the connect reply (`Edges.TailDiscarded` says what is lost otherwise), answers a request without a position at the end of its log, and publishes only what still continues the log from where the client stands once it has sent a disconnect push (`Hangups.CoverageAfterHangup`) or an "already subscribed" without a result on a channel with deltas (`DeltaChain.AlreadySubscribedExactly`). That a client which holds itself subscribed is held by the server too is not promised: `ConcreteRuns.SubscribedAlone`.
- Anchoring.SettlesExactly: the condition is exact while the client is connected, reads, and has no disconnect push on its way; otherwise the requests outstanding are dropped with the connection and it is sufficient only.
- Edges.ConnectWritten: a connect command that is queued in an open batch never reaches the wire, so that handshake can only time out; the theorems include such attempts but promise nothing about them.
- Edges.WaitersStay: unsubscribing, by a handle or by the server, answers no waiter; `Callers.EveryCallerInOnePlace` counts them as waiting.
