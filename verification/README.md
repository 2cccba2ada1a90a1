# Verified model of the tx5 connection layers

tx5 lets peers exchange messages over WebRTC data channels, with a signal server as relay until
WebRTC is up and after it fails. This project models the layers between the application's `send`
and the transports, and proves what they promise for every input, every interleaving and every
run. `dafny verify dfyconfig.toml` checks all of it.

| file | what it models |
|---|---|
| `Core.dfy` | bytes, machine integers, results, lossy lanes |
| `Header.dfy` | the bit-packed 4-byte frame header |
| `Encoder.dfy` | frames, and the chunking encoder |
| `Decoder.dfy` | the stateful decoder, as a class and as functions on values |
| `Grammar.dfy` | what the decoder accepts, said without the decoder |
| `Framed.dfy` | the command loop of a framed connection, and `send_inner` |
| `Direction.dfy` | one direction of a connection as a machine that may lose frames and abandon sends |
| `Pair.dfy` | two peers, each a sender and a receiver at once, over two shared lanes |
| `Lossless.dfy` | the same pair when nothing is lost, and sends are given up early if at all |
| `Abandon.dfy` | what giving up a send late does to the sends after it |
| `Mesh.dfy` | any number of such connections that share semaphores |
| `RecvLimit.dfy` | any number of connections on one semaphore, with arbitrary bytes from outside |
| `Conn.dfy` | the connection below the framing: nonce handshake, WebRTC, fallback to the relay |
| `ConnLoops.dfy` | its three loops over whole lists of commands |
| `EndToEnd.dfy` | the framing pair on top of two connections |
| `SwitchRun.dfy` | one run of it, with a message on either side of the switch |
| `Webrtc.dfy` | the WebRTC task: send backpressure, offer and answer |
| `Negotiate.dfy` | the negotiation across two connection tasks and their WebRTC tasks |
| `Channel.dfy` | the shared, close-on-drop command channel |
| `Hub.dfy` | the hub's map from remote keys to connections |
| `Mem.dfy` | the in-memory backend: keys, slab, connect calls |
| `MaybeReady.dfy` | the one-shot readiness cell and its waiters |
| `Signal.dfy` | messages of the signal server, and the relay lane |

How to read it. Code that updates state in place is a class whose methods are proved equal to
functions on values (`ProtoDecoder`, `CmdTask`, `ConnTask`, `WebrtcTask`, `CloseSend`, `HubTask`,
`Stat`, `MaybeReadyCell`), and loops are methods with invariants (`ProtoEncode`, `SendChunks`,
`Retain`, `RecvMessage`). Concurrent parts are state machines over the same functions, with one
step from each await or lock to the next; runs are arbitrary sequences of steps. Fields called
history in the comments (the origin of a packet, the order of deliveries, the endpoint a call
reached) are recorded by the steps and read by none of them. The messages of a peer are those whose
send got the lock and was not given up before anything of the message was queued.

The results the rest leads up to:

- `EndToEnd.MessagesSurviveTheSwitch`: with both ends framing, losing frames at the switch from
  WebRTC to the relay, abandoning sends at any await and stopping anywhere, each end delivers whole
  messages of the other, in order, none twice. The chain is: every step of the whole is a lossy
  step of `Pair`, every step of `Pair` is a step of `Direction` in both directions, and
  `Direction.StepKeepsInv` holds the argument (a permit token that is never duplicated, FIFO, and
  "chunks whose lengths add up to the requested size are all the chunks").
- `Mesh.EveryRunDelivers`: without losses, and with sends given up early only, any number of
  connections sharing semaphores finish within a number of steps known at the start, with
  everything delivered that was not given up.
- `Abandon.LongAfterGivingUp` and `Abandon.SmallAfterGivingUp`: exactly when a message can still get
  through after a send was given up.
- `RecvLimit.MemoryIsBounded`: whatever bytes remotes send, permits are conserved and the bytes of
  unfinished messages fit the semaphore.
- `Negotiate.NegotiationAgrees` and `Negotiate.QuietIsDone`: what one backend applies is what the
  other generated, through events, relay and calls; and when nothing is on its way any more and
  neither side gave up, the negotiation is complete.
- `Hub.AcceptedIsSignals`: every connection gets exactly the signals of its peer, in order.
- `Grammar.DecoderRecognisesGrammar`: the decoder accepts exactly the histories of a declarative
  grammar, shuffled with alternating requests and grants of the other direction, and rejects all
  other bytes.

Points where the code does something a reader may not expect; the model follows the code:

- "A send after an abandoned one works" is false, and the await at which the send was given up
  decides it. While it waits for the lock, or has not queued its only frame or its registration,
  giving up is harmless (`Lossless`, `Mesh`, and the "if" halves in `Abandon`). Once the
  registration is queued, no later long message of that direction is ever delivered; once the
  permit request is queued, no later message at all, long or small (`Abandon.LateGivingUpBlocks`).
  Until the request is queued small messages still get through. Both conditions are exact
  (`Abandon.LongAfterGivingUp`, `Abandon.SmallAfterGivingUp`), and
  `Abandon.AbandonedSendEndsConnection` is a run for any two long messages.
- `parse_pub_key` of the in-memory backend looks at the second half of a key only. "Only the key
  that `listen` returned reaches the endpoint" is therefore false: `Mem.OtherKeysReachToo` gives,
  for every endpoint that stays up, another key that can only connect to it, and
  `Mem.ConnectsToItself` a run in which an endpoint passes the check against connecting to oneself
  and is connected to itself. The exact condition is `Mem.ReachedByAddress`: the calls that reach an
  endpoint are those for a key with its address; and the key of such a call is the endpoint's own
  if and only if its first half is the usual filling (`Mem.NoAba`).
- If the command channel of a connection closes during the handshake (a stale `Disconnect` does
  that), the handshake loop ends as if it had succeeded. Such a peer goes on without agreement, and
  it is the only kind that does; it neither sends nor receives anything (`Conn.HandshakeAgreement`).
- `SignalMessage::parse` ignores bytes after the tag of a keepalive and does not enforce the limit
  that `SignalMessage::message` enforces; `Signal.BuildUndoesParse` states the exact condition.
- The hub removes by key, so a late `Disconnect` of a dropped connection also shuts a newer one for
  the same key (`Hub.DisconnectIsByKey`; `Hub.StaleDisconnect` is a run). `Hub.OneOpenConnection`
  holds with such Disconnects at any point.

## Model

| member | source | states |
|---|---|---|
| Header.DecodeIsDivMod | crates/tx5-connection/src/proto.rs:57-75 | for all four bytes, reading bit ranges is division of the big-endian word: tag 2 is a version, 3 a whole message, 4 a chunk, 5 a permit request, 6 a grant, and all others are rejected |
| Header.DecodedBytes | crates/tx5-connection/src/proto.rs:57-75 | what any four bytes mean, by the value of the first byte |
| Header.EncodedBytes | crates/tx5-connection/src/proto.rs:78-123 | the four bytes of every header, from its big-endian digits |
| Header.EncodableHeaders | crates/tx5-connection/src/proto.rs:78-123 | exactly versions up to 31 and sizes up to 2^29 - 1 can be encoded, and which error the others give |
| Header.DecodeUndoesEncode | crates/tx5-connection/src/proto.rs:57-123 | decoding the encoding of any header in range gives the header back |
| Header.EncodeUndoesDecode | crates/tx5-connection/src/proto.rs:57-123 | any word with a known tag is encoded back to the same four bytes; every other word is an error |
| Header.Encode | crates/tx5-connection/src/proto.rs:78-123 | writing the bit ranges one after the other yields the arithmetic encoding, or the overflow error of the field that does not fit |
| Encoder.ChunkAt | crates/tx5-connection/src/proto.rs:145-188 | chunk i carries exactly bytes i * 16380 up to (i + 1) * 16380, cut at the end of the message |
| Encoder.ChunkingIsExact | crates/tx5-connection/src/proto.rs:145-188 | the payloads spell the message, their number is the length over 16380 rounded up, none is empty, all but the last are full, each frame fits 16 KiB |
| Encoder.ChunksInNumbers | crates/tx5-connection/src/proto.rs:145-188 | the limits of 16380 and 536870911 bytes, the number of chunks, and the header and bytes of each chunk, without the names of the constants |
| Encoder.ProtoEncode | crates/tx5-connection/src/proto.rs:145-188 | one frame for a short message, a permit request and the wire form of every chunk for a long one, an error above 2^29 - 1 bytes |
| Encoder.ParseUndoesWire | crates/tx5-connection/src/proto.rs:298-304 | reading header and payload from the bytes of a frame gives the frame back |
| Encoder.WireUndoesParse | crates/tx5-connection/src/proto.rs:298-304 | bytes that parse are the bytes of the frame they parse to |
| Decoder.ProtoDecoder.SentRemotePermitGrant | crates/tx5-connection/src/proto.rs:244-259 | only a decoder whose remote awaits a permit takes it, and then expects exactly the requested size; anything else fails the decoder |
| Decoder.ProtoDecoder.SentRemotePermitRequest | crates/tx5-connection/src/proto.rs:263-276 | records the sender to wake; a second request before the grant fails the decoder |
| Decoder.ProtoDecoder.DecodeChunk | crates/tx5-connection/src/proto.rs:279-296 | equals the pure decoder on every chunk of bytes, remembers the first error and refuses every later call |
| Decoder.ProtoDecoder.PrivDecode | crates/tx5-connection/src/proto.rs:298-376 | new state, result and woken sender of every branch equal those of the pure decoder, and the result is the one that the first byte, the size and the state call for |
| Decoder.VersionBytes | crates/tx5-connection/src/proto.rs:305-315 | a fresh decoder accepts exactly the chunks that begin with 0x42 and "tx5", and these are the bytes of the version frame |
| Decoder.DecodeSays | crates/tx5-connection/src/proto.rs:298-376 | the result or error for any bytes in any state, by the value of the first byte |
| Grammar.HalvesAreIndependent | crates/tx5-connection/src/proto.rs:244-376 | receiving and requesting share nothing but the error flag: a history is accepted exactly when each half is |
| Grammar.InputsAreEvents | crates/tx5-connection/src/proto.rs:279-304 | a history of arbitrary bytes is the history of the frames they parse to, and is rejected if some do not parse |
| Grammar.DecoderRecognisesGrammar | crates/tx5-connection/src/proto.rs:206-376 | a history of arbitrary bytes and calls is accepted if and only if all bytes parse, the frames are a version frame, whole messages and at most one unfinished message, and requests and grants alternate |
| Grammar.AcceptedHistoryMeans | crates/tx5-connection/src/proto.rs:298-376 | what an accepted history has delivered, what it has collected, and whether a grant is still wanted |
| Grammar.BytesAreConserved | crates/tx5-connection/src/proto.rs:313-355 | the payload bytes accepted are the delivered messages followed by the bytes being collected |
| Grammar.ErrorIsFinal | crates/tx5-connection/src/proto.rs:279-296 | after one failed call, bytes that do not parse included, no later call succeeds, delivers or changes anything |
| Grammar.ChunksMakeProgress | crates/tx5-connection/src/proto.rs:331-355 | every accepted chunk strictly lowers the bytes still wanted, and completes the message exactly when none are |
| Grammar.DecodeUndoesEncodeAll | crates/tx5-connection/src/proto.rs:145-376 | feeding the frames of any messages, with the other direction's requests and grants shuffled in, delivers exactly those messages and leaves the decoder ready and empty |
| Grammar.DecodeWire | crates/tx5-connection/src/proto.rs:279-304 | decoding the bytes of a frame is decoding the frame |
| Framed.CmdTask.Recv | crates/tx5-connection/src/framed.rs:89-134 | a received chunk delivers a message, spawns one waiting acquire, wakes the granted sender, or ends the loop on an error |
| Framed.CmdTask.AwaitPermit | crates/tx5-connection/src/framed.rs:135-153 | registers the local sender and tells it so, or ends the loop |
| Framed.CmdTask.RemotePermit | crates/tx5-connection/src/framed.rs:154-181 | hands the permit to the decoder and queues the bytes of exactly one grant with the permit's length |
| Framed.SendInner | crates/tx5-connection/src/framed.rs:253-296 | however its awaits end, the frames queued are the first ones of the message: none before registration, no chunk before the grant, all exactly on success |
| Framed.SendChunks | crates/tx5-connection/src/framed.rs:289-291 | the loop queues the permit request and then the chunks in order, up to the first one the connection does not take |
| Framed.OnWire | crates/tx5-connection/src/framed.rs:92-134 | handling the bytes of a frame is handling the frame |
| Direction.StepKeepsInv | crates/tx5-connection/src/framed.rs:86-296 | sending, cancelling, losing, granting, receiving and dying keep frames genuine and in order, deliveries whole and in order, the token single, and chunks only where they are wanted |
| Direction.ChunkIsCollected | crates/tx5-connection/src/proto.rs:331-355 | a chunk continues the collected prefix or follows a loss; a full collection is the whole message |
| Direction.OneTokenAtMost | crates/tx5-connection/src/proto.rs:263-276 | requests under way, permits awaited and grants under way are at most one, and only while a grant is wanted |
| Pair.ActIsStep | crates/tx5-connection/src/framed.rs:86-296 | each action of a peer on its one decoder and two lanes is one step of each direction |
| Pair.StepsFollowSendInner | crates/tx5-connection/src/framed.rs:253-296 | the stepped sender of the runs queues exactly the frames of `send_inner`, one after the other, and only giving up drops the rest |
| Pair.PermitFits | crates/tx5-connection/src/framed.rs:154-162 | a queued permit is for the length the decoder awaits, so handing it over never fails |
| Pair.NextKeepsInv | crates/tx5-connection/src/framed.rs:86-296 | every step of two peers, losses included, keeps the invariant of both directions |
| Pair.DeliveredIsSubsequence | crates/tx5-connection/src/framed.rs:253-296 | over lanes that lose any frames, with sends abandoned and loops stopped anywhere, each end delivers an in-order subsequence of what the other sent, every message whole |
| Pair.PermitToken | crates/tx5-connection/src/framed.rs:132-181 | in every run the token is single in each direction, and every grant under way answers the registered request with that message's length |
| Lossless.StepKeepsExact | crates/tx5-connection/src/framed.rs:86-296 | without losses the packets under way are exactly those between sender and receiver, also after a send was given up early |
| Lossless.LiveStepCounts | crates/tx5-connection/src/framed.rs:86-296 | every step of two honest peers lowers the work left, and accounts for every message as sent, given up or still to send |
| Lossless.DeliveredIsPrefix | crates/tx5-connection/src/framed.rs:86-296 | with sends given up early only, no decoder ever fails and what each end has delivered is a prefix of the messages the other did not give up |
| Mesh.MeshStep | crates/tx5-connection/src/framed.rs:86-296 | a step of any connection keeps every connection exact and lowers the total work left |
| Mesh.NeverStuck | crates/tx5-connection/src/framed.rs:111-131 | until all is delivered, some step that gives nothing up needs no permit, or every waiting acquire can be served, in particular the oldest |
| Mesh.EveryRunDelivers | crates/tx5-connection/src/framed.rs:86-296 | every run of any number of connections that share semaphores ends within the initial measure, with all messages delivered that were not given up |
| Mesh.EverythingIsDelivered | crates/tx5-connection/src/framed.rs:86-296 | if nobody gives up, a finished connection has delivered exactly the messages its ends were to send |
| Mesh.CanFinish | crates/tx5-connection/src/framed.rs:86-296 | from every reachable state a run leads to the end without giving anything up |
| Mesh.DefaultServesAll | crates/tx5/src/config.rs:163 | the default of 512 MiB serves every message that can be encoded |
| Abandon.LateGivingUpBlocks | crates/tx5-connection/src/framed.rs:264-291 | after a send was given up once its registration was queued, no later long message is delivered in any continuation without loss, and no later message at all once its request was queued |
| Abandon.LongBlockedStays | crates/tx5-connection/src/framed.rs:135-149 | a registration left behind blocks later long messages for good, whatever is lost, given up or stopped |
| Abandon.AllBlockedStays | crates/tx5-connection/src/proto.rs:313-363 | a receiver that was asked for a permit takes nothing but the chunks of that message |
| Abandon.LongAfterGivingUp | crates/tx5-connection/src/framed.rs:253-296 | a later long message can still be delivered if and only if the send was given up while waiting for the lock or before it queued a frame or its registration |
| Abandon.SmallAfterGivingUp | crates/tx5-connection/src/framed.rs:253-296 | a later small message can still be delivered if and only if the permit request of the given up one had not been queued |
| Abandon.AbandonedSendEndsConnection | crates/tx5-connection/src/framed.rs:253-296 | for any two long messages there is a run in which abandoning the first makes the second end the command loop |
| RecvLimit.ChunkKeeps | crates/tx5-connection/src/proto.rs:331-363 | for any bytes, what a connection collects stays within the permits it holds and no permit is lost |
| RecvLimit.StepConserves | crates/tx5-connection/src/framed.rs:111-162 | opening, receiving anything, acquiring, granting, failing and closing conserve the permits |
| RecvLimit.MemoryIsBounded | crates/tx5-connection/src/framed.rs:111-162 | in every run available and held permits add up to the capacity, and all partly received bytes fit the held ones |
| Conn.ConnTask.HandshakeCmd | crates/tx5-connection/src/conn.rs:255-294 | answers the peer's nonce, checks the answer to its own, ignores other signals, fails on anything else, and leaves when both are done |
| Conn.ConnTask.WebrtcCmd | crates/tx5-connection/src/conn.rs:443-649 | what each command passes on, sends, relays, falls back on or closes for; a generated offer is relayed as an offer, and a relayed offer is handed to the backend as one |
| Conn.ConnTask.FallbackCmd | crates/tx5-connection/src/conn.rs:652-691 | only relayed messages and sends count, in order |
| Conn.NextHeard | crates/tx5-connection/src/conn.rs:255-294 | the next relay message is the one the handshake calls for, and none is a handshake message after it |
| Conn.HandshakeAgreement | crates/tx5-connection/src/conn.rs:248-297 | a peer past the handshake has answered the other's nonce and was answered, unless and only if its command channel closed during the handshake, and then it is silent; no nonce mismatches and no message is read by the wrong loop |
| Conn.ConnTask.ChannelClosed | crates/tx5-connection/src/conn.rs:255-297 | a closed command channel ends the handshake like a success and every other loop for good |
| Conn.HungUpGoesOn | crates/tx5-connection/src/conn.rs:255-297 | a run in which the command channel closes during the handshake and WebRTC is attempted although nothing was agreed |
| ConnLoops.HandshakeLoop | crates/tx5-connection/src/conn.rs:255-294 | over any commands: what the handshake loop sends, and exactly when it fails, goes on or is over |
| ConnLoops.WebrtcLoop | crates/tx5-connection/src/conn.rs:443-649 | over any commands: the signals, calls, frames received and frames sent, in order, and exactly which command falls back (the timeout only before the first Ready) or closes |
| ConnLoops.RelayLoop | crates/tx5-connection/src/conn.rs:652-691 | over any commands: what the relay loop sends and passes on, and that only a frame that is not taken ends it |
| ConnLoops.HangUpEnds | crates/tx5-connection/src/conn.rs:255-297 | a closed command channel leads from the handshake to WebRTC, ends the other loops, and changes nothing else |
| Conn.SwitchKeepsOrder | crates/tx5-connection/src/conn.rs:444-691 | whatever makes either side fall back, frames received are a prefix of those sent over WebRTC, then a prefix of those relayed: after the fallback, all of the relayed ones read so far |
| Conn.LanesHoldWhatWasSent | crates/tx5-connection/src/conn.rs:607-690 | what a side put on WebRTC followed by what it put on the relay is exactly what it accepted to send, in order |
| Conn.StepNeverGoesBack | crates/tx5-connection/src/conn.rs:295-341 | phases only go forward, and after a fallback no frame goes to WebRTC |
| EndToEnd.ConnStepKeeps | crates/tx5-connection/src/conn.rs:444-691 | a step of a connection only moves frames along the lane or loses a stretch of it |
| EndToEnd.FramingStepKeeps | crates/tx5-connection/src/framed.rs:69-185 | a framing step on what has arrived is a step of the pair on the whole lane |
| EndToEnd.MessagesSurviveTheSwitch | crates/tx5-connection/src/framed.rs:253-296 | through handshake, WebRTC, switch and relay each end delivers an in-order subsequence of whole messages |
| SwitchRun.BothArrive | crates/tx5-connection/src/conn.rs:594-691 | for any two small messages a run delivers the first over WebRTC and, after the fallback, the second over the relay |
| Webrtc.WebrtcTask.HandleOffer | crates/tx5-connection/src/webrtc/libdatachannel.rs:290-304 | only a polite side without a handshake applies an offer, and it answers the one it applies; a failure ends the loop |
| Webrtc.WebrtcTask.HandleAnswer | crates/tx5-connection/src/webrtc/go_pion.rs:230-238 | only an impolite side without a handshake applies an answer, and go-pion spends its offer on the first |
| Webrtc.OneDataChannel | crates/tx5-connection/src/webrtc/libdatachannel.rs:337-349 | one data channel is ever in use, the impolite side's own or the first the polite side gets; one too many ends libdatachannel's loop and only that |
| Webrtc.WebrtcTask.HandleSendMessage | crates/tx5-connection/src/webrtc/libdatachannel.rs:350-376 | all responders are dropped when the buffered amount is within the limit, else this one is held |
| Webrtc.FlowKeeps | crates/tx5-connection/src/webrtc/go_pion.rs:252-276 | posting, sending, reading the amount and draining keep the flow invariant, with the event as in section 6.2 of W3C WebRTC 1.0 |
| Webrtc.Backpressure | crates/tx5-connection/src/webrtc/libdatachannel.rs:350-408 | at most one responder is held, the buffer exceeds the limit by at most one message, and a held responder means a full buffer or a queued event: no wake-up is lost |
| Webrtc.ExactlyOnePolite | crates/tx5-connection/src/hub.rs:179-222 | of two peers with distinct keys exactly one is polite |
| Webrtc.PoliteMeans | crates/tx5-connection/src/hub.rs:179-222 | a peer is polite when the other key has the larger byte where the two first differ, or goes on where its own ends |
| Webrtc.NegotiationIsGlareFree | crates/tx5-connection/src/webrtc/libdatachannel.rs:266-315 | with descriptions delayed, reordered and repeated, each side applies at most one: the polite side the offer the other made, and that side the answer made to its offer, for either backend on either side |
| Webrtc.OfferIsAnswered | crates/tx5-connection/src/webrtc/libdatachannel.rs:290-304 | from any state of a run, an offer that arrives at the running polite side and is accepted is applied, and answered |
| Webrtc.AnswerIsApplied | crates/tx5-connection/src/webrtc/go_pion.rs:230-238 | from any state of a run, an answer that arrives at the running impolite side and is accepted is applied |
| Webrtc.TakesNow | crates/tx5-connection/src/webrtc/go_pion.rs:219-238 | what one arrival adds to the applied and made descriptions, and when it ends the task |
| Webrtc.AppliedIsTaken | crates/tx5-connection/src/webrtc/libdatachannel.rs:290-315 | in every run a side has applied a description exactly when one of its kind arrived while it ran and the backend took it, and then the first one |
| Webrtc.AcceptedIsDone | crates/tx5-connection/src/webrtc/libdatachannel.rs:290-315 | while the backends accept everything, a side is done exactly when its description has arrived |
| Negotiate.HandleSays | crates/tx5-connection/src/conn.rs:525-593 | a command adds to the descriptions on the relay exactly the one it is about, if its backend generated it and the relay took it |
| Negotiate.StepKeeps | crates/tx5-connection/src/conn.rs:471-593 | every step of either side keeps what is said, heard, asked and applied in line with what the backends made |
| Negotiate.NegotiationAgrees | crates/tx5-connection/src/conn.rs:443-649 | through events, relay and calls, in every run: the polite backend applies nothing but the offer that the other backend generated, and that one nothing but the answer generated for it |
| Negotiate.QuietIsDone | crates/tx5-connection/src/conn.rs:443-649 | when both sides still run WebRTC and nothing is on its way, the offer was applied and answered, and the answer applied |
| Negotiate.NegotiationRun | crates/tx5-connection/src/conn.rs:255-593 | for any two peers, offer and answer, a run from the first nonce to both descriptions applied |
| Channel.CloseSend.Clone | crates/tx5-connection/src/lib.rs:56-63 | a clone shares the cell and does not inherit the duty to close |
| Channel.CloseSend.Drop | crates/tx5-connection/src/lib.rs:65-74 | a marked handle empties the shared cell and closes the channel |
| Channel.CloseSend.SendOrClose | crates/tx5-connection/src/lib.rs:92-106 | a message gets through an open channel with room; otherwise the channel is shut for all |
| Channel.ShutForAll | crates/tx5-connection/src/lib.rs:65-144 | once one handle has shut the channel, no handle, old or cloned later, gets a message through |
| Channel.OpenUntilShut | crates/tx5-connection/src/lib.rs:56-144 | an open channel stays open exactly as long as no operation shuts it, however many handles come and go |
| Channel.AcceptedIsSent | crates/tx5-connection/src/lib.rs:92-144 | what the channel accepts is everything sent before it is shut, in order |
| Channel.UnmarkedNeverShut | crates/tx5-connection/src/lib.rs:56-74 | handles that were not marked, clones included, never shut the channel |
| Channel.MarkedDropShuts | crates/tx5-connection/src/lib.rs:65-90 | dropping a handle after marking it shuts the channel |
| Channel.CloneIsUnmarked | crates/tx5-connection/src/lib.rs:56-74 | dropping a clone, even of a marked handle, leaves the channel as it is |
| Hub.HubTask.Retain | crates/tx5-connection/src/hub.rs:34-44 | visiting the entries in any order removes and shuts exactly those whose connection is gone |
| Hub.HubTask.HubMapAssert | crates/tx5-connection/src/hub.rs:27-54 | finds the live connection of a key and hands it the message, or begins to make one with the message pending |
| Hub.HubTask.OnCliRecv | crates/tx5-connection/src/hub.rs:171-212 | a signal from oneself is ignored, any other is the next command of the live connection of its sender |
| Hub.HubTask.OnConnect | crates/tx5-connection/src/hub.rs:213-240 | refuses exactly one's own key |
| Hub.HubTask.OnAsserted | crates/tx5-connection/src/hub.rs:54-77 | enters a fresh, open connection with its role, or gives up |
| Hub.HubTask.OnDisconnect | crates/tx5-connection/src/hub.rs:241-250 | removes the entry of a key, whoever it is for, and shuts it |
| Hub.StepKeeps | crates/tx5-connection/src/hub.rs:169-253 | every command and every drop keeps open connections in the map |
| Hub.OneOpenConnection | crates/tx5-connection/src/hub.rs:27-78 | after any commands, stale Disconnects included, an open connection is the map's entry for its key: one per key at most, none to oneself, none after the hub stopped |
| Hub.DisconnectIsByKey | crates/tx5-connection/src/hub.rs:241-250 | after a Disconnect no connection for its key is open, old or new, and all others are untouched |
| Hub.SignalReaches | crates/tx5-connection/src/hub.rs:171-212 | a signal is appended to the commands of the live connection of its sender if that is open and has room, and to no other |
| Hub.FirstSignalWaits | crates/tx5-connection/src/hub.rs:54-77 | without a live connection the signal waits for one to be made, and is its first and only command; if it cannot be made, nothing changes |
| Hub.ConnectFinds | crates/tx5-connection/src/hub.rs:213-240 | connecting finds the live connection, or begins to make one that has no command |
| Hub.AcceptedIsSignals | crates/tx5-connection/src/hub.rs:169-212 | in every run the commands of a connection are exactly the signal it was made for and the signals of its key that arrived while it was open, held and had room, in order |
| Hub.StaleDisconnect | crates/tx5-connection/src/conn.rs:48-60 | a run in which the Disconnect of a dropped connection shuts a newer one of the same key that is open and in use |
| Hub.OppositeRoles | crates/tx5-connection/src/hub.rs:179-222 | the connections two hubs hold for each other have opposite roles |
| Mem.ParseUndoesGen | crates/tx5/src/backend/mem.rs:103-123 | parsing a generated key gives number and slot back |
| Mem.GenUndoesParse | crates/tx5/src/backend/mem.rs:103-123 | a parsed key is generated back if and only if its first half is the usual filling |
| Mem.KeyLayout | crates/tx5/src/backend/mem.rs:103-111 | a key is sixteen bytes 0xb7, then the number and the slot, both big-endian |
| Mem.RemoveTakesOwnSlot | crates/tx5/src/backend/mem.rs:132-196 | a drop finds its own dead entry in its slot, removes it, and leaves every live endpoint where it is |
| Mem.StepKeeps | crates/tx5/src/backend/mem.rs:185-268 | every interleaved step keeps numbers unique, slots exact and pairs crosswise |
| Mem.NoAba | crates/tx5/src/backend/mem.rs:198-268 | a successful connect reached the endpoint with the address of its key, whose own key this is if and only if its first half is the usual filling; the two ends hold one pair crosswise, and nobody else has that pair |
| Mem.LiveTargetIsReached | crates/tx5/src/backend/mem.rs:212-268 | a call for any key with the address of an endpoint that stays up can only end by connecting to it |
| Mem.ReachedByAddress | crates/tx5/src/backend/mem.rs:212-268 | while an endpoint stays up, the calls that connect to it are exactly those for a key with its address |
| Mem.ToSelfIsOwnKey | crates/tx5/src/backend/mem.rs:156-167 | in every run a call is refused as a call to oneself exactly when it is for the key of its own endpoint |
| Mem.HowCallsEnd | crates/tx5/src/backend/mem.rs:212-268 | why a call ends the way it does, and that only one that connects puts anything, one end of a new pair, into an inbox |
| Mem.ClosedGetsNothing | crates/tx5/src/backend/mem.rs:259-265 | once the receiver of an endpoint is dropped, nothing more is handed to it in any run |
| Mem.SlabEmpties | crates/tx5/src/backend/mem.rs:185-210 | the slab holds exactly the endpoints whose drop has not finished, and is empty if and only if all have |
| Mem.OtherKeysReachToo | crates/tx5/src/backend/mem.rs:212-268 | for every endpoint that stays up, a call for another key than its own can only end by connecting to it |
| Mem.ConnectsToItself | crates/tx5/src/backend/mem.rs:156-167 | a run in which an endpoint is called by its own key with another first byte, passes the check against connecting to oneself, and is connected to itself |
| Mem.Stat.Listen | crates/tx5/src/backend/mem.rs:198-210 | a new endpoint in a vacant slot, with the key of its number and slot |
| Mem.Stat.RemoveEp | crates/tx5/src/backend/mem.rs:185-196 | removes an entry that cannot be upgraded, or one with the same number |
| Mem.Stat.FinishConnect | crates/tx5/src/backend/mem.rs:239-267 | checks the number, makes two pairs crosswise and hands one end over, or says why not |
| MaybeReady.MaybeReadyCell.SetReady | crates/tx5/src/peer/maybe_ready.rs:31-53 | decides an undecided cell and closes its semaphore; a decided one stays |
| MaybeReady.MaybeReadyCell.SetFailed | crates/tx5/src/peer/maybe_ready.rs:55-74 | the same for a failure |
| MaybeReady.DecidedOnce | crates/tx5/src/peer/maybe_ready.rs:31-74 | the cell leaves the wait state at most once |
| MaybeReady.OneAnswerForAll | crates/tx5/src/peer/maybe_ready.rs:20-98 | whoever locks after the semaphore closed finds a decision some setter asked for, no sleeper lacks its wake-up after it, every waiter is told the connection if the cell is ready and nothing if it failed, the unexpected branch is never taken, and a query finds a connection only if it was decided on |
| MaybeReady.QueryFinds | crates/tx5/src/peer/maybe_ready.rs:20-29 | a query that was not over when the cell became ready finds its connection |
| MaybeReady.MaybeReadyCell.QueryReady | crates/tx5/src/peer/maybe_ready.rs:20-29 | finds a connection exactly when the cell is ready with it |
| MaybeReady.SetterDecides | crates/tx5/src/peer/maybe_ready.rs:31-74 | between lock and unlock, whatever others do, the stepped setter makes of the cell exactly what its method does |
| MaybeReady.AnswersAgree | crates/tx5/src/peer/maybe_ready.rs:76-98 | answers given to different waiters at different times agree |
| MaybeReady.NobodyIsForgotten | crates/tx5/src/peer/maybe_ready.rs:76-98 | when no task can move, all are done, except waiters asleep where no setter was ever called |
| MaybeReady.StepsRunOut | crates/tx5/src/peer/maybe_ready.rs:31-98 | every step lowers the work left, so that rest is reached |
| Signal.ParseUndoesBuild | crates/tx5-signal/src/wire.rs:55-150 | every message that can be built is parsed as itself, and only a message over 16 KiB cannot be built |
| Signal.BuildUndoesParse | crates/tx5-signal/src/wire.rs:55-150 | parsed bytes are built back if and only if they are no keepalive with a body and no message over the limit |
| Signal.ParseMeans | crates/tx5-signal/src/wire.rs:110-150 | what any bytes parse to, by the four letters they begin with, and what is wrong with those that do not |
| Signal.EveryFrameIsRelaySafe | crates/tx5-connection/src/proto.rs:145-188 | all frames of every message pass the relay unchanged |
| Signal.RecvMessage | crates/tx5-signal/src/conn.rs:28-42 | returns the next understood message, skips unknown ones and closes exactly the senders of bytes that do not parse |
| Signal.OneRaw | crates/tx5-signal/src/conn.rs:28-42 | among any others, a raw message closes its sender exactly when it does not parse, and is returned exactly when it is understood |
| Signal.RelayDeliversInOrder | crates/tx5-signal/src/conn.rs:28-42 | whatever peers build arrives complete and in order, and closes nobody |

## Left out

- Bounded queues and the one-minute limit of `CloseSend::send`: queues are unbounded where progress is proved, and a send that fails or times out is an ordinary step everywhere else.
- Real time: every timeout, keepalive and idle close is a step that may happen at any moment.
- Progress with lossy lanes: after a loss the receiver may wait for bytes that never come, so only safety is claimed there. What sends given up late leave possible without loss is in `Abandon`.
- Progress against dishonest remotes: a permit request of size 0 leaves the decoder with no chunk it would accept; only the memory bound and the grammar are claimed.
- Handshake messages left over from an earlier session: the handshake is proved for one session per pair.
- Nonces are numbers that the two sides choose; that they are random is not modelled and not needed.
- The oneshot that wakes a granted sender takes effect in the same step as the grant that triggers it, and so does the one that confirms a registration.
- A failure of the grant's own send inside the command loop is the grant being lost and the loop stopping afterwards.
- The signal server, encryption, the WebRTC libraries and their callbacks: only FIFO lanes, the buffered-amount-low event (crossing the threshold and queueing the event are one step) and the outcome of each call are taken from them.
- The end of the WebRTC task drops all responders at once and so wakes its sender; the flow model stops before that.
- A backend makes one offer, at the start, and one answer, to the offer it applied; renegotiation is not modelled. The answer is made in the step that applies the offer, and the event about it may come any time later.
- Trickle ICE candidates are passed through by both backends and have no effect on the model.
- Mem.Stat.Listen: drawing the number and taking the lock are separate steps, and the number is bounded by 2^64 listens, where the counter would wrap.
- Slots and numbers of the in-memory backend are 64 bits wide; on a 32-bit platform `parse_pub_key` would truncate the slot.
- Poisoned mutexes: a panic while a lock is held is not modelled.
- `EpInner::peer_map`, where `drop_peer_url` removes by key, so that one live peer per URL is not promised; and `message_size_max`, which is configured but not enforced by the code modelled here.
- URLs, statistics, configuration builders, logging, the event queue, signal backoff, the file cache and the demo: they would only add easy members.
