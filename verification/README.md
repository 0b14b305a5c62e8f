# AWEngine packet protocol: model and proofs

The library exchanges packets between one server and many clients over TCP. This project models the
protocol in three layers and proves what the layers promise together: what a client's `Send` accepted
reaches the server's message handler once, in order and whole.

1. **Bytes.** `PacketBuffer` (a vector with a lazy start offset) refines a plain FIFO byte sequence,
   and its stream operators are a self-delimiting code. Locale, Ping, Init and the game name are
   packets written with it.
2. **One connection.** `ConnectionSpec` says what each call and each completion handler of
   `Connection` does to its state; the class `Connections.Connection` updates the same fields in place
   and is proved to do exactly that, for any step in any order (`Do`). `Links` joins two endpoints by
   two byte streams and proves, for every run, what each side has received. `Calm`, `Drain`,
   `KeepAlive`, `Overlap` and `InitStop` add what holds when both ends use the reserved packets as
   intended.
3. **The server.** `Servers.PacketServer` holds the connection list and drains the shared queue.
   `Hubs` joins any number of links, the shared queue and `Update`, and `Objects` shows that the
   classes take the steps of links and hubs. `QueueLocks` opens the queue up to single lock operations
   of any number of threads.

| file | contents |
|---|---|
| Bytes.dfy | bytes, little-endian integers |
| Codec.dfy | the wire format of the stream operators |
| PacketBuffer.dfy | the FIFO specification and the buffer class |
| Locale.dfy, Packets.dfy | locales, game name, Init, Ping |
| Framing.dfy | headers, frames, unique parsing of a stream of frames |
| ConnectionSpec.dfy, ConnectionSound.dfy | one endpoint, and the invariant each of its steps keeps |
| Link.dfy | two endpoints and the wire, over all runs |
| Outcomes.dfy | when an endpoint closes, throws, answers and is stamped, and what is on the wire, said outright |
| Calm.dfy, Drain.dfy | runs between two ends of this library: nothing throws, and everything sent can still arrive |
| KeepAlive.dfy, Overlap.dfy, InitStop.dfy | pings, pongs and the periodic check; what two pings at once, and an Init, lead to |
| QueueLocks.dfy, ThreadSafeQueue.dfy | the queue by lock operations, and as its callers see it |
| Connection.dfy, PacketServer.dfy | the classes |
| Hub.dfy | many connections, one queue, Update on another thread; peers not of this library |
| Objects.dfy | the objects take the steps of links and hubs |

## Reading the model

- An endpoint is a value `Conn` of a `Writer` half and a `Reader` half. Histories (accepted, finished
  and received packets; emitted and consumed bytes; asynchronous operations started and ended; the
  time of the last pong) are recorded in it so that a state can be compared with the past. In the
  class these are ghost fields.
- A run is a list of moves, in any order. A move that is not enabled changes nothing. Moves are the
  application's calls, a posted handler running, some bytes of a pending write leaving, some bytes
  arriving for a pending read, completions, failures and the end of the connect.
- The io_context has one thread: handlers are atomic and posts run first in, first out. A throw in a
  handler ends that endpoint (`crashed`). In `Hubs` the other connections may still go on, which
  allows more runs than the code has.
- `Send` is called when it neither throws to its caller nor reads outside the body, and with a body of
  at most 65535 bytes (`CanSend`). `FrameReadBackIff` shows that this limit is exact.
- The host is little-endian. TCP is an ordered byte stream with arbitrary fragmentation, as in
  section 2.2 of RFC 9293.
- The reserved packet IDs are 0xF0 and 0xF1, the defaults of `PacketServer`. In the code they are
  template parameters; nothing depends on more than that they differ.
- Callbacks are logged and change neither the connections nor the queue. `ConnectToServer` is called
  once per connection. Times are integers; keep-alive payloads are 64-bit.

## Where the code differs from what one would expect

- The server stops reading at the first valid Init, and does not queue it (Connection.hpp:349-354).
  Unless a handler threw it has stopped if and only if it received an Init
  (`EveryRunStopsExactlyAtInit`), for good (`RunStaysStopped`), and such runs exist
  (`InitStopsServer`).
- PacketClient.hpp:164-172 always connects with an Init. Of such a client nothing is ever delivered and
  no pong counts (`InitClientIsNeverHeard`), so every check later than the allowed delay after it was
  accepted removes it, however well it answers (`InitClientIsRemoved`, `OpenInitClientIsRemoved`). That
  is why `NeverRemovedWhileOpen` is about clients that send no Init. `StoppedIsRemoved` says the same
  of an Init sent later.
- The reader of a game name takes its target by value, so a decoded Init has an empty game name,
  although ProtocolGameName.hpp:75 speaks of filling it (`InitRoundTripIff` is the exact condition).
- A vector or array of elements wider than one byte does not survive the round trip, and what the
  target vector held before may show (`VectorRoundTripIff`, `VectorReadBack`, `ArrayReadPositionIff`).
- A message without a body is delivered with the body of the last message that had one (`InOrder`). The
  body is the one sent if and only if it is not empty or there was none before (`BodyDeliveredIff`,
  `BodyIsRepeated`).
- The test on the size of an outgoing ping looks at the size in network order (Connection.hpp:452). It
  lets bodies of 1 to 7 bytes through, which are then read past their end, and refuses bodies of 256,
  512, ... and 1792 bytes (`SendReadsInsideIff`, `SizeTestMeansLengthIff`, `SizeTestFails`).
- The index of a single-byte peek is a 32-bit sum. When it wraps, a byte that was read before is
  returned instead of a throw (`PeekIsFifoIff`, `PeekFails`).
- Ping.hpp:11 promises that a connection is terminated when the pong has another payload. With two
  different pings in flight the first pong already carries another payload than the last ping, so an
  honest client is marked for removal until its last pong arrives, and a check in between removes it
  (`OverlappedPongStampsEpoch`, `OverlapStampsEpoch`, `HonestClientIsRemoved`).
- LocaleInfo.hpp:132 promises that the reader takes four bytes. With a short buffer and an empty or
  invalid language it skips past the end and returns an empty locale (`ReadLocale`, `SkipFails`).
- A message with the Compressed flag is refused only when it has a body. Without one it is queued, and
  makes Update throw (`CompressedArrivesBodyless`, `CompressedBodylessIsDelivered`, `ThrowsIff`).

## Model

| member | source | states |
|---|---|---|
| Links.DeliveredIsPrefixOfSent | src/AWEngine/Packet/Util/Connection.hpp:151-370 | In every reachable state, under any fragmentation, interleaving, failure or close, each side has delivered a prefix of what the other side's Send accepted: nothing lost, repeated, reordered or merged, bodies equal whenever there is one; the server never delivers an Init |
| Links.NothingLost | src/AWEngine/Packet/Util/Connection.hpp:151-370 | Once a direction has nothing posted, queued, on the wire or half read, what was received is exactly what Send accepted, and all of it has been delivered in order |
| Links.RunKeeps | src/AWEngine/Packet/Util/Connection.hpp:151-476 | Every reachable state ties posts, outgoing queue, partly written frame, bytes on the wire, partly read frame and deliveries together |
| Links.ReceivedIsSent | src/AWEngine/Packet/Util/Connection.hpp:230-307 | Whoever reads a stream of frames has received a prefix of the packets the writer has started to write |
| Links.EveryRunAccounts | src/AWEngine/Packet/Util/Connection.hpp:141-145 | In every run: accepted = posted + queued + sent counter; received counter = delivered, plus one only for a message that stopped the connection; a peer's received counter exceeds the sent counter by at most one, and by none when nothing is queued |
| Links.EveryRunHasOneWriterOneReader | src/AWEngine/Packet/Util/Connection.hpp:461-475 | In every run, of the asynchronous writes started at most one has not ended: with the socket open none if the outgoing queue is empty and one otherwise. Every byte in flight is of the unchanged front message, header before body. Of the reads started exactly one has not ended until a throw, a close or a valid Init, then none |
| Outcomes.EveryMessageOnWire | src/AWEngine/Packet/Util/Connection.hpp:151-227 | In every run, what either side hands to the socket is the packets its Send accepted one after the other, each as ID, zero flags, the size with its high byte first, and the body |
| Outcomes.DisconnectCloses | src/AWEngine/Packet/Util/Connection.hpp:421-425 | In every run, a connected end that was asked to disconnect is closed, or a handler threw, as soon as its posts have run |
| Outcomes.ClosedStaysClosed | src/AWEngine/Packet/Util/Connection.hpp:421-425 | In every run, a closed end that is not connecting stays closed |
| Outcomes.DisconnectIff | src/AWEngine/Packet/Util/Connection.hpp:421-425 | A close is posted if and only if connected, and nothing else changes |
| Outcomes.PostClosesIff | src/AWEngine/Packet/Util/Connection.hpp:424 | A post that runs leaves the posts; the socket is open afterwards if and only if it was and the post is a send |
| Outcomes.FailureCloses | src/AWEngine/Packet/Util/Connection.hpp:186-192 | A failed write or read closes the socket |
| Outcomes.PostThrowsIff | src/AWEngine/Packet/Util/Connection.hpp:153-154 | A posted send throws if and only if it has to start a write and there is no connection |
| Outcomes.WriteThrowsIff | src/AWEngine/Packet/Util/Connection.hpp:182-183 | The end of a write throws if and only if a message is done, another waits and there is no connection |
| Outcomes.WriteIsTimed | src/AWEngine/Packet/Util/Connection.hpp:176-179 | A message that is done leaves the queue, is counted and timed; a header before a body changes none of that |
| Outcomes.MessageThrowsIff | src/AWEngine/Packet/Util/Connection.hpp:309-357 | A whole message throws if and only if it is a keep-alive with flags, another size than 8 or no connection to answer over, or on the server an Init with flags, another size than 17 or a next step over 1 |
| Outcomes.MessageIsDelivered | src/AWEngine/Packet/Util/Connection.hpp:349-369 | Every other message is queued and the next one awaited, but for an Init on the server |
| Outcomes.MessageIsTimed | src/AWEngine/Packet/Util/Connection.hpp:306-307 | Every whole message is counted and timed, and moves the keep-alive stamp only if it is a keep-alive |
| Outcomes.PongIsTimed | src/AWEngine/Packet/Util/Connection.hpp:325-332 | A pong stamps the server's connection with the time it is processed if it has the expected payload, with the epoch otherwise |
| Outcomes.PingIsAnswered | src/AWEngine/Packet/Util/Connection.hpp:316-323 | A ping stamps the client's connection and is answered with its own body |
| Outcomes.CompressedIsBitZero | src/AWEngine/Packet/ProtocolInfo.hpp:18-24 | Compressed is bit 0 of the flags |
| Outcomes.CreatedIs | src/AWEngine/Packet/Util/Connection.hpp:70-80 | A new connection has all its times at its creation and nothing pending |
| Outcomes.ConnectToServerIs | src/AWEngine/Packet/Util/Connection.hpp:393-394 | A connection that starts to connect remembers the packet to send first and changes nothing else |
| Outcomes.EveryPairStarts | src/AWEngine/Packet/Util/Connection.hpp:373-394 | Any accepted connection and any connecting one, with any first packet that fits, are the start of runs |
| Outcomes.ConnectToClientIff | src/AWEngine/Packet/Util/Connection.hpp:378-381 | It starts reading if and only if the socket is open |
| Outcomes.ConnectedIff | src/AWEngine/Packet/Util/Connection.hpp:400-416 | After a connect it is open and reading if and only if that succeeded, and then has sent its first packet, if any |
| Links.ActMoves | src/AWEngine/Packet/Util/Connection.hpp:158-193 | A step hands to the wire exactly what it records as emitted, and takes exactly what it records as consumed |
| ConnectionSound.ActKeeps | src/AWEngine/Packet/Util/Connection.hpp:148-477 | Every step of an endpoint keeps its invariant, whatever bytes arrive, also from a peer that is not of this library |
| ConnectionSound.BodyCompletesMessage | src/AWEngine/Packet/Util/Connection.hpp:275-289 | A complete body closes the socket of a compressed message, with nothing counted or delivered; otherwise header and body are the next message received |
| ConnectionSound.DeliveredLast | src/AWEngine/Packet/Util/Connection.hpp:243-247 | The copy of a message without a body carries the last body before it |
| Links.BodyDeliveredIff | src/AWEngine/Packet/Util/Connection.hpp:243-247 | A delivered copy has the body that was sent if and only if that is not empty or no earlier message had one |
| Calm.CalmRunsStayHealthy | src/AWEngine/Packet/Util/Connection.hpp:309-357 | In every run without failures or close between two ends of this library that use the reserved IDs for Ping and Init only, neither end throws or closes |
| Calm.PackedIsWelcome | src/AWEngine/Packet/ToServer/Login/Init.hpp:70-73 | The encoders yield messages without flags, of 8 and 17 bytes and with a known next step, as the receiver checks |
| Drain.CalmRunsDrain | src/AWEngine/Packet/Util/Connection.hpp:151-370 | Every such run can be continued, with no further call, to where everything the server accepted has been delivered, and of what the client accepted exactly what comes before its first Init; the server has stopped if and only if there is one |
| Drain.UndrainedMoves | src/AWEngine/Packet/Util/Connection.hpp:151-370 | In a healthy state anything not delivered yet can move, and the move leaves less to be done |
| Drain.UnpromptedLess | src/AWEngine/Packet/Util/Connection.hpp:151-370 | Whatever happens in a healthy state with no further call changes nothing or leaves less to be done |
| Drain.AnyScheduleEnds | src/AWEngine/Packet/Util/Connection.hpp:151-370 | So of any schedule, however long, only a bounded number of moves change anything |
| Drain.RestIsDone | src/AWEngine/Packet/Util/Connection.hpp:151-370 | And wherever one comes to rest, everything has been delivered as above |
| Drain.FirstInitIs | src/AWEngine/Packet/Util/Connection.hpp:335-357 | The number of messages before the first Init is the only one with no Init before it and one or the end at it |
| Drain.BodyIsRepeated | src/AWEngine/Packet/Util/Connection.hpp:243-247 | For any body and any two packets of the server, the second empty, there is a run that delivers the second with the body of the first |
| KeepAlive.PingsInFlight | src/AWEngine/Packet/Util/Connection.hpp:309-333 | In every run with an echoing client that sent no Init and has not thrown: pongs received followed by payloads in flight are the pings sent; what is in flight ends in the remembered value; once nothing is in flight the stamp is the last pong's time, never the epoch |
| KeepAlive.OverlappedPongStampsEpoch | src/AWEngine/Packet/Util/Connection.hpp:325-332 | In every run, a step that processes a pong is the end of a read; the pong answers the oldest unanswered ping, and the stamp becomes the time of that step if and only if it has the payload of the last ping sent, the epoch otherwise. No other step moves the stamp |
| Overlap.OverlapStampsEpoch | src/AWEngine/Packet/Util/Connection.hpp:325-332 | For any two different payloads there is a run, with the socket open throughout, that is stamped with the epoch after the first pong and with the last pong's time after the last |
| Overlap.HonestClientIsRemoved | src/AWEngine/Packet/PacketServer.hpp:383-402 | A check between the two pongs removes the open connection of a client that answers every ping, so checks on time are needed |
| InitStop.EveryRunStopsExactlyAtInit | src/AWEngine/Packet/Util/Connection.hpp:335-357 | In every run, unless a handler threw, the server has stopped if and only if it received an Init, and while its socket is open a read is pending if and only if it did not |
| InitStop.RunStaysStopped | src/AWEngine/Packet/Util/Connection.hpp:349-354 | Once stopped, no continuation makes it read, deliver or be stamped again |
| InitStop.InitStopsServer | src/AWEngine/Packet/Util/Connection.hpp:349-354 | For every client that connects with a valid Init there is a run without failures that stops the server, with its socket open |
| InitStop.InitClientIsNeverHeard | src/AWEngine/Packet/PacketClient.hpp:164-172 | In every run, of a client that connects with an Init nothing is ever delivered, and its connection keeps the stamp of its creation |
| InitStop.InitClientIsRemoved | src/AWEngine/Packet/PacketServer.hpp:383-402 | Whatever happened before, a check later than the maximum delay after the connection was accepted removes such a client |
| InitStop.OpenInitClientIsRemoved | src/AWEngine/Packet/PacketServer.hpp:383-402 | And there is a run without failures in which its socket is open when it is removed |
| InitStop.StoppedIsRemoved | src/AWEngine/Packet/PacketServer.hpp:383-402 | For an Init sent at any time: whatever happens after the server stopped, a check later than the maximum delay after the last stamp removes the connection |
| KeepAlive.NeverRemovedWhileOpen | src/AWEngine/Packet/PacketServer.hpp:378-407 | With each check after the previous pong and within the maximum delay of it, a connection to an echoing client is only ever removed with its socket closed |
| KeepAlive.RunKeepsKeepAlive | src/AWEngine/Packet/Util/Connection.hpp:447-457 | In every run the last ping accepted is the remembered value, and the client's accepted pongs are the pings it received |
| KeepAlive.PingIsPacked | src/AWEngine/Packet/Util/Connection.hpp:447-457 | A ping passes the size test, and its payload is what the server expects back |
| KeepAlive.ActTimed | src/AWEngine/Packet/Util/Connection.hpp:325-332 | Only the end of a read that completes a keep-alive moves the time of the last pong, and to its own time |
| Framing.FrameReadBackIff | src/AWEngine/Packet/Util/Connection.hpp:441-445 | A packet is read back as itself, leaving the following bytes alone, if and only if its body fits the 16-bit size |
| Framing.FramesPrefix | src/AWEngine/Packet/Util/Connection.hpp:235-262 | Unique parsing: of two streams of frames, one a prefix of the other, the messages are a prefix too |
| Framing.HeaderBytesInjective | src/AWEngine/Packet/IPacket.hpp:13-24 | Different headers have different four bytes |
| Framing.FrameLayout | src/AWEngine/Packet/IPacket.hpp:13-24 | A frame is ID, flags, the size of the body with its high byte first, and the body |
| Framing.PackedLayout | src/AWEngine/Packet/Util/Connection.hpp:441-445 | The header of a packet that is sent is its ID, zero flags, and the size of the body with its high byte first |
| Framing.SizeFromWire | src/AWEngine/Packet/Util/Connection.hpp:240 | The size a receiver sees is 256 times the third byte plus the fourth |
| ConnectionSpec.SendReadsInsideIff | src/AWEngine/Packet/Util/Connection.hpp:447-457 | A packet is not read past its end if and only if it is a client's, no keep-alive, empty or of at least 8 bytes |
| ConnectionSpec.RemembersPingIff | src/AWEngine/Packet/Util/Connection.hpp:452 | Which packets are remembered: keep-alives of a server whose body length has a low byte other than 0 or a high byte of at least 8 |
| ConnectionSpec.SizeTestMeansLengthIff | src/AWEngine/Packet/Util/Connection.hpp:452 | The size test is the length test if and only if the length is neither 1 to 7 nor one of 256, 512, ... 1792 |
| ConnectionSpec.SizeTestFails | src/AWEngine/Packet/Util/Connection.hpp:452 | A one-byte body passes the test and a body of 256 zeros does not |
| Connections.Connection.constructor | src/AWEngine/Packet/Util/Connection.hpp:45-56 | A new connection is in the state runs begin with |
| Connections.Connection.Send | src/AWEngine/Packet/Util/Connection.hpp:428-476 | Refused exactly when not connected; otherwise posts header and body, and the server remembers a ping's payload, or what lies beyond a body that is too short; nothing else changes |
| Connections.Connection.Pack | src/AWEngine/Packet/Util/Connection.hpp:441-445 | The packet's encoder through a real buffer gives the header in network order and the body |
| Connections.Connection.OnPost | src/AWEngine/Packet/Util/Connection.hpp:461-475 | The whole new state after a posted handler: queue the message and start writing if nothing was, or close |
| Connections.Connection.WriteHeader | src/AWEngine/Packet/Util/Connection.hpp:151-164 | Starts writing the front header, or throws when not connected |
| Connections.Connection.OnHeaderWritten | src/AWEngine/Packet/Util/Connection.hpp:161-193 | The whole new state after a header was written: body next, or the message is done |
| Connections.Connection.OnBodyWritten | src/AWEngine/Packet/Util/Connection.hpp:205-218 | The whole new state after a message was written: front popped, counted, next header started |
| Connections.Connection.OnHeaderRead | src/AWEngine/Packet/Util/Connection.hpp:238-252 | The whole new state after a header was read, and what the owner's queue gains |
| Connections.Connection.OnBodyRead | src/AWEngine/Packet/Util/Connection.hpp:275-289 | The same after a body was read |
| Connections.Connection.AddToIncomingMessageQueue | src/AWEngine/Packet/Util/Connection.hpp:299-370 | The whole new state after a complete message: counted, then answered, stamped, consumed, refused or delivered; the owner's queue grows by exactly the new deliveries, tagged with this connection on the server |
| Connections.Connection.OnKeepAlive | src/AWEngine/Packet/Util/Connection.hpp:309-333 | Throws exactly on a wrong size or flags or when the echo cannot be sent; else echoes or stamps |
| Connections.Connection.OnInit | src/AWEngine/Packet/Util/Connection.hpp:335-357 | Decoding the 17 bytes through a real buffer throws exactly when flags, size or next step are wrong |
| Connections.Connection.ConnectToClient | src/AWEngine/Packet/Util/Connection.hpp:373-382 | An open connection starts reading |
| Connections.Connection.ConnectToServer | src/AWEngine/Packet/Util/Connection.hpp:393-394 | The connection is connecting and keeps its first packet |
| Connections.Connection.OnConnected | src/AWEngine/Packet/Util/Connection.hpp:400-416 | A completed connect sends the first packet, if any, and starts reading |
| Connections.Connection.Disconnect | src/AWEngine/Packet/Util/Connection.hpp:421-425 | Posts a close when connected |
| Connections.Connection.Do | src/AWEngine/Packet/Util/Connection.hpp:148-477 | From any sound state, for any step and any bytes arriving, the object is afterwards what the step of the run model makes of it, again sound, and the owner's queue has grown by exactly its new deliveries; so no handler meets an empty outgoing queue or a half message |
| Objects.DoAll | src/AWEngine/Packet/Util/Connection.hpp:148-477 | Two connection objects driven through any moves are a run of a link, and their owners' queues hold a prefix of what the other object's Send accepted |
| Objects.ConnectionMoves | src/AWEngine/Packet/Util/Connection.hpp:300-370 | A step of a server's connection object is a move of the hub, with the same queue |
| Objects.UpdateTurn | src/AWEngine/Packet/PacketServer.hpp:347-359 | One turn of Update is one pop of the hub |
| Objects.UpdateAll | src/AWEngine/Packet/PacketServer.hpp:344-369 | With clients of this library Update does not throw, and hands over the first messages of the hub's queue up to the limit |
| Objects.CheckAll | src/AWEngine/Packet/PacketServer.hpp:378-407 | SendKeepAlive is the check of every connection: the entries that stay are those whose own check keeps them, and each is afterwards where its check takes it, again sound |
| Objects.Accept | src/AWEngine/Packet/PacketServer.hpp:219-234 | An approved connection is a new member of the hub, at the start of a link, under the next number |
| Hubs.EveryConnectionIsDispatchedInOrder | src/AWEngine/Packet/PacketServer.hpp:337-369 | For every run of any number of connections and Update, and each connection: the dispatch log followed by the queue, projected onto it, is exactly its deliveries; what was dispatched is a prefix of what its client's Send accepted; Update never throws |
| Hubs.NobodyElseIsDispatched | src/AWEngine/Packet/PacketServer.hpp:357-359 | Every dispatched message belongs to an accepted connection |
| Hubs.UpdateHandsOver | src/AWEngine/Packet/PacketServer.hpp:347-368 | An undisturbed Update with a limit dispatches exactly the first messages of the queue up to the limit |
| Hubs.DeliveriesArePlain | src/AWEngine/Packet/PacketServer.hpp:352-355 | What a client of this library sent is never marked compressed when it is delivered |
| Hubs.CompressedArrivesBodyless | src/AWEngine/Packet/Util/Connection.hpp:279-283 | Whatever bytes any peer sends, a compressed message that is delivered has no body |
| Hubs.CompressedBodylessIsDelivered | src/AWEngine/Packet/Util/Connection.hpp:243-247 | And a header with the flag and without a body is delivered |
| Servers.ThrowsIff | src/AWEngine/Packet/PacketServer.hpp:352-355 | An Update gets through all it may take if and only if none of that is compressed |
| Servers.PacketServer.Update | src/AWEngine/Packet/PacketServer.hpp:344-369 | Dispatches the first messages of the queue up to the limit or the first compressed one; throws exactly when there is one up to the limit, which is then off the queue; the rest stays queued |
| Servers.PacketServer.HandleFront | src/AWEngine/Packet/PacketServer.hpp:349-359 | One turn takes exactly the front message, and dispatches it unless it is compressed |
| Servers.Handled | src/AWEngine/Packet/PacketServer.hpp:347-355 | The number of messages an Update gets through |
| Servers.HandledIs | src/AWEngine/Packet/PacketServer.hpp:347-355 | That number is the only one with no compressed message before it that ends at the limit, the end or a compressed message |
| Servers.PacketServer.SendAllClients | src/AWEngine/Packet/PacketServer.hpp:293-328 | The list becomes the order-preserving sublist of connected or connecting entries; the others are reported once each in order; every connected entry but the ignored one is in exactly the state that one Send of the packet leads to, and nobody else's state changes |
| Servers.PacketServer.SendToEach | src/AWEngine/Packet/PacketServer.hpp:298-322 | The loop over the list: afterwards every entry was sent to, left alone or reset, as it was connected, connecting or neither |
| Servers.PacketServer.SendToOne | src/AWEngine/Packet/PacketServer.hpp:298-322 | One entry: sent to, left alone while connecting, or reported and reset |
| Servers.PacketServer.DropStale | src/AWEngine/Packet/PacketServer.hpp:380-402 | The list becomes the order-preserving sublist of live entries that are not stale; the others are reported once each in order |
| Servers.PacketServer.SendKeepAlive | src/AWEngine/Packet/PacketServer.hpp:378-407 | The same, and its inner pass drops nobody more: each connected survivor is in exactly the state that one Send of the one ping leads to; connecting and dropped entries are unchanged |
| Servers.PacketServer.PingAll | src/AWEngine/Packet/PacketServer.hpp:404-406 | Pinging a list of reachable connections keeps the list, reports nobody and sends each connected one one ping |
| Servers.PacketServer.OnAccepted | src/AWEngine/Packet/PacketServer.hpp:219-234 | An approved connection joins the list and starts reading; a vetoed one does neither |
| Servers.PacketServer.EraseReset | src/AWEngine/Packet/PacketServer.hpp:325-327 | Erasing only when something was reset leaves exactly the kept entries |
| Servers.SelectSplits | src/AWEngine/Packet/PacketServer.hpp:382-402 | Kept and dropped entries together are all entries, none twice |
| Servers.NonNullIsSelect | src/AWEngine/Packet/PacketServer.hpp:326-327 | Removing the reset entries is selecting the kept ones in order |
| Servers.SurvivesInKeepAlive | src/AWEngine/Packet/PacketServer.hpp:386 | The check of the list is the check that NeverRemovedWhileOpen is about |
| Servers.KeptEntries | src/AWEngine/Packet/PacketServer.hpp:386 | An entry is kept if and only if it is open or connecting, and by the check only if its stamp is not more than the maximum delay old |
| Servers.SentOnce | src/AWEngine/Packet/PacketServer.hpp:299-304 | A connected entry that is not ignored accepts the packet exactly once, a pinged one the ping whose payload it then expects; any other is unchanged |
| QueueLocks.EveryRunIsAtomicAndLive | src/AWEngine/Packet/Util/ThreadSafeQueue.hpp:38-142 | In every interleaving of any number of threads: the mutexes exclude, the completed operations replay on a sequential queue with the same replies, and whenever a thread is blocked on a mutex some thread can step |
| QueueLocks.OneConsumerNeverPopsEmpty | src/AWEngine/Packet/PacketServer.hpp:347-350 | With one consumer that looks before it pops and any number of producers no pop meets an empty deque, and popped followed by queued is what was pushed, in lock order |
| QueueLocks.BlockedHasUnblocker | src/AWEngine/Packet/Util/ThreadSafeQueue.hpp:70-142 | Who holds what a blocked thread waits for, or what that holder waits for, is not blocked: no cycle between the two mutexes |
| QueueLocks.WaitReturnsOnlyWhenNotEmpty | src/AWEngine/Packet/Util/ThreadSafeQueue.hpp:135-142 | In every run, a thread whose last operation is a `wait` is back only if its last look found the queue not empty |
| QueueLocks.EveryRunHoldsInOrder | src/AWEngine/Packet/Util/ThreadSafeQueue.hpp:70-142 | In every run, a push notifies holding both mutexes, and `wait` never holds the queue mutex while it wants or holds the other |
| QueueLocks.PushNotifies | src/AWEngine/Packet/Util/ThreadSafeQueue.hpp:73-110 | After putting its item a push notifies, which wakes the sleeper chosen, before it lets go of the queue mutex |
| QueueLocks.WaitSleeps | src/AWEngine/Packet/Util/ThreadSafeQueue.hpp:135-142 | A `wait` that found nothing sleeps, letting go of its mutex, and looks again when woken |
| QueueLocks.DequeLaws | src/AWEngine/Packet/Util/ThreadSafeQueue.hpp:38-130 | Each end of the queue gives back what was put there last, independently of the other; peeks agree with pops; emptiness and size agree |
| Queues.ThreadSafeQueue.PopFrontItem | src/AWEngine/Packet/Util/ThreadSafeQueue.hpp:54-60 | The sequential pop at the front |
| Queues.ThreadSafeQueue.PopBackItem | src/AWEngine/Packet/Util/ThreadSafeQueue.hpp:62-68 | The sequential pop at the back |
| Queues.ThreadSafeQueue.PushFrontItem | src/AWEngine/Packet/Util/ThreadSafeQueue.hpp:71-90 | The sequential push at the front |
| Queues.ThreadSafeQueue.PushBackItem | src/AWEngine/Packet/Util/ThreadSafeQueue.hpp:91-110 | The sequential push at the back |
| Queues.ThreadSafeQueue.Peek | src/AWEngine/Packet/Util/ThreadSafeQueue.hpp:39-50 | The item at the asked end, which stays there |
| Queues.ThreadSafeQueue.LooksEmpty | src/AWEngine/Packet/Util/ThreadSafeQueue.hpp:114-118 | Whether the sequential queue is empty |
| Fifo.RunConserves | src/AWEngine/Packet/PacketBuffer.hpp:106-206 | Under any mix of writes, block writes, reads, peeks and in-bounds skips: consumed followed by the view is what was there followed by what was accepted |
| Fifo.ByteIsReadBack | src/AWEngine/Packet/PacketBuffer.hpp:109-151 | A read throws exactly when there is nothing, a write exactly when there is no room, and a byte written into an empty buffer is read next |
| Fifo.ReadBlockIsReads | src/AWEngine/Packet/PacketBuffer.hpp:153-160 | A block read returns and removes what single reads would |
| Fifo.WriteBlockIsWrites | src/AWEngine/Packet/PacketBuffer.hpp:120-129 | A block write appends what single writes would, and is refused exactly when it has no room |
| Fifo.SkipIsReads | src/AWEngine/Packet/PacketBuffer.hpp:203-206 | A skip removes what as many reads would |
| Fifo.PeekIsLaterRead | src/AWEngine/Packet/PacketBuffer.hpp:165-171 | A peek leaves the view and finds what a read after skipping up to it would |
| Fifo.PeekThenSkipIsRead | src/AWEngine/Packet/PacketBuffer.hpp:153-206 | Peeking and then skipping n bytes gives the bytes and the view that reading them gives |
| Fifo.PeekIsFifoIff | src/AWEngine/Packet/PacketBuffer.hpp:165-171 | A single-byte peek answers as the FIFO does if and only if start offset and peek offset fit 32 bits together |
| Fifo.PeekFails | src/AWEngine/Packet/PacketBuffer.hpp:165-171 | In a full buffer with ten bytes left, peeking at offset 20 returns the tenth byte of the vector, read long before, and does not throw |
| Fifo.AppendedTwice | src/AWEngine/Packet/PacketBuffer.hpp:109-117 | Byte-wise appending to a filling buffer composes: two chunks are their concatenation, and a first chunk that does not fit hides the second |
| Buffers.PacketBuffer.ApplyAll | src/AWEngine/Packet/PacketBuffer.hpp:57-206 | The buffer with its lazy offset refines the FIFO byte sequence: any mix of operations ends in the same view, and has the same replies if and only if no single-byte peek wraps its 32-bit index |
| Buffers.PacketBuffer.Apply | src/AWEngine/Packet/PacketBuffer.hpp:106-206 | The same for one operation, with the offset it leaves |
| Buffers.PacketBuffer.RemoveStartOffset | src/AWEngine/Packet/PacketBuffer.hpp:90-97 | Compaction leaves the view alone |
| Buffers.PacketBuffer.Write | src/AWEngine/Packet/PacketBuffer.hpp:109-117 | Appends a byte, or throws exactly when full and leaves the view alone |
| Buffers.PacketBuffer.WriteBlock | src/AWEngine/Packet/PacketBuffer.hpp:120-129 | Appends all, or throws exactly when it would not fit and leaves the view alone |
| Buffers.PacketBuffer.WriteEach | src/AWEngine/Packet/PacketBuffer.hpp:288-308 | The byte loop of the writers appends until the buffer is full |
| Buffers.PacketBuffer.Put | src/AWEngine/Packet/PacketBuffer.hpp:208-524 | Writing any value appends its wire form: integers least significant byte first, negative ones in two's complement, strings and vectors after their 16-bit length; a too long string or vector is refused with the view unchanged |
| Buffers.PacketBuffer.PutAll | src/AWEngine/Packet/PacketBuffer.hpp:208-524 | A chain of writes appends the encoding of the list, cut off only by a full buffer |
| Buffers.PacketBuffer.PutVector | src/AWEngine/Packet/PacketBuffer.hpp:511-525 | A vector of wide elements is its count and its elements |
| Buffers.PacketBuffer.Read | src/AWEngine/Packet/PacketBuffer.hpp:135-151 | Takes the first byte of the view, or throws exactly when there is none |
| Buffers.PacketBuffer.ReadArray | src/AWEngine/Packet/PacketBuffer.hpp:153-160 | Fills the array with as many bytes as there are, takes them off the view and leaves the rest of the array alone |
| Buffers.PacketBuffer.Get | src/AWEngine/Packet/PacketBuffer.hpp:226-539 | What a read removed is the wire form of what it returned; it throws exactly when decoding fails, and then leaves the view empty |
| Buffers.PacketBuffer.GetAll | src/AWEngine/Packet/PacketBuffer.hpp:226-539 | A chain of reads is decoding the list, and throws exactly when that fails |
| Buffers.PacketBuffer.GetVector | src/AWEngine/Packet/PacketBuffer.hpp:526-539 | Reading a vector of wide elements into a target resized to the byte count |
| Buffers.PacketBuffer.Peek | src/AWEngine/Packet/PacketBuffer.hpp:165-171 | The byte at an offset of the view; outside it throws, unless the 32-bit index wraps, and then returns the byte at the wrapped index |
| Buffers.PacketBuffer.PeekArray | src/AWEngine/Packet/PacketBuffer.hpp:187-199 | The count and bytes that ReadArray would give, with the view unchanged, also when it compacts first |
| Buffers.PacketBuffer.PeekArrayConst | src/AWEngine/Packet/PacketBuffer.hpp:173-185 | The same on a const buffer, which throws exactly when offset and length overflow 32 bits |
| Buffers.PacketBuffer.Skip | src/AWEngine/Packet/PacketBuffer.hpp:203-206 | Drops the front of the view if and only if that is long enough; otherwise the offset is past the end or wraps |
| Codec.RoundTripAll | src/AWEngine/Packet/PacketBuffer.hpp:208-539 | Any list of integers of both signs, float bits, strings, byte vectors and fixed arrays is read back by its schema, leaving the following bytes alone |
| Codec.EncAllAfterDecAll | src/AWEngine/Packet/PacketBuffer.hpp:208-539 | A read that completes consumed exactly an encoding of what it returned |
| Codec.TruncationThrows | src/AWEngine/Packet/PacketBuffer.hpp:135-160 | Reading a schema from any strict prefix of an encoding of it throws |
| Codec.SelfDelimiting | src/AWEngine/Packet/PacketBuffer.hpp:208-539 | Encodings of one schema, with anything after them, are equal if and only if values and rests are |
| Codec.EncIsWireForm | src/AWEngine/Packet/PacketBuffer.hpp:208-524 | The encoding of a value is the only byte sequence of its wire form, stated byte by byte |
| Codec.MemoryAppend | src/AWEngine/Packet/PacketBuffer.hpp:519-522 | The elements of a vector are written one after the other |
| Codec.MemoryOne | src/AWEngine/Packet/PacketBuffer.hpp:519-522 | And each least significant byte first |
| Codec.VectorReadBack | src/AWEngine/Packet/PacketBuffer.hpp:529-538 | What reading back a vector of wide elements gives: its elements and a tail of what the target held, or zeros |
| Codec.VectorRoundTripIff | src/AWEngine/Packet/PacketBuffer.hpp:511-539 | Whatever the target held, a vector survives the round trip if and only if it is empty or its elements are single bytes |
| Codec.ArrayReadPositionIff | src/AWEngine/Packet/PacketBuffer.hpp:491-507 | Reading a fixed array ends where writing did if and only if it is empty or its elements are single bytes |
| Codec.ByteVectorIsBlob | src/AWEngine/Packet/PacketBuffer.hpp:511-525 | A vector of single bytes is the byte vector of the schema language |
| Bytes.FromToLE | src/AWEngine/Packet/PacketBuffer.hpp:287-329 | Little-endian writing and reading of an integer are inverse |
| Bytes.ToFromLE | src/AWEngine/Packet/PacketBuffer.hpp:287-329 | And the other way round |
| Bytes.ToLEAt | src/AWEngine/Packet/PacketBuffer.hpp:287-307 | Byte i of an encoded integer is its digit of weight 256 to the i |
| Bytes.SignedAt | src/AWEngine/Packet/PacketBuffer.hpp:287-297 | Byte i of an encoded signed integer is that digit of its floored quotient: two's complement |
| Bytes.ToSigned | src/AWEngine/Packet/PacketBuffer.hpp:309-319 | Reading a signed integer undoes the conversion of writing it, at every width |
| Locales.NormalFormUnique | src/AWEngine/Packet/Util/LocaleInfo.hpp:132-192 | A locale has exactly one normal form (lower-case language, upper-case country, empty where invalid); it is valid and its own normal form |
| Locales.Normal | src/AWEngine/Packet/Util/LocaleInfo.hpp:159-192 | What the writer writes meets the independent description of a normal form |
| Locales.IsValidIff | src/AWEngine/Packet/Util/LocaleDoubleChar.hpp:56-87 | A code is valid if and only if it is empty or two letters of the alphabet |
| Locales.WireLayout | src/AWEngine/Packet/Util/LocaleInfo.hpp:158-192 | The four bytes: language in lower case, country in upper case, left letter first, zeros for what is not usable; reading them as they lie gives the codes back |
| Locales.ParseLayout | src/AWEngine/Packet/Util/LocaleInfo.hpp:77-90 | Which characters of a text become which letters, and when there is no country |
| Locales.DoubleChar.ChangeCase | src/AWEngine/Packet/Util/LocaleDoubleChar.hpp:89-110 | Always valid, empty exactly for an empty or invalid code, otherwise all in the asked case |
| Locales.DoubleChar.Write | src/AWEngine/Packet/Util/LocaleDoubleChar.hpp:112-121 | Throws exactly on an invalid code |
| Locales.WriteLocale | src/AWEngine/Packet/Util/LocaleInfo.hpp:158-192 | Appends the four bytes of the normal form |
| Locales.ReadLocale | src/AWEngine/Packet/Util/LocaleInfo.hpp:132-156 | Takes four bytes and returns the normal form of what they hold, or throws when they are missing; its skip leaves the offset past the end (or wrapped) exactly for two or three bytes with no usable language |
| Locales.SkipFails | src/AWEngine/Packet/Util/LocaleInfo.hpp:140-145 | Two zero bytes are such an input |
| Locales.WireRoundTrip | src/AWEngine/Packet/Util/LocaleInfo.hpp:132-192 | Every locale is read back as its normal form, leaving the following bytes alone |
| Locales.Print | src/AWEngine/Packet/Util/LocaleInfo.hpp:107-130 | Throws exactly on an invalid locale; otherwise prints the language in lower case and, after a hyphen, the country in upper case, if any; parsing that gives the normal form |
| Packets.InitRoundTripIff | src/AWEngine/Packet/ToServer/Login/Init.hpp:57-73 | Init survives the wire if and only if it names no game and its locale is in normal form |
| Packets.DecodedInit | src/AWEngine/Packet/ToServer/Login/Init.hpp:57-73 | Version and next step survive, the locale is normalised, the name is lost |
| Packets.InitLayout | src/AWEngine/Packet/ToServer/Login/Init.hpp:70-73 | Which of the 17 bytes are the name, the version (least significant byte first), the locale and the next step |
| Packets.WriteInit | src/AWEngine/Packet/ToServer/Login/Init.hpp:70-73 | Appends exactly 17 bytes |
| Packets.ReadInit | src/AWEngine/Packet/ToServer/Login/Init.hpp:57-61 | Takes 17 bytes; a shorter body throws unless the skip in it wraps in 32 bits; the offset stays inside exactly when that skip does |
| Packets.InitSkipFails | src/AWEngine/Packet/ToServer/Login/Init.hpp:57-61 | Bodies of 14 or 15 bytes with an empty language leave the buffer |
| Packets.RawPayloadOfPing | src/AWEngine/Packet/Util/Connection.hpp:321-327 | Reinterpreting an encoded ping's body gives its payload |
| Packets.PingOfRawPayload | src/AWEngine/Packet/Util/Connection.hpp:321-322 | The echo of a ping has the very body of the ping |
| Packets.PingLayout | src/AWEngine/Packet/Ping.hpp:41-44 | The eight bytes of a payload, least significant first |
| Packets.WritePing | src/AWEngine/Packet/Ping.hpp:41-44 | Appends exactly eight bytes |
| Packets.ReadPing | src/AWEngine/Packet/Ping.hpp:31-35 | Takes eight bytes and returns their payload, or throws when they are missing |
| Packets.NameFromText | src/AWEngine/Packet/ProtocolGameName.hpp:48-57 | The text up to its first NUL or eight characters, padded with NULs |
| Packets.WriteName | src/AWEngine/Packet/ProtocolGameName.hpp:79-83 | Appends eight bytes at once or none |
| Packets.ReadName | src/AWEngine/Packet/ProtocolGameName.hpp:84-90 | Takes up to eight bytes and changes no name |

## Left out

- Asio, sockets, the resolver, threads, logging, streams and JSON: only completions, failures and byte streams are modelled.
- Server-info text parsing (`SimpleJsonParse`), `PacketClient`, `PacketServer::Send` to one client, and the bodies of Kick, Disconnect and ServerInfo: easy, never updated, or not well defined.
- `OnPacket` and the packet parser: they follow OnMessage for the same message and change no modelled state.
- Stream input of locales and game names, the list constructor of game names and the current locale of the system.
- The meaning of floating-point numbers: they are bit patterns.
- Sends of bodies over 65535 bytes in runs: `FrameReadBackIff` shows that the frame is then not read back.
- What a failed read left in the half-read message: it is never looked at again.
- `Start` and `Stop` of the server, and freeing a connection that was dropped with operations pending.
- Fairness and liveness of the condition variable: `wait` can miss a notification between its look and its sleep.
- Queues.ThreadSafeQueue.PopFrontItem: the class shows each operation as one atomic step, as QueueLocks justifies; the mutexes and `wait` are in QueueLocks only.
- Connections.Connection.Send: does not model bodies over 32 bits, nor a body read past its end as anything but an arbitrary value.
- Servers.PacketServer.SendAllClients: no connection changes state during the call; what a read past a short body gives is a parameter, as in Send.
- Buffers.PacketBuffer.GetVector: does not say what a throw leaves in the target.
- Buffers.PacketBuffer.RemoveStartOffset: does not model compacting, or anything but single-byte reads, after a skip past the end.
- Buffers.PacketBuffer.Resize: does not model resizing a partly read buffer, which ignores the offset.
- Servers.PacketServer.Update: nobody pushes during the call; pushes between its turns are in Hubs, and the wait before it is in QueueLocks.
- Servers.PacketServer.SendKeepAlive: the two passes of one function are two methods; the time is a parameter.
- Connections.Connection.WriteHeader: the outgoing queue of each connection is used by its own handlers only.
