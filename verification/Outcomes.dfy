// What the steps of an endpoint come to, said without naming the functions that compute them: when it
// closes, when a handler throws, what is delivered and answered, and at what times.

module Outcomes {
  import opened Bytes
  import opened Packets
  import opened Framing
  import opened ConnectionSpec
  import opened ConnectionSound
  import opened Links

  // ---- Connecting -------------------------------------------------------------------------------

  /** A new connection has heard from nobody but counts as alive from now. */
  lemma CreatedIs(d: Direction, isOpen: bool, now: int)
    ensures var c := Created(d, isOpen, now);
            && c.direction == d && c.isOpen == isOpen && !c.isConnecting && !c.crashed && c.initPacket.None?
            && c.lastKeepAlive == c.lastReceived == c.lastSent == c.pongAt == now
            && c.w.posts == [] && c.w.messagesOut == [] && c.w.op.NoWrite? && c.r.op.NoRead?
  {
  }

  /** A connection that starts to connect remembers what to send first, and that is all. */
  lemma ConnectToServerIs(c: Conn, initPacket: Option<Packet>)
    requires c.direction.ToServer? && !c.isOpen
    ensures var d := ConnectToServer(c, initPacket);
            && d.isConnecting && d.initPacket == initPacket && !d.isOpen
            && d.w == c.w && d.r == c.r && d.lastKeepAlive == c.lastKeepAlive
  {
  }

  /** Every pair of new ends, one accepted and one connecting with any first packet that fits, is the start
      of runs. */
  lemma EveryPairStarts(initPacket: Option<Packet>, accepted: int, created: int)
    requires initPacket.Some? ==> |BodyOf(initPacket.value)| <= UINT16_MAX
    ensures var server := ConnectToClient(Created(ToClient, true, accepted));
            var client := ConnectToServer(Created(ToServer, false, created), initPacket);
            Start(Link(server, client, [], [])) && client.initPacket == initPacket && server.r.op == ReadingHeader([])
  {
  }

  lemma ConnectToClientIff(c: Conn)
    requires c.direction.ToClient? && c.r.op.NoRead?
    ensures ConnectToClient(c).r.op == ReadingHeader([]) <==> c.isOpen
    ensures ConnectToClient(c).r.op.NoRead? <==> !c.isOpen
    ensures ConnectToClient(c).w == c.w && ConnectToClient(c).isOpen == c.isOpen
  {
  }

  /** The end of a connect: open and reading if and only if it succeeded, and then the first packet is on
      its way if there is one. */
  lemma ConnectedIff(c: Conn, ok: bool, incoming: seq<byte>)
    requires !c.crashed && c.isConnecting && c.direction.ToServer? && c.r.op.NoRead?
    ensures var d := Act(c, ConnectDone(ok), incoming).conn;
            && d.isOpen == ok && !d.isConnecting && !d.crashed
            && (d.r.op == ReadingHeader([]) <==> ok) && (d.r.op.NoRead? <==> !ok)
            && (d.w.accepted == c.w.accepted + if ok && c.initPacket.Some? then
                  [Packed(IdOf(c.initPacket.value), BodyOf(c.initPacket.value))] else [])
            && |d.w.posts| == |c.w.posts| + |d.w.accepted| - |c.w.accepted|
  {
  }

  // ---- Closing ----------------------------------------------------------------------------------

  /** `Disconnect` asks for a close if and only if connected, and does nothing else. */
  lemma DisconnectIff(c: Conn, incoming: seq<byte>)
    requires !c.crashed
    ensures var d := Act(c, AppDisconnect, incoming).conn;
            && (d.w.posts == c.w.posts + [PostClose] <==> IsConnected(c))
            && (d == c <==> !IsConnected(c))
            && d.isOpen == c.isOpen && d.r == c.r && d.w.accepted == c.w.accepted
  {
  }

  /** A post that runs leaves the posts; a close closes the socket, and nothing else does. */
  lemma PostClosesIff(c: Conn, incoming: seq<byte>)
    requires !c.crashed && c.w.posts != []
    ensures var d := Act(c, PostRuns, incoming).conn;
            && (d.isOpen <==> c.isOpen && c.w.posts[0].PostSend?)
            && d.w.posts == c.w.posts[1..]
            && d.w.messagesOut == c.w.messagesOut + InfoOf(c.w.posts[0])
  {
  }

  /** A failed operation closes the socket. */
  lemma FailureCloses(c: Conn, incoming: seq<byte>)
    requires !c.crashed
    ensures Act(c, WriteFails, incoming).conn.isOpen <==> c.isOpen && c.w.op.NoWrite?
    ensures Act(c, ReadFails, incoming).conn.isOpen <==> c.isOpen && c.r.op.NoRead?
  {
  }

  /** Asked to close, closed or dead. */
  predicate Closing(c: Conn) {
    !c.isConnecting && (PostClose in c.w.posts || !c.isOpen || c.crashed)
  }

  /** Not open and not about to be. */
  predicate Closed(c: Conn) {
    !c.isConnecting && !c.isOpen
  }

  /** Posts are only added at the end and taken at the front, and nothing opens a socket but a connect. */
  predicate KeepsClosing(c: Conn, d: Conn) {
    && !d.isConnecting && (!c.isOpen ==> !d.isOpen)
    && (PostClose in c.w.posts ==> PostClose in d.w.posts || !d.isOpen || d.crashed)
  }

  lemma WriteCompletedKeepsClosing(c: Conn, now: int)
    requires !c.isConnecting
    ensures KeepsClosing(c, WriteCompleted(c, now))
  {
  }

  lemma EchoKeepsClosing(c: Conn, now: int)
    requires !c.isConnecting && |c.r.wip.body| >= PING_SIZE
    ensures KeepsClosing(c, Echo(c, now)) && KeepsClosing(c, Deliver(Echo(c, now)))
  {
  }

  lemma JudgedKeepsClosing(c: Conn, now: int)
    requires !c.isConnecting && WipWhole(c.r)
    ensures KeepsClosing(c, Judged(c, now))
  {
    if c.r.wip.header.id == KEEP_ALIVE_ID && GoodKeepAlive(c.r.wip.header) { EchoKeepsClosing(c, now); }
  }

  lemma ReadCompletedKeepsClosing(c: Conn, now: int)
    requires !c.isConnecting
    ensures KeepsClosing(c, ReadCompleted(c, now))
  {
    if c.r.op.ReadingHeader? && |c.r.op.got| == HEADER_SIZE {
      HeaderReadIs(c, c.r.op.got, now);
      var q := HeaderIn(c.r, c.r.op.got);
      if q.wip.header.size == 0 { JudgedKeepsClosing(MessageCounted(c.(r := q), now), now); }
    } else if c.r.op.ReadingBody? && |c.r.op.got| == c.r.wip.header.size {
      if !IsCompressed(c.r.wip.header) {
        JudgedKeepsClosing(MessageCounted(c.(r := BodyIn(c.r, c.r.op.got)), now), now);
      }
    }
  }

  lemma ActKeepsClosing(c: Conn, a: Action, incoming: seq<byte>)
    requires !c.isConnecting
    ensures KeepsClosing(c, Act(c, a, incoming).conn)
  {
    match a
    case WriteDone(now) => WriteCompletedKeepsClosing(c, now);
    case ReadDone(now) =>
      ActReadDone(c, now, incoming);
      ReadCompletedKeepsClosing(c, now);
    case PostRuns => if !c.crashed && c.w.posts != [] { PostClosesIff(c, incoming); }
    case _ =>
  }

  lemma CrashedStays(c: Conn, a: Action, incoming: seq<byte>)
    requires c.crashed
    ensures Act(c, a, incoming).conn == c
  {
  }

  function EndOf(l: Link, side: Side): Conn {
    if side.Server? then l.server else l.client
  }

  function WireTo(l: Link, side: Side): seq<byte> {
    if side.Server? then l.toServer else l.toClient
  }

  lemma StepOfEnd(l: Link, m: Move, side: Side)
    ensures EndOf(Step(l, m), side) ==
              if m.side == side then Act(EndOf(l, side), m.action, WireTo(l, side)).conn else EndOf(l, side)
  {
  }

  lemma StepKeepsClosing(l: Link, m: Move, side: Side)
    requires Closing(EndOf(l, side))
    ensures Closing(EndOf(Step(l, m), side))
    ensures Closed(EndOf(l, side)) ==> Closed(EndOf(Step(l, m), side))
  {
    StepOfEnd(l, m, side);
    var c := EndOf(l, side);
    if c.crashed { CrashedStays(c, m.action, WireTo(l, side)); }
    ActKeepsClosing(c, m.action, WireTo(l, side));
  }

  lemma {:induction false} RunKeepsClosing(l: Link, more: seq<Move>, side: Side)
    requires Closing(EndOf(l, side))
    ensures Closing(EndOf(Run(l, more), side))
    ensures Closed(EndOf(l, side)) ==> Closed(EndOf(Run(l, more), side))
  {
    if more != [] {
      RunKeepsClosing(l, more[..|more| - 1], side);
      StepKeepsClosing(Run(l, more[..|more| - 1]), more[|more| - 1], side);
    }
  }

  /** Once a connected end was asked to disconnect, it is closed or a handler threw as soon as its posts
      have run, whatever else happens; and a closed end stays closed. */
  lemma {:induction false} DisconnectCloses(l: Link, side: Side, more: seq<Move>)
    requires IsConnected(EndOf(l, side)) && !EndOf(l, side).crashed
    ensures var c := EndOf(Run(Step(l, Move(side, AppDisconnect)), more), side);
            c.w.posts == [] ==> !c.isOpen || c.crashed
  {
    var n := Step(l, Move(side, AppDisconnect));
    StepOfEnd(l, Move(side, AppDisconnect), side);
    DisconnectIff(EndOf(l, side), WireTo(l, side));
    RunKeepsClosing(n, more, side);
  }

  lemma {:induction false} ClosedStaysClosed(l: Link, side: Side, more: seq<Move>)
    requires Closed(EndOf(l, side))
    ensures Closed(EndOf(Run(l, more), side))
  {
    RunKeepsClosing(l, more, side);
  }

  /** The compressed flag is the lowest bit of the flags. */
  lemma CompressedIsBitZero(h: Header)
    ensures IsCompressed(h) <==> (h.flags as bv8) & 1 != 0
  {
    var b := h.flags as bv8;
    assert b & 1 == b % 2;
    assert (b % 2) as int == h.flags % 2;
  }

  // ---- Throwing ---------------------------------------------------------------------------------

  /** A posted send throws exactly when it has to start a write and there is no connection. */
  lemma PostThrowsIff(c: Conn, incoming: seq<byte>)
    requires !c.crashed && c.w.posts != []
    ensures Act(c, PostRuns, incoming).conn.crashed
            <==> c.w.posts[0].PostSend? && c.w.messagesOut == [] && !(c.isOpen && !c.isConnecting)
  {
  }

  /** The end of a write throws exactly when a message is done, another waits and there is no connection. */
  lemma WriteThrowsIff(c: Conn, now: int)
    requires !c.crashed && !c.w.op.NoWrite? && c.w.op.left == [] && c.w.messagesOut != []
    ensures WriteCompleted(c, now).crashed
            <==> && (c.w.op.WritingBody? || c.w.messagesOut[0].body == [])
                 && |c.w.messagesOut| > 1 && !(c.isOpen && !c.isConnecting)
  {
  }

  /** And it records the time exactly when a message is done. */
  lemma WriteIsTimed(c: Conn, now: int)
    requires !c.w.op.NoWrite? && c.w.op.left == [] && c.w.messagesOut != []
    ensures var d := WriteCompleted(c, now);
            if c.w.op.WritingBody? || c.w.messagesOut[0].body == [] then
              d.lastSent == now && d.w.sentCount == c.w.sentCount + 1 && d.w.messagesOut == c.w.messagesOut[1..]
            else
              d.lastSent == c.lastSent && d.w.sentCount == c.w.sentCount && d.w.messagesOut == c.w.messagesOut
  {
  }

  /** A whole message that a handler throws at: a keep-alive with flags or another size, or that cannot be
      answered; on the server an Init with flags, another size or an unknown next step. */
  predicate ThrownAt(c: Conn)
    requires WipWhole(c.r)
  {
    var h := c.r.wip.header;
    || (h.id == KEEP_ALIVE_ID && (h.flags != 0 || h.size != 8))
    || (h.id == KEEP_ALIVE_ID && c.direction.ToServer? && !(c.isOpen && !c.isConnecting))
    || (h.id == INIT_ID && c.direction.ToClient? && (h.flags != 0 || h.size != 17 || c.r.wip.body[16] > 1))
  }

  lemma MessageThrowsIff(c: Conn, now: int)
    requires !c.crashed && WipWhole(c.r)
    ensures AddToIncoming(c, now).crashed <==> ThrownAt(c)
  {
  }

  /** Every other message is queued and the next one awaited, but for an Init on the server. */
  lemma MessageIsDelivered(c: Conn, now: int)
    requires !c.crashed && WipWhole(c.r) && !ThrownAt(c)
    ensures var d := AddToIncoming(c, now);
            if c.r.wip.header.id == INIT_ID && c.direction.ToClient? then
              d.r.messagesIn == c.r.messagesIn && d.r.op.NoRead?
            else
              d.r.messagesIn == c.r.messagesIn + [c.r.wip] && d.r.op == ReadingHeader([])
  {
  }

  // ---- Times and answers ------------------------------------------------------------------------

  lemma KeepAliveTimes(c: Conn, now: int)
    requires WipWhole(c.r)
    ensures var d := KeepAliveArrived(c, now);
            d.lastReceived == c.lastReceived && d.r.receivedCount == c.r.receivedCount
  {
    if GoodKeepAlive(c.r.wip.header) { assert Echo(c, now).r == Stamp(c, now).r == c.r; }
  }

  lemma JudgedTimes(c: Conn, now: int)
    requires WipWhole(c.r)
    ensures var d := Judged(c, now);
            && d.lastReceived == c.lastReceived && d.r.receivedCount == c.r.receivedCount
            && (c.r.wip.header.id != KEEP_ALIVE_ID ==> d.lastKeepAlive == c.lastKeepAlive && d.pongAt == c.pongAt)
  {
    if c.r.wip.header.id == KEEP_ALIVE_ID { KeepAliveTimes(c, now); }
  }

  lemma MessageIsTimed(c: Conn, now: int)
    requires WipWhole(c.r)
    ensures var d := AddToIncoming(c, now);
            && d.lastReceived == now && d.r.receivedCount == c.r.receivedCount + 1
            && (c.r.wip.header.id != KEEP_ALIVE_ID ==> d.lastKeepAlive == c.lastKeepAlive && d.pongAt == c.pongAt)
  {
    JudgedTimes(MessageCounted(c, now), now);
  }

  /** A pong stamps the server's connection with the time it is processed, or with the epoch. */
  lemma PongIsTimed(c: Conn, now: int)
    requires !c.crashed && WipWhole(c.r) && c.direction.ToClient? && c.r.wip.header.id == KEEP_ALIVE_ID && !ThrownAt(c)
    ensures var d := AddToIncoming(c, now);
            && d.pongAt == now && d.w == c.w
            && d.lastKeepAlive == if RawPayload(c.r.wip.body) == c.lastKeepAliveValue then now else EPOCH
  {
  }

  /** A ping stamps the client's connection and is answered with its own body. */
  lemma PingIsAnswered(c: Conn, now: int)
    requires !c.crashed && WipWhole(c.r) && c.direction.ToServer? && c.r.wip.header.id == KEEP_ALIVE_ID && !ThrownAt(c)
    ensures var d := AddToIncoming(c, now);
            && d.lastKeepAlive == now
            && d.w.accepted == c.w.accepted + [Packed(KEEP_ALIVE_ID, c.r.wip.body)]
            && d.w.posts == c.w.posts + [PostSend(Packed(KEEP_ALIVE_ID, c.r.wip.body))]
  {
    PingOfRawPayload(c.r.wip.body);
  }

  // ---- On the wire ------------------------------------------------------------------------------

  predicate Unflagged(ms: seq<SendInfo>) {
    forall i | 0 <= i < |ms| :: ms[i].header.flags == 0
  }

  lemma StepKeepsUnflagged(l: Link, m: Move, side: Side)
    requires Unflagged(EndOf(l, side).w.accepted)
    ensures Unflagged(EndOf(Step(l, m), side).w.accepted)
  {
    StepOfEnd(l, m, side);
    ActGrows(EndOf(l, side), m.action, WireTo(l, side));
  }

  lemma {:induction false} RunKeepsUnflagged(l: Link, moves: seq<Move>, side: Side)
    requires Start(l)
    ensures Unflagged(EndOf(Run(l, moves), side).w.accepted)
  {
    if moves != [] {
      RunKeepsUnflagged(l, moves[..|moves| - 1], side);
      StepKeepsUnflagged(Run(l, moves[..|moves| - 1]), moves[|moves| - 1], side);
    }
  }

  /** In every run, what either side hands to the socket is the packets its `Send` accepted one after the
      other, each as ID, zero flags, the size of the body with its high byte first, and the body. */
  lemma {:induction false} EveryMessageOnWire(l: Link, moves: seq<Move>, side: Side)
    requires Start(l)
    ensures var w := EndOf(Run(l, moves), side).w;
            && w.emitted <= Frames(w.accepted)
            && forall i | 0 <= i < |w.accepted| ::
                 w.accepted[i].header.flags == 0 && IsFrame(w.accepted[i], Frame(w.accepted[i]))
  {
    RunKeeps(l, moves);
    RunKeepsUnflagged(l, moves, side);
    EmittedOnWire(EndOf(Run(l, moves), side).w);
  }

  lemma EmittedOnWire(w: Writer)
    requires WriterSound(w)
    ensures w.emitted <= Frames(w.accepted)
    ensures forall i | 0 <= i < |w.accepted| :: IsFrame(w.accepted[i], Frame(w.accepted[i]))
  {
    EmittedIsStarted(w);
    var rest := w.accepted[|StartedBy(w)|..];
    assert w.accepted == StartedBy(w) + rest;
    FramesAppend(StartedBy(w), rest);
    forall i | 0 <= i < |w.accepted| ensures IsFrame(w.accepted[i], Frame(w.accepted[i])) {
      FrameLayout(w.accepted[i]);
    }
  }
}
