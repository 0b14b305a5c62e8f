// Runs without failures between two endpoints of this library: nothing throws and nothing closes.

module Calm {
  import opened Bytes
  import opened Packets
  import opened Framing
  import opened ConnectionSpec
  import opened ConnectionSound
  import opened Links

  /** Reserved IDs carry only the packets they are reserved for. The server may use the Init ID for
      its own ServerInfo packet. */
  predicate ReservedUse(sender: Direction, p: Packet) {
    match p
    case GamePacket(id, _) => id != KEEP_ALIVE_ID && (sender.ToServer? ==> id != INIT_ID)
    case PingPacket(_) => true
    case InitPacket(init) => KnownNext(init.next)
  }

  predicate CalmMove(m: Move) {
    match m.action
    case AppSend(p) => ReservedUse(if m.side.Server? then ToClient else ToServer, p)
    case AppDisconnect => false
    case WriteFails => false
    case ReadFails => false
    case ConnectDone(ok) => ok
    case _ => true
  }

  predicate AllCalm(moves: seq<Move>) {
    forall i | 0 <= i < |moves| :: CalmMove(moves[i])
  }

  /** A message its receiver neither throws at nor closes on. */
  predicate Welcome(receiver: Direction, m: SendInfo) {
    && m.header.flags == 0
    && (m.header.id == KEEP_ALIVE_ID ==> |m.body| == PING_SIZE)
    && (m.header.id == INIT_ID && receiver.ToClient? ==> |m.body| == INIT_SIZE && KnownNext(NextOf(m.body)))
  }

  predicate AllWelcome(receiver: Direction, ms: seq<SendInfo>) {
    forall i | 0 <= i < |ms| :: Welcome(receiver, ms[i])
  }

  /** Not crashed, and open unless still connecting; nothing in it will close it or annoy the peer. */
  predicate Healthy(c: Conn) {
    && !c.crashed && (c.isOpen || c.isConnecting)
    && PostClose !in c.w.posts
    && AllWelcome(Peer(c.direction), c.w.accepted)
    && (c.isConnecting ==> c.initPacket.Some? ==> ReservedUse(c.direction, c.initPacket.value))
  }

  function Peer(d: Direction): Direction {
    if d.ToClient? then ToServer else ToClient
  }

  /** The encoders produce welcome messages. */
  lemma PackedIsWelcome(sender: Direction, p: Packet)
    requires ReservedUse(sender, p)
    ensures Welcome(Peer(sender), Packed(IdOf(p), BodyOf(p)))
  {
    match p
    case GamePacket(_, _) =>
    case PingPacket(_) =>
    case InitPacket(init) => assert NextOf(EncInit(init)) == init.next;
  }

  lemma SendStaysHealthy(c: Conn, p: Packet)
    requires Healthy(c) && CanSend(c, p) && ReservedUse(c.direction, p)
    ensures Healthy(Send(c, p))
  {
    PackedIsWelcome(c.direction, p);
  }

  lemma RunPostStaysHealthy(c: Conn)
    requires Sound(c) && Healthy(c) && c.w.posts != []
    ensures Healthy(RunPost(c))
  {
    assert c.w.posts[0] in c.w.posts;
  }

  lemma WriteDoneStaysHealthy(c: Conn, now: int)
    requires Sound(c) && Healthy(c) && c.w.messagesOut != []
    ensures Healthy(HeaderWritten(c, now)) && Healthy(MessageWritten(c, now))
  {
  }

  /** What a whole message in `wip` allows to conclude about the message. */
  lemma JudgedStaysHealthy(c: Conn, now: int, m: SendInfo)
    requires Healthy(c) && !c.isConnecting && WipWhole(c.r)
    requires m == WipOnWire(c.r) && Framed(m) && Welcome(c.direction, m)
    ensures Healthy(Judged(c, now))
  {
    Swap16Twice(c.r.wip.header.size);
    if m.header.id == KEEP_ALIVE_ID && c.direction.ToServer? {
      SendStaysHealthy(c.(lastKeepAlive := now), PingPacket(RawPayload(c.r.wip.body)));
    }
  }

  /** A whole message that was consumed is one the peer sent. */
  lemma WholeMessageWasSent(w: Writer, r: Reader, direction: Direction, wire: seq<byte>)
    requires WriterSound(w) && WholeMessage(r, direction) && w.emitted == r.consumed + wire
    ensures r.received + [WipOnWire(r)] <= w.accepted && Framed(WipOnWire(r))
  {
    var all := r.received + [WipOnWire(r)];
    Swap16Twice(r.wip.header.size);
    DeliveredLast(r.received, WipOnWire(r));
    EmittedIsStarted(w);
    FramesPrefix(all, StartedBy(w));
  }

  lemma WholeMessageIsWelcome(w: Writer, r: Reader, direction: Direction, wire: seq<byte>)
    requires WriterSound(w) && WholeMessage(r, direction) && w.emitted == r.consumed + wire
    requires AllWelcome(direction, w.accepted)
    ensures Welcome(direction, WipOnWire(r)) && Framed(WipOnWire(r))
  {
    WholeMessageWasSent(w, r, direction, wire);
    assert (r.received + [WipOnWire(r)])[|r.received|] == WipOnWire(r) == w.accepted[|r.received|];
  }

  lemma AddToIncomingStaysHealthy(c: Conn, w: Writer, wire: seq<byte>, now: int)
    requires Healthy(c) && !c.isConnecting && WholeMessage(c.r, c.direction)
    requires WriterSound(w) && w.emitted == c.r.consumed + wire && AllWelcome(c.direction, w.accepted)
    ensures Healthy(AddToIncoming(c, now)) && !IsCompressed(c.r.wip.header)
  {
    WholeMessageIsWelcome(w, c.r, c.direction, wire);
    JudgedStaysHealthy(c.(r := Counted(c.r), lastReceived := now), now, WipOnWire(c.r));
  }

  lemma ReadDoneStaysHealthy(c: Conn, w: Writer, wire: seq<byte>, now: int, incoming: seq<byte>)
    requires Sound(c) && Healthy(c)
    requires WriterSound(w) && w.emitted == c.r.consumed + wire && AllWelcome(c.direction, w.accepted)
    ensures Healthy(Act(c, ReadDone(now), incoming).conn)
  {
    if c.r.op.ReadingHeader? && |c.r.op.got| == HEADER_SIZE {
      HeaderInKeeps(c.r, c.direction);
      var d := c.(r := HeaderIn(c.r, c.r.op.got));
      if d.r.wip.header.size == 0 { AddToIncomingStaysHealthy(d, w, wire, now); }
    } else if c.r.op.ReadingBody? && |c.r.op.got| == c.r.wip.header.size {
      BodyInKeeps(c.r, c.direction);
      AddToIncomingStaysHealthy(c.(r := BodyIn(c.r, c.r.op.got)), w, wire, now);
    }
  }

  lemma ConnectedStaysHealthy(c: Conn)
    requires Sound(c) && Healthy(c) && c.isConnecting && c.direction.ToServer?
    ensures Healthy(Connected(c, true))
  {
    if c.initPacket.Some? { SendStaysHealthy(c.(isConnecting := false, isOpen := true), c.initPacket.value); }
  }

  lemma ActStaysHealthy(c: Conn, a: Action, w: Writer, incoming: seq<byte>)
    requires Sound(c) && Healthy(c)
    requires CalmMove(Move(if c.direction.ToClient? then Server else Client, a))
    requires WriterSound(w) && w.emitted == c.r.consumed + incoming && AllWelcome(c.direction, w.accepted)
    ensures Healthy(Act(c, a, incoming).conn)
  {
    match a
    case AppSend(p) => if CanSend(c, p) { SendStaysHealthy(c, p); }
    case PostRuns => if c.w.posts != [] { RunPostStaysHealthy(c); }
    case WriteDone(now) => if c.w.messagesOut != [] { WriteDoneStaysHealthy(c, now); }
    case ReadDone(now) => ReadDoneStaysHealthy(c, w, incoming, now, incoming);
    case ConnectDone(ok) => if c.isConnecting && c.direction.ToServer? { ConnectedStaysHealthy(c); }
    case WriteSome(_) =>
    case ReadSome(_) =>
  }

  lemma StepStaysHealthy(l: Link, m: Move)
    requires LinkSound(l) && Healthy(l.server) && Healthy(l.client) && CalmMove(m)
    ensures Healthy(Step(l, m).server) && Healthy(Step(l, m).client)
  {
    match m.side
    case Server => ActStaysHealthy(l.server, m.action, l.client.w, l.toServer);
    case Client => ActStaysHealthy(l.client, m.action, l.server.w, l.toClient);
  }

  /** In every run without failures or close in which reserved IDs carry only their own packets,
      neither end throws or closes, whatever the fragmentation and interleaving. */
  lemma {:induction false} CalmRunsStayHealthy(l: Link, moves: seq<Move>)
    requires Start(l) && AllCalm(moves)
    requires l.client.initPacket.Some? ==> ReservedUse(ToServer, l.client.initPacket.value)
    ensures Healthy(Run(l, moves).server) && Healthy(Run(l, moves).client)
  {
    if moves != [] {
      var before, m := moves[..|moves| - 1], moves[|moves| - 1];
      CalmRunsStayHealthy(l, before);
      RunKeeps(l, before);
      StepStaysHealthy(Run(l, before), m);
    }
  }
}
