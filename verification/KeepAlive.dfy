// Pings, their echoes and the time stamp that decides whether the server drops a connection.

module KeepAlive {
  import opened Bytes
  import opened Packets
  import opened Framing
  import opened ConnectionSpec
  import opened ConnectionSound
  import opened Links

  function PayloadOf(m: SendInfo): uint64 {
    if |m.body| >= PING_SIZE then RawPayload(m.body) else 0
  }

  function PayloadIn(m: SendInfo): seq<uint64> {
    if m.header.id == KEEP_ALIVE_ID then [PayloadOf(m)] else []
  }

  /** The keep-alive payloads among some messages, in order. */
  function Payloads(ms: seq<SendInfo>): seq<uint64> {
    if ms == [] then [] else Payloads(ms[..|ms| - 1]) + PayloadIn(ms[|ms| - 1])
  }

  lemma PayloadsAppend(ms: seq<SendInfo>, m: SendInfo)
    ensures Payloads(ms + [m]) == Payloads(ms) + PayloadIn(m)
  {
    assert (ms + [m])[..|ms|] == ms;
  }

  lemma {:induction false} PayloadsSplit(a: seq<SendInfo>, b: seq<SendInfo>)
    ensures Payloads(a + b) == Payloads(a) + Payloads(b)
  {
    if b == [] {
      assert a + b == a;
    } else {
      var c, m := b[..|b| - 1], b[|b| - 1];
      PayloadsSplit(a, c);
      PayloadsAppend(a + c, m);
      Regroup(Payloads(a), Payloads(c), PayloadIn(m));
      assert a + b == (a + c) + [m];
    }
  }

  lemma PayloadsPrefix(a: seq<SendInfo>, b: seq<SendInfo>)
    requires a <= b
    ensures Payloads(b) == Payloads(a) + Payloads(b[|a|..]) && Payloads(a) <= Payloads(b)
  {
    assert b == a + b[|a|..];
    PayloadsSplit(a, b[|a|..]);
  }

  // ---- The setting: a client that answers pings and sends no Init --------------------------------

  /** Only the server sends pings of its own accord, and the client sends no Init. */
  predicate EchoingMove(m: Move) {
    m.action.AppSend? ==>
      match m.action.packet
      case GamePacket(id, _) => id != KEEP_ALIVE_ID && (m.side.Client? ==> id != INIT_ID)
      case PingPacket(_) => m.side.Server?
      case InitPacket(_) => m.side.Server?
  }

  predicate AllEchoing(moves: seq<Move>) {
    forall i | 0 <= i < |moves| :: EchoingMove(moves[i])
  }

  predicate IsPing(m: SendInfo) {
    m.header.id == KEEP_ALIVE_ID ==> m.header.flags == 0 && |m.body| == PING_SIZE
  }

  predicate AllPings(ms: seq<SendInfo>) {
    forall i | 0 <= i < |ms| :: IsPing(ms[i])
  }

  // ---- What one step does to the keep-alive fields ----------------------------------------------

  /** At most one message was accepted and at most one was received. */
  predicate OneMore(c: Conn, d: Conn) {
    && c.w.accepted <= d.w.accepted && |d.w.accepted| <= |c.w.accepted| + 1
    && c.r.received <= d.r.received && |d.r.received| <= |c.r.received| + 1
    && d.direction == c.direction
  }

  /** The server remembers the payload of each ping it sends; a pong stamps the connection with its
      time if it answers the last ping sent, and with the epoch otherwise. */
  predicate ServerStep(c: Conn, d: Conn) {
    && OneMore(c, d)
    && (|d.w.accepted| == |c.w.accepted| || |d.r.received| == |c.r.received|)
    && (if |d.w.accepted| == |c.w.accepted| then d.lastKeepAliveValue == c.lastKeepAliveValue
        else
          var m := d.w.accepted[|c.w.accepted|];
          && IsPing(m)
          && d.lastKeepAliveValue == if m.header.id == KEEP_ALIVE_ID then PayloadOf(m) else c.lastKeepAliveValue)
    && (if |d.r.received| == |c.r.received| || d.r.received[|c.r.received|].header.id != KEEP_ALIVE_ID
        then d.lastKeepAlive == c.lastKeepAlive && d.pongAt == c.pongAt
        else
          var m := d.r.received[|c.r.received|];
          IsPing(m) ==> d.lastKeepAlive == if PayloadOf(m) == c.lastKeepAliveValue then d.pongAt else EPOCH)
  }

  /** The client accepts one pong for each ping it receives, with the same payload, unless it throws;
      and no other keep-alive message, and no Init. */
  predicate ClientStep(c: Conn, d: Conn) {
    && OneMore(c, d)
    && (forall i | |c.w.accepted| <= i < |d.w.accepted| ::
          IsPing(d.w.accepted[i]) && d.w.accepted[i].header.id != INIT_ID)
    && (c.crashed ==> d == c)
    && if |d.r.received| > |c.r.received| && d.r.received[|c.r.received|].header.id == KEEP_ALIVE_ID then
         || (d.crashed && d.w.accepted == c.w.accepted)
         || (|d.w.accepted| == |c.w.accepted| + 1
             && d.w.accepted[|c.w.accepted|].header.id == KEEP_ALIVE_ID
             && PayloadOf(d.w.accepted[|c.w.accepted|]) == PayloadOf(d.r.received[|c.r.received|]))
       else
         |d.w.accepted| > |c.w.accepted| ==> d.w.accepted[|c.w.accepted|].header.id != KEEP_ALIVE_ID
  }

  predicate StepOf(c: Conn, d: Conn) {
    if c.direction.ToClient? then ServerStep(c, d) else ClientStep(c, d)
  }

  lemma PingIsPacked(payload: uint64)
    ensures var m := Packed(KEEP_ALIVE_ID, EncPing(payload));
            IsPing(m) && m.header.id == KEEP_ALIVE_ID && PayloadOf(m) == payload
    ensures forall value: uint64 :: Remembered(ToClient, value, PingPacket(payload)) == payload
  {
    RawPayloadOfPing(payload);
    assert Packed(KEEP_ALIVE_ID, EncPing(payload)).header.size == Swap16(8);
  }

  lemma AcceptedStep(c: Conn, d: Conn, m: SendInfo)
    requires d.w.accepted == c.w.accepted + [m] && d.r == c.r && d.direction == c.direction
    requires c.direction.ToClient? && IsPing(m) && m.header.id == KEEP_ALIVE_ID
    requires d.lastKeepAliveValue == PayloadOf(m) && d.lastKeepAlive == c.lastKeepAlive && d.pongAt == c.pongAt
    ensures ServerStep(c, d)
  {
  }

  lemma PingSendStep(c: Conn, payload: uint64)
    requires CanSend(c, PingPacket(payload)) && !c.crashed && c.direction.ToClient?
    ensures ServerStep(c, Send(c, PingPacket(payload)))
  {
    PingIsPacked(payload);
    AcceptedStep(c, Send(c, PingPacket(payload)), Packed(KEEP_ALIVE_ID, EncPing(payload)));
  }

  lemma OtherSendStep(c: Conn, p: Packet)
    requires CanSend(c, p) && !c.crashed && IdOf(p) != KEEP_ALIVE_ID && (c.direction.ToServer? ==> IdOf(p) != INIT_ID)
    ensures StepOf(c, Send(c, p))
  {
  }

  lemma SendStep(c: Conn, p: Packet)
    requires CanSend(c, p) && !c.crashed
    requires EchoingMove(Move(if c.direction.ToClient? then Server else Client, AppSend(p)))
    ensures StepOf(c, Send(c, p))
  {
    if p.PingPacket? { PingSendStep(c, p.payload); } else { OtherSendStep(c, p); }
  }

  lemma WriterStep(c: Conn, d: Conn)
    requires d.w.accepted == c.w.accepted && d.r.received == c.r.received && d.direction == c.direction && !c.crashed
    requires d.lastKeepAliveValue == c.lastKeepAliveValue
    requires c.direction.ToClient? ==> d.lastKeepAlive == c.lastKeepAlive && d.pongAt == c.pongAt
    ensures StepOf(c, d)
  {
  }

  lemma EchoStep(c: Conn, d: Conn, now: int, m: SendInfo)
    requires c.direction.ToServer? && !c.crashed && d.direction == c.direction && !d.crashed
    requires d.w == c.w && d.r.received == c.r.received + [m] && m.header.id == KEEP_ALIVE_ID
    requires |m.body| == PING_SIZE && d.r.wip.body == m.body
    ensures StepOf(c, Echo(d, now)) && (!Echo(d, now).crashed ==> StepOf(c, Deliver(Echo(d, now))))
  {
    RawPayloadOfPing(RawPayload(m.body));
  }

  /** A message was counted: `m` is now the last one received. */
  lemma JudgedStep(c: Conn, d: Conn, now: int, m: SendInfo)
    requires !c.crashed && !d.crashed && d.direction == c.direction && d.w == c.w && WipWhole(d.r)
    requires d.lastKeepAliveValue == c.lastKeepAliveValue && d.lastKeepAlive == c.lastKeepAlive && d.pongAt == c.pongAt
    requires d.r.received == c.r.received + [m]
    requires m.header.id == d.r.wip.header.id && m.header.flags == d.r.wip.header.flags
    requires |m.body| == d.r.wip.header.size && (m.body != [] ==> m.body == d.r.wip.body)
    ensures StepOf(c, Judged(d, now))
  {
    if d.r.wip.header.id == KEEP_ALIVE_ID && GoodKeepAlive(d.r.wip.header) && c.direction.ToServer? {
      EchoStep(c, d, now, m);
    }
  }

  lemma AddToIncomingStep(c: Conn, q: Reader, now: int)
    requires Sound(c) && !c.crashed && q.received == c.r.received && WholeMessage(q, c.direction)
    ensures StepOf(c, AddToIncoming(c.(r := q), now))
  {
    Swap16Twice(q.wip.header.size);
    JudgedStep(c, c.(r := Counted(q), lastReceived := now), now, WipOnWire(q));
  }

  lemma HeaderReadStep(c: Conn, q: Reader, now: int)
    requires Sound(c) && !c.crashed && q.received == c.r.received
    requires q.wip.header.size == 0 ==> WholeMessage(q, c.direction)
    ensures StepOf(c, if q.wip.header.size == 0 then AddToIncoming(c.(r := q), now)
                      else c.(r := BodyAwaited(q)))
  {
    if q.wip.header.size == 0 {
      AddToIncomingStep(c, q, now);
    } else {
      WriterStep(c, c.(r := BodyAwaited(q)));
    }
  }

  lemma BodyReadStep(c: Conn, now: int)
    requires Sound(c) && !c.crashed && c.r.op.ReadingBody? && |c.r.op.got| == c.r.wip.header.size
    ensures StepOf(c, BodyRead(c, c.r.op.got, now))
  {
    BodyInKeeps(c.r, c.direction);
    var q := BodyIn(c.r, c.r.op.got);
    if IsCompressed(q.wip.header) {
      WriterStep(c, ReadFailed(c.(r := q)));
    } else {
      AddToIncomingStep(c, q, now);
    }
  }

  lemma ReadDoneStep(c: Conn, now: int, incoming: seq<byte>)
    requires Sound(c) && !c.crashed
    ensures StepOf(c, Act(c, ReadDone(now), incoming).conn)
  {
    ActReadDone(c, now, incoming);
    ReadCompletedStep(c, now);
  }

  lemma ReadCompletedStep(c: Conn, now: int)
    requires Sound(c) && !c.crashed
    ensures StepOf(c, ReadCompleted(c, now))
  {
    if c.r.op.ReadingHeader? && |c.r.op.got| == HEADER_SIZE {
      HeaderInKeeps(c.r, c.direction);
      HeaderReadStep(c, HeaderIn(c.r, c.r.op.got), now);
    } else if c.r.op.ReadingBody? && |c.r.op.got| == c.r.wip.header.size {
      BodyReadStep(c, now);
    } else {
      WriterStep(c, c);
    }
  }

  lemma WriteActStep(c: Conn, a: Action, incoming: seq<byte>)
    requires !c.crashed && (a.PostRuns? || a.WriteSome? || a.WriteDone? || a.WriteFails?)
    ensures StepOf(c, Act(c, a, incoming).conn)
  {
    WriterStep(c, Act(c, a, incoming).conn);
  }

  lemma ActStep(c: Conn, a: Action, incoming: seq<byte>)
    requires Sound(c) && EchoingMove(Move(if c.direction.ToClient? then Server else Client, a))
    requires c.direction.ToServer? ==> c.initPacket.None?
    ensures StepOf(c, Act(c, a, incoming).conn)
  {
    if c.crashed { return; }
    match a
    case AppSend(p) => if CanSend(c, p) { SendStep(c, p); }
    case ReadDone(now) => ReadDoneStep(c, now, incoming);
    case PostRuns => WriteActStep(c, a, incoming);
    case WriteSome(_) => WriteActStep(c, a, incoming);
    case WriteDone(_) => WriteActStep(c, a, incoming);
    case WriteFails => WriteActStep(c, a, incoming);
    case _ => WriterStep(c, Act(c, a, incoming).conn);
  }

  // ---- The invariant of whole runs --------------------------------------------------------------

  /** Pings sent, pongs received: the last ping sent is the value the server remembers, and while no
      pong is outstanding the stamp is the time of the last pong (or of creation). */
  predicate ServerStamps(server: Conn) {
    var pings, pongs := Payloads(server.w.accepted), Payloads(server.r.received);
    && (pings != [] ==> pings[|pings| - 1] == server.lastKeepAliveValue)
    && (pongs == [] || |pongs| == |pings| ==> server.lastKeepAlive == server.pongAt)
  }

  predicate ClientEchoes(client: Conn) {
    && AllPings(client.w.accepted) && InitFree(client.w.accepted) && client.initPacket.None?
    && Payloads(client.w.accepted) <= Payloads(client.r.received)
    && (!client.crashed ==> Payloads(client.w.accepted) == Payloads(client.r.received))
  }

  predicate KeepAliveSound(l: Link) {
    ServerStamps(l.server) && ClientEchoes(l.client)
  }

  lemma OneMorePayload(a: seq<SendInfo>, b: seq<SendInfo>)
    requires a <= b && |b| <= |a| + 1
    ensures |b| == |a| ==> b == a
    ensures |b| > |a| ==> Payloads(b) == Payloads(a) + PayloadIn(b[|a|])
  {
    if |b| > |a| {
      assert b == a + [b[|a|]];
      PayloadsAppend(a, b[|a|]);
    }
  }

  lemma NextIn(a: seq<uint64>, x: seq<uint64>, b: seq<uint64>, sent: seq<uint64>, pings: seq<uint64>)
    requires b == a + x && b <= sent <= pings
    ensures a <= b <= pings
    ensures forall i | 0 <= i < |x| :: |a| + i < |pings| && pings[|a| + i] == x[i]
  {
    forall i | 0 <= i < |x| ensures |a| + i < |pings| && pings[|a| + i] == x[i] {
      assert b[|a| + i] == x[i];
    }
  }

  /** A message the server received was one the client accepted; its payload is the next of theirs. */
  lemma NextPong(a: seq<SendInfo>, b: seq<SendInfo>, sent: seq<SendInfo>, pings: seq<uint64>)
    requires a <= b <= sent && |b| <= |a| + 1 && AllPings(sent) && Payloads(sent) <= pings
    ensures Payloads(a) <= Payloads(b) <= pings
    ensures |b| > |a| ==>
              && IsPing(b[|a|]) && Payloads(b) == Payloads(a) + PayloadIn(b[|a|])
              && (b[|a|].header.id == KEEP_ALIVE_ID ==>
                    |Payloads(a)| < |pings| && PayloadOf(b[|a|]) == pings[|Payloads(a)|])
    ensures |b| == |a| ==> b == a
  {
    OneMorePayload(a, b);
    PayloadsPrefix(b, sent);
    if |b| > |a| {
      assert b[|a|] == sent[|a|];
      NextIn(Payloads(a), PayloadIn(b[|a|]), Payloads(b), Payloads(sent), pings);
    }
  }

  lemma ServerSendKeeps(c: Conn, d: Conn)
    requires ServerStep(c, d) && ServerStamps(c) && |d.r.received| == |c.r.received|
    requires |Payloads(c.r.received)| <= |Payloads(c.w.accepted)|
    ensures ServerStamps(d)
  {
    OneMorePayload(c.w.accepted, d.w.accepted);
    assert d.r.received == c.r.received;
  }

  lemma StampsStay(c: Conn, d: Conn)
    requires ServerStamps(c) && d.w.accepted == c.w.accepted && d.lastKeepAliveValue == c.lastKeepAliveValue
    requires Payloads(d.r.received) == Payloads(c.r.received)
    requires d.lastKeepAlive == c.lastKeepAlive && d.pongAt == c.pongAt
    ensures ServerStamps(d)
  {
  }

  /** A pong that answers the next ping was received. */
  lemma StampsPong(c: Conn, d: Conn, payload: uint64)
    requires ServerStamps(c) && d.w.accepted == c.w.accepted && d.lastKeepAliveValue == c.lastKeepAliveValue
    requires Payloads(d.r.received) == Payloads(c.r.received) + [payload]
    requires |Payloads(c.r.received)| < |Payloads(c.w.accepted)|
    requires payload == Payloads(c.w.accepted)[|Payloads(c.r.received)|]
    requires d.lastKeepAlive == if payload == c.lastKeepAliveValue then d.pongAt else EPOCH
    ensures ServerStamps(d)
  {
  }

  lemma ServerReceiveKeeps(c: Conn, d: Conn, sent: seq<SendInfo>)
    requires ServerStep(c, d) && ServerStamps(c) && |d.r.received| > |c.r.received|
    requires d.r.received <= sent && AllPings(sent) && Payloads(sent) <= Payloads(c.w.accepted)
    ensures ServerStamps(d)
  {
    assert d.w.accepted == c.w.accepted;
    NextPong(c.r.received, d.r.received, sent, Payloads(c.w.accepted));
    var m := d.r.received[|c.r.received|];
    if m.header.id == KEEP_ALIVE_ID { StampsPong(c, d, PayloadOf(m)); } else { StampsStay(c, d); }
  }

  /** `sent` are the pongs the client accepted; the server only ever receives some of those. */
  lemma ServerStepKeeps(c: Conn, d: Conn, sent: seq<SendInfo>)
    requires ServerStep(c, d) && ServerStamps(c)
    requires d.r.received <= sent && AllPings(sent) && Payloads(sent) <= Payloads(c.w.accepted)
    ensures ServerStamps(d)
  {
    if |d.r.received| > |c.r.received| {
      ServerReceiveKeeps(c, d, sent);
    } else {
      PayloadsPrefix(c.r.received, sent);
      ServerSendKeeps(c, d);
    }
  }

  lemma ClientStepKeeps(c: Conn, d: Conn)
    requires ClientStep(c, d) && ClientEchoes(c) && d.initPacket == c.initPacket
    ensures ClientEchoes(d)
  {
    OneMorePayload(c.w.accepted, d.w.accepted);
    OneMorePayload(c.r.received, d.r.received);
  }

  lemma PingsArrive(l: Link)
    requires LinkSound(l) && ClientEchoes(l.client)
    ensures l.server.r.received <= l.client.w.accepted && l.client.r.received <= l.server.w.accepted
    ensures Payloads(l.client.w.accepted) <= Payloads(l.server.w.accepted)
  {
    ReceivedIsSent(l.client.w, l.server.r, ToClient, l.toServer);
    ReceivedIsSent(l.server.w, l.client.r, ToServer, l.toClient);
    PayloadsPrefix(l.client.r.received, l.server.w.accepted);
  }

  lemma StepKeepsKeepAlive(l: Link, m: Move)
    requires LinkSound(l) && KeepAliveSound(l) && EchoingMove(m)
    ensures KeepAliveSound(Step(l, m))
  {
    StepKeeps(l, m);
    PingsArrive(l);
    match m.side
    case Server =>
      ActStep(l.server, m.action, l.toServer);
      PingsArrive(Step(l, m));
      ServerStepKeeps(l.server, Step(l, m).server, l.client.w.accepted);
    case Client =>
      ActStep(l.client, m.action, l.toClient);
      ActMoves(l.client, m.action, l.toClient);
      ClientStepKeeps(l.client, Step(l, m).client);
  }

  lemma {:induction false} RunKeepsKeepAlive(l: Link, moves: seq<Move>)
    requires Start(l) && l.client.initPacket.None? && AllEchoing(moves)
    ensures LinkSound(Run(l, moves)) && KeepAliveSound(Run(l, moves))
  {
    RunKeeps(l, moves);
    if moves != [] {
      RunKeepsKeepAlive(l, moves[..|moves| - 1]);
      StepKeepsKeepAlive(Run(l, moves[..|moves| - 1]), moves[|moves| - 1]);
    }
  }

  // ---- Main results -----------------------------------------------------------------------------

  /** Pongs on their way to the server, then pings on their way to the client. */
  function InFlight(l: Link): seq<uint64>
    requires |l.server.r.received| <= |l.client.w.accepted| && |l.client.r.received| <= |l.server.w.accepted|
  {
    Payloads(l.client.w.accepted[|l.server.r.received|..]) + Payloads(l.server.w.accepted[|l.client.r.received|..])
  }

  /** What is in flight is what was sent and not answered yet, in sending order. */
  lemma InFlightIsSuffix(l: Link)
    requires LinkSound(l) && KeepAliveSound(l) && !l.client.crashed
    ensures |l.server.r.received| <= |l.client.w.accepted| && |l.client.r.received| <= |l.server.w.accepted|
    ensures Payloads(l.server.w.accepted) == Payloads(l.server.r.received) + InFlight(l)
  {
    PingsArrive(l);
    PayloadsPrefix(l.server.r.received, l.client.w.accepted);
    PayloadsPrefix(l.client.r.received, l.server.w.accepted);
    Regroup(Payloads(l.server.r.received), Payloads(l.client.w.accepted[|l.server.r.received|..]),
            Payloads(l.server.w.accepted[|l.client.r.received|..]));
  }

  /** In every run with an echoing client that sent no Init and did not throw: pongs received, then
      what is in flight, are exactly the pings sent; what is in flight ends in the value the server
      remembers; and once nothing is in flight the stamp is the time of the last pong, not the epoch,
      however many pings overlapped. */
  lemma {:induction false} PingsInFlight(l: Link, moves: seq<Move>)
    requires Start(l) && l.client.initPacket.None? && AllEchoing(moves) && !Run(l, moves).client.crashed
    ensures var s := Run(l, moves);
            && |s.server.r.received| <= |s.client.w.accepted| && |s.client.r.received| <= |s.server.w.accepted|
            && Payloads(s.server.w.accepted) == Payloads(s.server.r.received) + InFlight(s)
            && (InFlight(s) != [] ==> InFlight(s)[|InFlight(s)| - 1] == s.server.lastKeepAliveValue)
            && (InFlight(s) == [] ==> s.server.lastKeepAlive == s.server.pongAt)
  {
    RunKeepsKeepAlive(l, moves);
    InFlightIsSuffix(Run(l, moves));
  }

  /** Only the end of a read that completes a keep-alive message moves `pongAt`, and to its own time. */
  predicate PongTimed(c: Conn, d: Conn, a: Action) {
    && |c.r.received| <= |d.r.received| <= |c.r.received| + 1
    && if |d.r.received| == |c.r.received| then
         d.pongAt == c.pongAt && d.lastKeepAlive == c.lastKeepAlive
       else
         var m := d.r.received[|c.r.received|];
         && a.ReadDone?
         && (m.header.id == KEEP_ALIVE_ID && IsPing(m) ==> d.pongAt == a.at)
         && (m.header.id != KEEP_ALIVE_ID ==> d.pongAt == c.pongAt && d.lastKeepAlive == c.lastKeepAlive)
  }

  lemma AddedTimed(c: Conn, q: Reader, now: int)
    requires c.direction.ToClient? && WipWhole(q) && q.received == c.r.received
    ensures PongTimed(c, AddToIncoming(c.(r := q), now), ReadDone(now))
  {
    CountedIsReceived(c.(r := q), now);
    Swap16Twice(q.wip.header.size);
  }

  lemma ReadCompletedTimed(c: Conn, now: int)
    requires c.direction.ToClient?
    ensures PongTimed(c, ReadCompleted(c, now), ReadDone(now))
  {
    if c.r.op.ReadingHeader? && |c.r.op.got| == HEADER_SIZE {
      HeaderReadIs(c, c.r.op.got, now);
      var q := HeaderIn(c.r, c.r.op.got);
      if q.wip.header.size == 0 { AddedTimed(c, q, now); }
    } else if c.r.op.ReadingBody? && |c.r.op.got| == c.r.wip.header.size {
      if !IsCompressed(c.r.wip.header) { AddedTimed(c, BodyIn(c.r, c.r.op.got), now); }
    }
  }

  lemma WriteActTimed(c: Conn, a: Action, incoming: seq<byte>)
    requires !a.ReadDone? && c.direction.ToClient?
    ensures PongTimed(c, Act(c, a, incoming).conn, a)
  {
  }

  lemma ActTimed(c: Conn, a: Action, incoming: seq<byte>)
    requires c.direction.ToClient?
    ensures PongTimed(c, Act(c, a, incoming).conn, a)
  {
    if a.ReadDone? {
      ActReadDone(c, a.at, incoming);
      ReadCompletedTimed(c, a.at);
    } else {
      WriteActTimed(c, a, incoming);
    }
  }

  /** A step `a` of the server takes it from `c` to `d`. If it processed a pong, the pong has the payload
      of the first ping not answered yet, and the stamp is the time of the step exactly when that is also
      the payload of the last ping sent. Otherwise it is the epoch, which the next check drops. Nothing
      else moves the stamp. */
  predicate PongStamped(c: Conn, d: Conn, a: Action) {
    var pings, pongs := Payloads(c.w.accepted), Payloads(c.r.received);
    if |Payloads(d.r.received)| == |pongs| then
      d.pongAt == c.pongAt && d.lastKeepAlive == c.lastKeepAlive
    else
      && |Payloads(d.r.received)| == |pongs| + 1 && |pongs| < |pings|
      && a.ReadDone? && d.pongAt == a.at
      && d.lastKeepAlive == if pings[|pongs|] == pings[|pings| - 1] then a.at else EPOCH
  }

  lemma ServerStepStamps(c: Conn, d: Conn, a: Action, sent: seq<SendInfo>)
    requires ServerStep(c, d) && ServerStamps(c) && PongTimed(c, d, a)
    requires d.r.received <= sent && AllPings(sent) && Payloads(sent) <= Payloads(c.w.accepted)
    ensures PongStamped(c, d, a)
  {
    NextPong(c.r.received, d.r.received, sent, Payloads(c.w.accepted));
  }

  lemma ServerMoveStamps(l: Link, a: Action)
    requires LinkSound(l) && KeepAliveSound(l) && EchoingMove(Move(Server, a))
    ensures PongStamped(l.server, Step(l, Move(Server, a)).server, a)
  {
    var k := Step(l, Move(Server, a));
    StepKeeps(l, Move(Server, a));
    ActStep(l.server, a, l.toServer);
    ActTimed(l.server, a, l.toServer);
    PingsArrive(l);
    PingsArrive(k);
    ServerStepStamps(l.server, k.server, a, l.client.w.accepted);
  }

  /** In every run, so two pings with different payloads in flight are enough for an epoch stamp. */
  lemma {:induction false} OverlappedPongStampsEpoch(l: Link, moves: seq<Move>)
    requires Start(l) && l.client.initPacket.None? && AllEchoing(moves)
    requires moves != [] && moves[|moves| - 1].side.Server?
    ensures PongStamped(Run(l, moves[..|moves| - 1]).server, Run(l, moves).server, moves[|moves| - 1].action)
  {
    var before, m := moves[..|moves| - 1], moves[|moves| - 1];
    RunKeepsKeepAlive(l, before);
    ServerMoveStamps(Run(l, before), m.action);
  }

  // ---- The periodic check -----------------------------------------------------------------------

  /** KeepAliveMaxDelay, in seconds. */
  const MAX_DELAY := 45

  /** What the check of the server asks of a connection it keeps. */
  predicate Survives(c: Conn, now: int) {
    (IsConnected(c) || c.isConnecting) && c.lastKeepAlive >= now - MAX_DELAY
  }

  /** A step of the link, or the server's check of this connection, which pings it if it keeps it. */
  datatype Event = LinkStep(move: Move) | Check(now: int, payload: uint64)

  datatype Watched = Watched(link: Link, removed: bool)

  function Watch(w: Watched, e: Event): Watched {
    match e
    case LinkStep(m) => w.(link := Step(w.link, m))
    case Check(now, payload) =>
      if w.removed || !Survives(w.link.server, now) then w.(removed := true)
      else if IsConnected(w.link.server) then w.(link := Step(w.link, Move(Server, AppSend(PingPacket(payload)))))
      else w
  }

  function WatchAll(l: Link, events: seq<Event>): Watched {
    if events == [] then Watched(l, false) else Watch(WatchAll(l, events[..|events| - 1]), events[|events| - 1])
  }

  function LinkSteps(moves: seq<Move>): seq<Event> {
    seq(|moves|, i requires 0 <= i < |moves| => LinkStep(moves[i]))
  }

  lemma {:induction false} WatchedRun(l: Link, moves: seq<Move>)
    ensures WatchAll(l, LinkSteps(moves)) == Watched(Run(l, moves), false)
  {
    if moves != [] {
      var n := |moves| - 1;
      assert LinkSteps(moves)[..n] == LinkSteps(moves[..n]);
      WatchedRun(l, moves[..n]);
    }
  }

  /** The check comes after every ping was answered and within the allowed delay of the last answer
      (or of the start). */
  predicate OnTime(c: Conn, now: int) {
    |Payloads(c.r.received)| == |Payloads(c.w.accepted)| && now <= c.pongAt + MAX_DELAY
  }

  predicate Paced(l: Link, events: seq<Event>) {
    events == [] ||
    var before, e := events[..|events| - 1], events[|events| - 1];
    && Paced(l, before)
    && match e
       case LinkStep(m) => EchoingMove(m)
       case Check(now, _) => OnTime(WatchAll(l, before).link.server, now)
  }

  lemma ClosedStaysClosed(c: Conn, a: Action, incoming: seq<byte>)
    requires c.direction.ToClient? && !c.isOpen
    ensures !Act(c, a, incoming).conn.isOpen
  {
    match a
    case ReadDone(now) => ReadDoneOpensNothing(c, now, incoming);
    case _ =>
  }

  lemma JudgedOpensNothing(c: Conn, now: int)
    requires WipWhole(c.r)
    ensures Judged(c, now).isOpen == c.isOpen
  {
  }

  lemma ReadDoneOpensNothing(c: Conn, now: int, incoming: seq<byte>)
    requires !c.isOpen
    ensures !Act(c, ReadDone(now), incoming).conn.isOpen
  {
    if c.r.op.ReadingHeader? && |c.r.op.got| == HEADER_SIZE {
      var d := c.(r := HeaderIn(c.r, c.r.op.got));
      if d.r.wip.header.size == 0 { JudgedOpensNothing(d.(r := Counted(d.r), lastReceived := now), now); }
    } else if c.r.op.ReadingBody? && |c.r.op.got| == c.r.wip.header.size {
      var d := c.(r := BodyIn(c.r, c.r.op.got));
      if !IsCompressed(d.r.wip.header) { JudgedOpensNothing(d.(r := Counted(d.r), lastReceived := now), now); }
    }
  }

  /** With checks on time, a connection to an echoing client that sent no Init is removed only when
      its socket is closed: the age of its stamp never removes it. */
  lemma {:induction false} NeverRemovedWhileOpen(l: Link, events: seq<Event>)
    requires Start(l) && l.client.initPacket.None? && Paced(l, events)
    ensures var w := WatchAll(l, events);
            LinkSound(w.link) && KeepAliveSound(w.link) && (w.removed ==> !w.link.server.isOpen)
  {
    if events == [] {
      StartSound(l);
    } else {
      var before, e := events[..|events| - 1], events[|events| - 1];
      NeverRemovedWhileOpen(l, before);
      WatchKeeps(WatchAll(l, before), e);
    }
  }

  lemma WatchKeeps(w: Watched, e: Event)
    requires LinkSound(w.link) && KeepAliveSound(w.link) && (w.removed ==> !w.link.server.isOpen)
    requires match e case LinkStep(m) => EchoingMove(m) case Check(now, _) => OnTime(w.link.server, now)
    ensures var x := Watch(w, e);
            LinkSound(x.link) && KeepAliveSound(x.link) && (x.removed ==> !x.link.server.isOpen)
  {
    match e
    case LinkStep(m) =>
      StepKeeps(w.link, m);
      StepKeepsKeepAlive(w.link, m);
      if w.removed && m.side.Server? { ClosedStaysClosed(w.link.server, m.action, w.link.toServer); }
    case Check(now, payload) =>
      var m := Move(Server, AppSend(PingPacket(payload)));
      StepKeeps(w.link, m);
      StepKeepsKeepAlive(w.link, m);
  }
}
