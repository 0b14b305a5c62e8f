// What an Init does: the server stops reading for good, so a client that introduces itself is never
// heard and, once the allowed delay since it connected has passed, removed by the next check.

module InitStop {
  import opened Bytes
  import opened Packets
  import opened Framing
  import opened ConnectionSpec
  import opened ConnectionSound
  import opened Links
  import opened Calm
  import opened KeepAlive
  import opened Drain

  // ---- When the server stops reading ------------------------------------------------------------

  /** Unless a handler threw: the server stopped at an Init if and only if it received one, and while
      its socket is open it reads if and only if it did not. */
  predicate StopsExactlyAtInit(c: Conn) {
    !c.crashed ==>
      && (StoppedAtInit(c) <==> !InitFree(c.r.received))
      && (c.isOpen ==> (c.r.op.NoRead? <==> !InitFree(c.r.received)))
  }

  lemma SoundStopsExactly(c: Conn)
    requires Sound(c) && c.direction.ToClient?
    ensures StopsExactlyAtInit(c)
  {
    if |c.r.messagesIn| == |c.r.received| {
      assert c.r.received[..|c.r.messagesIn|] == c.r.received;
    }
  }

  lemma {:induction false} EveryRunStopsExactlyAtInit(l: Link, moves: seq<Move>)
    requires Start(l)
    ensures StopsExactlyAtInit(Run(l, moves).server)
  {
    RunKeeps(l, moves);
    SoundStopsExactly(Run(l, moves).server);
  }

  /** Stopped for good: no step of any kind makes it read, answer a pong or stamp the connection. */
  lemma StaysStopped(c: Conn, a: Action, incoming: seq<byte>)
    requires StoppedAtInit(c)
    ensures var d := Act(c, a, incoming).conn;
            StoppedAtInit(d) && d.r == c.r && d.lastKeepAlive == c.lastKeepAlive && d.pongAt == c.pongAt
  {
  }

  lemma {:induction false} RunStaysStopped(l: Link, more: seq<Move>)
    requires StoppedAtInit(l.server)
    ensures var s := Run(l, more).server;
            StoppedAtInit(s) && s.r == l.server.r && s.lastKeepAlive == l.server.lastKeepAlive
  {
    if more != [] {
      var s, m := Run(l, more[..|more| - 1]), more[|more| - 1];
      RunStaysStopped(l, more[..|more| - 1]);
      StaysStopped(s.server, m.action, s.toServer);
    }
  }

  // ---- A client that introduces itself ----------------------------------------------------------

  /** The client sends nothing before its Init. */
  predicate InitFirst(c: Conn) {
    && c.initPacket.Some? && c.initPacket.value.InitPacket?
    && (if c.w.accepted == [] then !IsConnected(c) else c.w.accepted[0].header.id == INIT_ID)
  }

  /** Accepting packets and connecting take a connection, or the end of the connect. */
  predicate NeedsConnection(c: Conn, d: Conn) {
    && c.w.accepted <= d.w.accepted && d.initPacket == c.initPacket
    && (!IsConnected(c) ==> d.w.accepted == c.w.accepted && !IsConnected(d))
  }

  lemma WriteDoneNeeds(c: Conn, now: int)
    ensures NeedsConnection(c, WriteCompleted(c, now))
  {
  }

  lemma EchoNeeds(c: Conn, now: int)
    requires |c.r.wip.body| >= PING_SIZE
    ensures NeedsConnection(c, Echo(c, now)) && NeedsConnection(c, Deliver(Echo(c, now)))
  {
  }

  lemma JudgedNeeds(c: Conn, now: int)
    requires WipWhole(c.r)
    ensures NeedsConnection(c, Judged(c, now))
  {
    if c.r.wip.header.id == KEEP_ALIVE_ID && GoodKeepAlive(c.r.wip.header) { EchoNeeds(c, now); }
  }

  lemma ReadDoneNeeds(c: Conn, now: int)
    ensures NeedsConnection(c, ReadCompleted(c, now))
  {
    if c.r.op.ReadingHeader? && |c.r.op.got| == HEADER_SIZE {
      HeaderReadIs(c, c.r.op.got, now);
      var q := HeaderIn(c.r, c.r.op.got);
      if q.wip.header.size == 0 { JudgedNeeds(MessageCounted(c.(r := q), now), now); }
    } else if c.r.op.ReadingBody? && |c.r.op.got| == c.r.wip.header.size {
      if !IsCompressed(c.r.wip.header) { JudgedNeeds(MessageCounted(c.(r := BodyIn(c.r, c.r.op.got)), now), now); }
    }
  }

  lemma ActNeeds(c: Conn, a: Action, incoming: seq<byte>)
    requires !a.ConnectDone?
    ensures NeedsConnection(c, Act(c, a, incoming).conn)
  {
    match a
    case WriteDone(now) => WriteDoneNeeds(c, now);
    case ReadDone(now) =>
      ActReadDone(c, now, incoming);
      ReadDoneNeeds(c, now);
    case _ =>
  }

  lemma ActKeepsInitFirst(c: Conn, a: Action, incoming: seq<byte>)
    requires InitFirst(c) && c.direction.ToServer?
    ensures InitFirst(Act(c, a, incoming).conn)
  {
    if !a.ConnectDone? { ActNeeds(c, a, incoming); }
  }

  /** The server has heard nothing but, perhaps, the Init: nothing was delivered and no pong stamped it. */
  predicate Unheard(l: Link, created: int) {
    && LinkSound(l) && InitFirst(l.client)
    && l.server.lastKeepAlive == created
  }

  /** The first message the server receives is the Init, and there is no second. */
  lemma OnlyInitReceived(l: Link)
    requires LinkSound(l) && InitFirst(l.client)
    ensures l.server.r.messagesIn == [] && |l.server.r.received| <= 1
    ensures l.server.r.received != [] ==> l.server.r.received[0].header.id == INIT_ID
  {
    ReceivedIsSent(l.client.w, l.server.r, ToClient, l.toServer);
    FirstCounts(l.server.r.received, |l.server.r.messagesIn|);
  }

  lemma FirstCounts(ms: seq<SendInfo>, n: nat)
    requires n <= |ms|
    ensures n > 0 && InitFree(ms[..n]) ==> ms[0].header.id != INIT_ID
  {
    if n > 0 { assert ms[..n][0] == ms[0]; }
  }

  lemma ServerActUnheard(l: Link, a: Action)
    requires LinkSound(l) && InitFirst(l.client)
    ensures Act(l.server, a, l.toServer).conn.lastKeepAlive == l.server.lastKeepAlive
  {
    if a.ReadDone? && !l.server.crashed {
      var m := Move(Server, a);
      StepKeeps(l, m);
      OnlyInitReceived(Step(l, m));
      ActStep(l.server, a, l.toServer);
      ReceivedGrows(l.server, Step(l, m).server);
    }
  }

  lemma ReceivedGrows(c: Conn, d: Conn)
    requires ServerStep(c, d) && |d.r.received| <= 1
    requires d.r.received != [] ==> d.r.received[0].header.id == INIT_ID
    ensures d.lastKeepAlive == c.lastKeepAlive
  {
  }

  lemma StepKeepsUnheard(l: Link, m: Move, created: int)
    requires Unheard(l, created)
    ensures Unheard(Step(l, m), created)
  {
    StepKeeps(l, m);
    match m.side
    case Server => ServerActUnheard(l, m.action);
    case Client => ActKeepsInitFirst(l.client, m.action, l.toClient);
  }

  lemma StartIsUnheard(l: Link)
    requires Start(l) && l.client.initPacket.Some? && l.client.initPacket.value.InitPacket?
    ensures Unheard(l, l.server.pongAt)
  {
    StartSound(l);
  }

  lemma {:induction false} RunKeepsUnheard(l: Link, moves: seq<Move>)
    requires Start(l) && l.client.initPacket.Some? && l.client.initPacket.value.InitPacket?
    ensures Unheard(Run(l, moves), l.server.pongAt)
  {
    if moves == [] {
      StartIsUnheard(l);
    } else {
      RunKeepsUnheard(l, moves[..|moves| - 1]);
      StepKeepsUnheard(Run(l, moves[..|moves| - 1]), moves[|moves| - 1], l.server.pongAt);
    }
  }

  /** Nothing a client says after an Init it connected with is ever delivered, and its pongs never stamp
      the connection. */
  lemma {:induction false} InitClientIsNeverHeard(l: Link, moves: seq<Move>)
    requires Start(l) && l.client.initPacket.Some? && l.client.initPacket.value.InitPacket?
    ensures Run(l, moves).server.r.messagesIn == []
    ensures Run(l, moves).server.lastKeepAlive == l.server.pongAt
  {
    RunKeepsUnheard(l, moves);
    OnlyInitReceived(Run(l, moves));
  }

  /** It does come to that: a run without failures or close in which the server stops at the Init, with
      its socket open. */
  lemma {:induction false} InitStopsServer(l: Link, at: int) returns (moves: seq<Move>)
    requires Start(l) && l.client.initPacket.Some? && l.client.initPacket.value.InitPacket?
    requires KnownNext(l.client.initPacket.value.init.next)
    ensures AllUnprompted(moves) && StoppedAtInit(Run(l, moves).server) && Run(l, moves).server.isOpen
  {
    moves := CalmRunsDrain(l, [], at);
    assert [] + moves == moves;
    RunKeepsUnheard(l, moves);
    InitWasSent(Run(l, moves));
  }

  lemma InitWasSent(l: Link)
    requires Running(l) && InitFirst(l.client)
    ensures !InitFree(l.client.w.accepted) && l.server.isOpen
  {
    assert IsConnected(l.client);
  }

  // ---- The check --------------------------------------------------------------------------------

  lemma WatchKeepsUnheard(w: Watched, e: Event, created: int)
    requires Unheard(w.link, created)
    ensures Unheard(Watch(w, e).link, created)
  {
    match e
    case LinkStep(m) => StepKeepsUnheard(w.link, m, created);
    case Check(_, payload) => StepKeepsUnheard(w.link, Move(Server, AppSend(PingPacket(payload))), created);
  }

  lemma {:induction false} WatchedUnheard(l: Link, events: seq<Event>)
    requires Start(l) && l.client.initPacket.Some? && l.client.initPacket.value.InitPacket?
    ensures Unheard(WatchAll(l, events).link, l.server.pongAt)
  {
    if events == [] {
      StartIsUnheard(l);
    } else {
      WatchedUnheard(l, events[..|events| - 1]);
      WatchKeepsUnheard(WatchAll(l, events[..|events| - 1]), events[|events| - 1], l.server.pongAt);
    }
  }

  lemma LateCheckRemoves(l: Link, events: seq<Event>, now: int, payload: uint64)
    requires now > WatchAll(l, events).link.server.lastKeepAlive + MAX_DELAY
    ensures var w := WatchAll(l, events + [Check(now, payload)]); w.removed && w.link == WatchAll(l, events).link
  {
    assert (events + [Check(now, payload)])[..|events|] == events;
  }

  /** Whatever happened before, pings answered or not: a check later than the allowed delay after the
      connection was accepted removes a client that connected with an Init. */
  lemma {:induction false} InitClientIsRemoved(l: Link, events: seq<Event>, now: int, payload: uint64)
    requires Start(l) && l.client.initPacket.Some? && l.client.initPacket.value.InitPacket?
    requires now > l.server.pongAt + MAX_DELAY
    ensures WatchAll(l, events + [Check(now, payload)]).removed
  {
    WatchedUnheard(l, events);
    LateCheckRemoves(l, events, now, payload);
  }

  /** And it may well be open: stopped, alive and removed. */
  lemma {:induction false} OpenInitClientIsRemoved(l: Link, at: int, now: int, payload: uint64)
    returns (moves: seq<Move>)
    requires Start(l) && l.client.initPacket.Some? && l.client.initPacket.value.InitPacket?
    requires KnownNext(l.client.initPacket.value.init.next) && now > l.server.pongAt + MAX_DELAY
    ensures AllUnprompted(moves)
    ensures var w := WatchAll(l, LinkSteps(moves) + [Check(now, payload)]);
            w.removed && w.link == Run(l, moves) && w.link.server.isOpen
  {
    moves := InitStopsServer(l, at);
    WatchedRun(l, moves);
    InitClientIsNeverHeard(l, moves);
    LateCheckRemoves(l, LinkSteps(moves), now, payload);
  }

  lemma WatchStaysStopped(w: Watched, e: Event)
    requires StoppedAtInit(w.link.server)
    ensures var s := Watch(w, e).link.server;
            StoppedAtInit(s) && s.lastKeepAlive == w.link.server.lastKeepAlive
  {
    match e
    case LinkStep(m) => StaysStopped(w.link.server, m.action, w.link.toServer);
    case Check(_, payload) => StaysStopped(w.link.server, AppSend(PingPacket(payload)), w.link.toServer);
  }

  lemma {:induction false} WatchedStaysStopped(l: Link, events: seq<Event>, more: seq<Event>)
    requires StoppedAtInit(WatchAll(l, events).link.server)
    ensures var s := WatchAll(l, events + more).link.server;
            StoppedAtInit(s) && s.lastKeepAlive == WatchAll(l, events).link.server.lastKeepAlive
  {
    if more == [] {
      assert events + more == events;
    } else {
      var n := |more| - 1;
      assert (events + more)[..|events + more| - 1] == events + more[..n];
      WatchedStaysStopped(l, events, more[..n]);
      WatchStaysStopped(WatchAll(l, events + more[..n]), more[n]);
    }
  }

  /** The same for an Init sent at any time: from when the server stopped, no event keeps a check later
      than the allowed delay after the last pong from removing the connection. */
  lemma {:induction false} StoppedIsRemoved(l: Link, events: seq<Event>, more: seq<Event>, now: int, payload: uint64)
    requires StoppedAtInit(WatchAll(l, events).link.server)
    requires now > WatchAll(l, events).link.server.lastKeepAlive + MAX_DELAY
    ensures WatchAll(l, events + more + [Check(now, payload)]).removed
  {
    WatchedStaysStopped(l, events, more);
    LateCheckRemoves(l, events + more, now, payload);
  }
}
