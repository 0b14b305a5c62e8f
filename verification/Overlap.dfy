// Two pings on their way at once: a run in which the server drops a client that answers every ping.

module Overlap {
  import opened Bytes
  import opened Packets
  import opened Framing
  import opened ConnectionSpec
  import opened ConnectionSound
  import opened Links
  import opened Calm
  import opened KeepAlive
  import opened Drain

  function SendPing(payload: uint64): Move {
    Move(Server, AppSend(PingPacket(payload)))
  }

  function PongsOf(l: Link): seq<uint64> {
    Payloads(l.server.r.received)
  }

  /** The server pings an open connection. */
  lemma PingIsAccepted(l: Link, payload: uint64)
    requires l.server.isOpen && !l.server.isConnecting && !l.server.crashed
    ensures var s := Step(l, SendPing(payload)).server;
            && s.w.accepted == l.server.w.accepted + [Packed(KEEP_ALIVE_ID, EncPing(payload))]
            && s.r == l.server.r && s.isOpen && !s.isConnecting && !s.crashed
    ensures Payloads(l.server.w.accepted + [Packed(KEEP_ALIVE_ID, EncPing(payload))])
            == Payloads(l.server.w.accepted) + [payload]
  {
    RawPayloadOfPing(payload);
    PayloadsAppend(l.server.w.accepted, Packed(KEEP_ALIVE_ID, EncPing(payload)));
  }

  lemma TwoPingsAccepted(l: Link, a: uint64, b: uint64)
    requires Start(l)
    ensures var s := Step(Step(l, SendPing(a)), SendPing(b));
            Payloads(s.server.w.accepted) == [a, b] && PongsOf(s) == []
  {
    PingIsAccepted(l, a);
    PingIsAccepted(Step(l, SendPing(a)), b);
  }

  lemma TwoPingsSent(l: Link, a: uint64, b: uint64)
    requires Start(l)
    ensures var s := Run(l, [SendPing(a), SendPing(b)]);
            Payloads(s.server.w.accepted) == [a, b] && PongsOf(s) == []
  {
    RunTwo(l, SendPing(a), SendPing(b));
    TwoPingsAccepted(l, a, b);
  }

  lemma UnpromptedIsEchoing(moves: seq<Move>, more: seq<Move>)
    requires AllCalm(moves) && AllEchoing(moves) && AllUnprompted(more)
    ensures AllCalm(moves + more) && AllEchoing(moves + more)
  {
  }

  /** When all is delivered all pings are answered, and the stamp is the time of the last pong. */
  lemma AllAnswered(l: Link, moves: seq<Move>)
    requires Start(l) && l.client.initPacket.None? && AllCalm(moves) && AllEchoing(moves) && Done(Run(l, moves))
    ensures var s := Run(l, moves);
            PongsOf(s) == Payloads(s.server.w.accepted) && s.server.lastKeepAlive == s.server.pongAt && s.server.isOpen
  {
    CalmRunsStayHealthy(l, moves);
    RunKeeps(l, moves);
    RunKeepsKeepAlive(l, moves);
    PingsInFlight(l, moves);
    var s := Run(l, moves);
    NoInitStops(s);
    assert InFlight(s) == [];
  }

  lemma NoInitStops(l: Link)
    requires LinkSound(l) && ClientEchoes(l.client)
    ensures !StoppedAtInit(l.server)
  {
    PingsArrive(l);
  }

  lemma {:induction false} AcceptedGrows(l: Link, moves: seq<Move>, k: nat)
    requires k <= |moves|
    ensures Run(l, moves[..k]).server.w.accepted <= Run(l, moves).server.w.accepted
    decreases |moves| - k
  {
    if k == |moves| {
      assert moves[..k] == moves;
    } else {
      var s, m := Run(l, moves[..k]), moves[k];
      assert moves[..k + 1][..k] == moves[..k];
      ActGrows(s.server, m.action, s.toServer);
      AcceptedGrows(l, moves, k + 1);
    }
  }

  // ---- The first pong ---------------------------------------------------------------------------

  /** The pongs processed after each number of moves. */
  function PongLog(l: Link, moves: seq<Move>): (log: seq<seq<uint64>>)
    ensures |log| == |moves| + 1
  {
    seq(|moves| + 1, i requires 0 <= i <= |moves| => PongsOf(Run(l, moves[..i])))
  }

  lemma {:induction false} FirstNonEmpty(log: seq<seq<uint64>>, from: nat) returns (k: nat)
    requires from < |log| && log[from] == [] && log[|log| - 1] != []
    ensures from <= k < |log| - 1 && log[k] == [] && log[k + 1] != []
    decreases |log| - from
  {
    k := from;
    if log[from + 1] == [] { k := FirstNonEmpty(log, from + 1); }
  }

  lemma StampedEpoch(c: Conn, d: Conn, m: Action, a: uint64, b: uint64)
    requires PongStamped(c, d, m) && Payloads(c.w.accepted) == [a, b] && a != b
    requires Payloads(c.r.received) == [] && Payloads(d.r.received) != []
    ensures d.lastKeepAlive == EPOCH
  {
  }

  lemma PongIsServerMove(l: Link, m: Move)
    requires PongsOf(Step(l, m)) != PongsOf(l)
    ensures m.side.Server?
  {
  }

  /** The first of two different pongs stamps the epoch. */
  lemma FirstPongIsEpoch(l: Link, moves: seq<Move>, a: uint64, b: uint64)
    requires Start(l) && l.client.initPacket.None? && AllEchoing(moves) && moves != [] && a != b
    requires Payloads(Run(l, moves[..|moves| - 1]).server.w.accepted) == [a, b]
    requires PongsOf(Run(l, moves[..|moves| - 1])) == [] && PongsOf(Run(l, moves)) != []
    ensures Run(l, moves).server.lastKeepAlive == EPOCH
  {
    PongIsServerMove(Run(l, moves[..|moves| - 1]), moves[|moves| - 1]);
    OverlappedPongStampsEpoch(l, moves);
    StampedEpoch(Run(l, moves[..|moves| - 1]).server, Run(l, moves).server, moves[|moves| - 1].action, a, b);
  }

  // ---- The run ----------------------------------------------------------------------------------

  /** A run in which the server sends two pings, `a` and `b`, and nothing but these, and processes both
      pongs. Nothing fails or closes. */
  ghost predicate TwoPings(l: Link, moves: seq<Move>, a: uint64, b: uint64) {
    && AllCalm(moves) && AllEchoing(moves)
    && [SendPing(a), SendPing(b)] <= moves
    && Payloads(Run(l, moves).server.w.accepted) == PongsOf(Run(l, moves)) == [a, b]
    && Run(l, moves).server.w.accepted == Run(l, [SendPing(a), SendPing(b)]).server.w.accepted
  }

  lemma TwoPingsDone(l: Link, a: uint64, b: uint64, moves: seq<Move>)
    requires Start(l) && l.client.initPacket.None? && AllCalm(moves) && AllEchoing(moves) && Done(Run(l, moves))
    requires [SendPing(a), SendPing(b)] <= moves
    requires Run(l, moves).server.w.accepted == Run(l, [SendPing(a), SendPing(b)]).server.w.accepted
    ensures TwoPings(l, moves, a, b)
    ensures Run(l, moves).server.isOpen && Run(l, moves).server.lastKeepAlive == Run(l, moves).server.pongAt
  {
    TwoPingsSent(l, a, b);
    AllAnswered(l, moves);
  }

  lemma DrainedRun(l: Link, sends: seq<Move>, at: int) returns (moves: seq<Move>)
    requires Start(l) && l.client.initPacket.None? && AllCalm(sends) && AllEchoing(sends)
    ensures sends <= moves && AllCalm(moves) && AllEchoing(moves) && Done(Run(l, moves))
    ensures Run(l, moves).server.w.accepted == Run(l, sends).server.w.accepted
  {
    var more := CalmRunsDrain(l, sends, at);
    UnpromptedIsEchoing(sends, more);
    moves := sends + more;
  }

  lemma TwoPingsRun(l: Link, a: uint64, b: uint64, at: int) returns (moves: seq<Move>)
    requires Start(l) && l.client.initPacket.None?
    ensures TwoPings(l, moves, a, b)
    ensures Run(l, moves).server.isOpen && Run(l, moves).server.lastKeepAlive == Run(l, moves).server.pongAt
  {
    moves := DrainedRun(l, [SendPing(a), SendPing(b)], at);
    TwoPingsDone(l, a, b, moves);
  }

  lemma SameAccepted(l: Link, before: seq<Move>, moves: seq<Move>, k: nat)
    requires before <= moves && |before| <= k <= |moves|
    requires Run(l, moves).server.w.accepted == Run(l, before).server.w.accepted
    ensures Run(l, moves[..k]).server.w.accepted == Run(l, moves).server.w.accepted
  {
    AcceptedGrows(l, moves, k);
    AcceptedGrows(l, moves[..k], |before|);
    assert moves[..k][..|before|] == before;
  }

  lemma PongLogAt(l: Link, moves: seq<Move>, k: nat)
    requires k <= |moves|
    ensures PongLog(l, moves)[k] == PongsOf(Run(l, moves[..k]))
  {
  }

  /** The log is empty after the sends and not at the end. */
  lemma PongLogEnds(l: Link, moves: seq<Move>, a: uint64, b: uint64)
    requires Start(l) && TwoPings(l, moves, a, b)
    ensures PongLog(l, moves)[2] == [] && PongLog(l, moves)[|moves|] != []
  {
    TwoPingsSent(l, a, b);
    PongLogAt(l, moves, 2);
    PongLogAt(l, moves, |moves|);
    assert moves[..2] == [SendPing(a), SendPing(b)] && moves[..|moves|] == moves;
  }

  lemma CalmIsOpen(l: Link, moves: seq<Move>)
    requires Start(l) && l.client.initPacket.None? && AllCalm(moves)
    ensures Run(l, moves).server.isOpen
  {
    CalmRunsStayHealthy(l, moves);
    RunKeeps(l, moves);
  }

  /** The moves of a run up to its first pong. */
  lemma UpToFirstPong(l: Link, moves: seq<Move>) returns (upTo: seq<Move>)
    requires 2 <= |moves| && PongLog(l, moves)[2] == [] && PongLog(l, moves)[|moves|] != []
    ensures |upTo| > 2 && upTo <= moves
    ensures PongsOf(Run(l, upTo[..|upTo| - 1])) == [] && PongsOf(Run(l, upTo)) != []
  {
    var k := FirstNonEmpty(PongLog(l, moves), 2);
    PongLogAt(l, moves, k);
    PongLogAt(l, moves, k + 1);
    upTo := moves[..k + 1];
    assert upTo[..|upTo| - 1] == moves[..k];
  }

  lemma BothAccepted(l: Link, moves: seq<Move>, upTo: seq<Move>, a: uint64, b: uint64)
    requires TwoPings(l, moves, a, b) && |upTo| > 2 && upTo <= moves
    ensures Payloads(Run(l, upTo[..|upTo| - 1]).server.w.accepted) == [a, b]
  {
    SameAccepted(l, [SendPing(a), SendPing(b)], moves, |upTo| - 1);
    assert upTo[..|upTo| - 1] == moves[..|upTo| - 1];
  }

  /** In every run with two different pings there is a moment, with the socket open, when the stamp is
      the epoch. */
  lemma EpochInBetween(l: Link, moves: seq<Move>, a: uint64, b: uint64) returns (upTo: seq<Move>)
    requires Start(l) && l.client.initPacket.None? && TwoPings(l, moves, a, b) && a != b
    ensures upTo <= moves && Run(l, upTo).server.isOpen && Run(l, upTo).server.lastKeepAlive == EPOCH
  {
    PongLogEnds(l, moves, a, b);
    upTo := UpToFirstPong(l, moves);
    BothAccepted(l, moves, upTo, a, b);
    FirstPongIsEpoch(l, upTo, a, b);
    CalmIsOpen(l, upTo);
  }

  /** Whatever two different payloads are sent, there is a run in which, with the socket open, the stamp
      is the epoch after the first pong and the time of the last pong after that. */
  lemma {:induction false} OverlapStampsEpoch(l: Link, a: uint64, b: uint64, at: int)
    returns (moves: seq<Move>, upTo: seq<Move>)
    requires Start(l) && l.client.initPacket.None? && a != b
    ensures TwoPings(l, moves, a, b) && upTo <= moves
    ensures Run(l, upTo).server.isOpen && Run(l, upTo).server.lastKeepAlive == EPOCH
    ensures Run(l, moves).server.isOpen && Run(l, moves).server.lastKeepAlive == Run(l, moves).server.pongAt
  {
    moves := TwoPingsRun(l, a, b, at);
    upTo := EpochInBetween(l, moves, a, b);
  }

  // ---- The check --------------------------------------------------------------------------------

  lemma EpochIsRemoved(l: Link, moves: seq<Move>, now: int, payload: uint64)
    requires Run(l, moves).server.lastKeepAlive == EPOCH && now > EPOCH + MAX_DELAY
    ensures WatchAll(l, LinkSteps(moves) + [Check(now, payload)]) == Watched(Run(l, moves), true)
  {
    var events := LinkSteps(moves) + [Check(now, payload)];
    assert events[..|moves|] == LinkSteps(moves);
    WatchedRun(l, moves);
  }

  /** A check that comes between the two pongs removes the open connection of a client that answers
      every ping: the pace that `NeverRemovedWhileOpen` asks for is needed. */
  lemma {:induction false} HonestClientIsRemoved(l: Link, a: uint64, b: uint64, at: int, now: int, payload: uint64)
    returns (moves: seq<Move>)
    requires Start(l) && l.client.initPacket.None? && a != b && now > EPOCH + MAX_DELAY
    ensures AllCalm(moves) && AllEchoing(moves)
    ensures var w := WatchAll(l, LinkSteps(moves) + [Check(now, payload)]);
            w.removed && w.link == Run(l, moves) && w.link.server.isOpen
  {
    var all, upTo := OverlapStampsEpoch(l, a, b, at);
    moves := upTo;
    EpochIsRemoved(l, moves, now, payload);
  }
}
