// Left alone, two healthy ends carry everything that was sent to the other side: what remains to be
// done shrinks with every move, and at the end nothing is on its way.

module Drain {
  import opened Bytes
  import opened Packets
  import opened Framing
  import opened ConnectionSpec
  import opened ConnectionSound
  import opened Links
  import opened Calm

  /** Connected, sound and healthy at both ends. */
  predicate Running(l: Link) {
    LinkSound(l) && Healthy(l.server) && Healthy(l.client) && !l.client.isConnecting
  }

  // ---- What remains to be done ------------------------------------------------------------------

  function WriteStage(op: WriteOp): nat {
    match op
    case NoWrite => 0
    case WritingHeader(_) => 1
    case WritingBody(_) => 2
  }

  /** Posts to run, completions to come, and bytes to hand to the socket. */
  function Unwritten(w: Writer): int {
    4 * |w.posts| + 3 * |w.messagesOut| - WriteStage(w.op) + |Frames(w.accepted)| - |w.emitted|
  }

  /** Messages to complete and bytes to take from the socket. A message a client has not received yet
      may be a ping, so it counts for the whole way of the answer. */
  function Unread(r: Reader, direction: Direction, sent: seq<SendInfo>): int {
    (if direction.ToClient? then 2 * (|sent| - |r.received|) else 40 * (|sent| - |r.received|))
    - (if r.op.ReadingBody? then 1 else 0) + |Frames(sent)| - |r.consumed|
  }

  function Remaining(l: Link): int {
    Unwritten(l.server.w) + Unwritten(l.client.w)
    + Unread(l.server.r, ToClient, l.client.w.accepted) + Unread(l.client.r, ToServer, l.server.w.accepted)
  }

  lemma PrefixFrames(a: seq<SendInfo>, b: seq<SendInfo>)
    requires a <= b
    ensures |Frames(a)| <= |Frames(b)|
  {
    assert b == a + b[|a|..];
    FramesAppend(a, b[|a|..]);
  }

  lemma UnwrittenIsNat(w: Writer)
    requires WriterSound(w)
    ensures Unwritten(w) >= 0 && |w.emitted| <= |Frames(w.accepted)|
  {
    EmittedIsStarted(w);
    PrefixFrames(StartedBy(w), w.accepted);
  }

  lemma UnreadIsNat(w: Writer, r: Reader, direction: Direction, wire: seq<byte>)
    requires WriterSound(w) && ReaderSound(r, direction) && w.emitted == r.consumed + wire
    ensures Unread(r, direction, w.accepted) >= 0
  {
    UnwrittenIsNat(w);
    ReceivedIsSent(w, r, direction, wire);
    if |r.received| == |w.accepted| { assert r.received == w.accepted; }
  }

  lemma RemainingIsNat(l: Link)
    requires LinkSound(l)
    ensures Remaining(l) >= 0
  {
    UnwrittenIsNat(l.server.w);
    UnwrittenIsNat(l.client.w);
    UnreadIsNat(l.client.w, l.server.r, ToClient, l.toServer);
    UnreadIsNat(l.server.w, l.client.r, ToServer, l.toClient);
  }

  // ---- The next thing an end can do -------------------------------------------------------------

  function NextWrite(w: Writer, at: int): Option<Action> {
    if w.posts != [] then Some(PostRuns)
    else if w.op.NoWrite? then None
    else if w.op.left != [] then Some(WriteSome(|w.op.left|))
    else Some(WriteDone(at))
  }

  function NextRead(r: Reader, incoming: seq<byte>, at: int): Option<Action> {
    if r.op.NoRead? then None
    else if Wanted(r) == 0 then Some(ReadDone(at))
    else if incoming != [] then Some(ReadSome(Wanted(r)))
    else None
  }

  function NextAction(c: Conn, incoming: seq<byte>, at: int): Option<Action> {
    if NextWrite(c.w, at).Some? then NextWrite(c.w, at) else NextRead(c.r, incoming, at)
  }

  lemma PostRunsLess(c: Conn)
    requires Sound(c) && Healthy(c) && !c.isConnecting && c.w.posts != []
    ensures Unwritten(RunPost(c).w) < Unwritten(c.w) && RunPost(c).w.accepted == c.w.accepted && RunPost(c).r == c.r
  {
    assert c.w.posts[0] in c.w.posts;
  }

  lemma WriteDoneLess(c: Conn, now: int)
    requires Sound(c) && Healthy(c) && !c.isConnecting && !c.w.op.NoWrite? && c.w.op.left == []
    ensures var d := if c.w.op.WritingHeader? then HeaderWritten(c, now) else MessageWritten(c, now);
            Unwritten(d.w) < Unwritten(c.w) && d.w.accepted == c.w.accepted && d.r == c.r
  {
  }

  lemma NextWriteLess(c: Conn, at: int, incoming: seq<byte>)
    requires Sound(c) && Healthy(c) && !c.isConnecting && NextWrite(c.w, at).Some?
    ensures var d := Act(c, NextWrite(c.w, at).value, incoming).conn;
            Unwritten(d.w) < Unwritten(c.w) && d.w.accepted == c.w.accepted && d.r == c.r
  {
    if c.w.posts != [] {
      PostRunsLess(c);
    } else if c.w.op.left == [] {
      WriteDoneLess(c, at);
    }
  }

  /** At most a pong was posted. */
  ghost predicate Answers(c: Conn, d: Conn) {
    d.w == c.w || (c.direction.ToServer? && exists p: uint64 :: d.w == Posted(c.w, Packed(KEEP_ALIVE_ID, EncPing(p))))
  }

  /** A message that was judged leaves the writer alone, but for the client's pong. */
  lemma JudgedWrites(c: Conn, now: int)
    requires WipWhole(c.r)
    ensures Answers(c, Judged(c, now))
  {
    if c.r.wip.header.id == KEEP_ALIVE_ID { KeepAliveWrites(c, now); }
  }

  lemma KeepAliveWrites(c: Conn, now: int)
    requires WipWhole(c.r)
    ensures Answers(c, KeepAliveArrived(c, now))
  {
    if GoodKeepAlive(c.r.wip.header) && c.direction.ToServer? {
      var pong := Packed(KEEP_ALIVE_ID, EncPing(RawPayload(c.r.wip.body)));
      assert Echo(c, now).w == c.w || Echo(c, now).w == Posted(c.w, pong);
    }
  }

  lemma AddedReads(c: Conn, now: int)
    requires WipWhole(c.r)
    ensures var d := AddToIncoming(c, now);
            && |d.r.received| == |c.r.received| + 1 && d.r.consumed == c.r.consumed && !d.r.op.ReadingBody?
            && Answers(c, d)
  {
    var e := MessageCounted(c, now);
    JudgedWrites(e, now);
    JudgedReads(e, now);
  }

  lemma JudgedReads(c: Conn, now: int)
    requires WipWhole(c.r) && c.r.op.NoRead?
    ensures var d := Judged(c, now);
            d.r.received == c.r.received && d.r.consumed == c.r.consumed && !d.r.op.ReadingBody?
  {
    if c.r.wip.header.id == KEEP_ALIVE_ID { KeepAliveReads(c, now); }
  }

  lemma KeepAliveReads(c: Conn, now: int)
    requires WipWhole(c.r) && c.r.op.NoRead?
    ensures var d := KeepAliveArrived(c, now);
            d.r.received == c.r.received && d.r.consumed == c.r.consumed && !d.r.op.ReadingBody?
  {
    if GoodKeepAlive(c.r.wip.header) { assert Echo(c, now).r == Stamp(c, now).r == c.r; }
  }

  /** Less to read: by one, or by a whole message if a pong was posted. */
  ghost predicate ReadsLess(c: Conn, d: Conn, sent: seq<SendInfo>) {
    && Answers(c, d)
    && Unread(d.r, c.direction, sent) < Unread(c.r, c.direction, sent)
    && (d.w != c.w ==> Unread(d.r, c.direction, sent) + 39 <= Unread(c.r, c.direction, sent))
  }

  lemma AddedLess(c: Conn, q: Reader, now: int, sent: seq<SendInfo>)
    requires WipWhole(q) && q.received == c.r.received && q.consumed == c.r.consumed
    ensures ReadsLess(c, AddToIncoming(c.(r := q), now), sent)
  {
    AddedReads(c.(r := q), now);
  }

  lemma HeaderReadLess(c: Conn, at: int, sent: seq<SendInfo>)
    requires c.r.op.ReadingHeader? && |c.r.op.got| == HEADER_SIZE
    ensures ReadsLess(c, HeaderRead(c, c.r.op.got, at), sent)
  {
    var q := HeaderIn(c.r, c.r.op.got);
    HeaderReadIs(c, c.r.op.got, at);
    if q.wip.header.size == 0 { AddedLess(c, q, at, sent); } else { AwaitedLess(c, q, sent); }
  }

  lemma AwaitedLess(c: Conn, q: Reader, sent: seq<SendInfo>)
    requires c.r.op.ReadingHeader? && q.received == c.r.received && q.consumed == c.r.consumed
    ensures ReadsLess(c, c.(r := BodyAwaited(q)), sent)
  {
  }

  lemma BodyReadLess(c: Conn, at: int, sent: seq<SendInfo>)
    requires Sound(c) && c.r.op.ReadingBody? && |c.r.op.got| == c.r.wip.header.size
    requires BodyRead(c, c.r.op.got, at).isOpen
    ensures ReadsLess(c, BodyRead(c, c.r.op.got, at), sent)
  {
    if !IsCompressed(c.r.wip.header) { AddedLess(c, BodyIn(c.r, c.r.op.got), at, sent); }
  }

  lemma ReadDoneLess(c: Conn, at: int, incoming: seq<byte>, sent: seq<SendInfo>)
    requires Sound(c) && !c.crashed && !c.r.op.NoRead? && Wanted(c.r) == 0
    requires Act(c, ReadDone(at), incoming).conn.isOpen
    ensures ReadsLess(c, Act(c, ReadDone(at), incoming).conn, sent)
  {
    if c.r.op.ReadingHeader? { HeaderReadLess(c, at, sent); } else { BodyReadLess(c, at, sent); }
  }

  lemma ReadSomeLess(c: Conn, incoming: seq<byte>, sent: seq<SendInfo>)
    requires Sound(c) && Healthy(c) && !c.isConnecting && !c.r.op.NoRead? && Wanted(c.r) > 0 && incoming != []
    ensures ReadsLess(c, Act(c, ReadSome(Wanted(c.r)), incoming).conn, sent)
  {
  }

  lemma NextReadLess(c: Conn, at: int, incoming: seq<byte>, sent: seq<SendInfo>)
    requires Sound(c) && Healthy(c) && !c.isConnecting && NextRead(c.r, incoming, at).Some?
    requires Act(c, NextRead(c.r, incoming, at).value, incoming).conn.isOpen
    ensures ReadsLess(c, Act(c, NextRead(c.r, incoming, at).value, incoming).conn, sent)
  {
    if Wanted(c.r) == 0 { ReadDoneLess(c, at, incoming, sent); } else { ReadSomeLess(c, incoming, sent); }
  }

  lemma PongCosts(w: Writer, r: Reader, p: uint64)
    ensures var v := Posted(w, Packed(KEEP_ALIVE_ID, EncPing(p)));
            Unwritten(v) + Unread(r, ToClient, v.accepted) == Unwritten(w) + Unread(r, ToClient, w.accepted) + 30
  {
    FramesAppend(w.accepted, [Packed(KEEP_ALIVE_ID, EncPing(p))]);
    FramesOne(Packed(KEEP_ALIVE_ID, EncPing(p)));
  }

  // ---- The next move of a link ------------------------------------------------------------------

  function NextMove(l: Link, at: int): Option<Move> {
    match NextAction(l.server, l.toServer, at)
    case Some(a) => Some(Move(Server, a))
    case None =>
      match NextAction(l.client, l.toClient, at)
      case Some(a) => Some(Move(Client, a))
      case None => None
  }

  lemma ServerMoveLess(l: Link, at: int)
    requires Running(l) && NextAction(l.server, l.toServer, at).Some?
    requires Running(Step(l, Move(Server, NextAction(l.server, l.toServer, at).value)))
    ensures var n := Step(l, Move(Server, NextAction(l.server, l.toServer, at).value));
            Remaining(n) < Remaining(l) && n.server.w.accepted == l.server.w.accepted
  {
    if NextWrite(l.server.w, at).Some? {
      NextWriteLess(l.server, at, l.toServer);
    } else {
      NextReadLess(l.server, at, l.toServer, l.client.w.accepted);
    }
  }

  lemma ClientMoveLess(l: Link, at: int)
    requires Running(l) && NextAction(l.client, l.toClient, at).Some?
    requires Running(Step(l, Move(Client, NextAction(l.client, l.toClient, at).value)))
    ensures Remaining(Step(l, Move(Client, NextAction(l.client, l.toClient, at).value))) < Remaining(l)
  {
    var d := Act(l.client, NextAction(l.client, l.toClient, at).value, l.toClient).conn;
    if NextWrite(l.client.w, at).Some? {
      NextWriteLess(l.client, at, l.toClient);
    } else {
      NextReadLess(l.client, at, l.toClient, l.server.w.accepted);
      if d.w != l.client.w {
        var p: uint64 :| d.w == Posted(l.client.w, Packed(KEEP_ALIVE_ID, EncPing(p)));
        PongCosts(l.client.w, l.server.r, p);
      }
    }
  }

  lemma StepKeepsRunning(l: Link, m: Move)
    requires Running(l) && CalmMove(m)
    ensures Running(Step(l, m))
  {
    StepKeeps(l, m);
    StepStaysHealthy(l, m);
    match m.side
    case Server => ActMoves(l.server, m.action, l.toServer);
    case Client => ActMoves(l.client, m.action, l.toClient);
  }

  /** A move that neither the application nor a failure makes. */
  predicate Unprompted(m: Move) {
    CalmMove(m) && !m.action.AppSend?
  }

  predicate AllUnprompted(moves: seq<Move>) {
    forall i | 0 <= i < |moves| :: Unprompted(moves[i])
  }

  lemma NextMoveLess(l: Link, at: int)
    requires Running(l) && NextMove(l, at).Some?
    ensures var m := NextMove(l, at).value;
            && Unprompted(m) && Running(Step(l, m)) && Remaining(Step(l, m)) < Remaining(l)
            && Step(l, m).server.w.accepted == l.server.w.accepted
  {
    var m := NextMove(l, at).value;
    StepKeepsRunning(l, m);
    if m.side.Server? { ServerMoveLess(l, at); } else { ClientMoveLess(l, at); }
  }

  // ---- Nothing left to do -----------------------------------------------------------------------

  /** What a stream of frames has beyond the frames of its first messages is the frames of the rest. */
  lemma PartIsRest(a: seq<SendInfo>, part: seq<byte>, b: seq<SendInfo>)
    requires a <= b && Frames(a) + part == Frames(b)
    ensures part == Frames(b[|a|..])
  {
    assert b == a + b[|a|..];
    FramesAppend(a, b[|a|..]);
    assert (Frames(a) + part)[|Frames(a)|..] == part;
    assert (Frames(a) + Frames(b[|a|..]))[|Frames(a)|..] == Frames(b[|a|..]);
  }

  lemma HalfHeader(part: seq<byte>, rest: seq<SendInfo>)
    requires part == Frames(rest) && |part| < HEADER_SIZE
    ensures part == []
  {
    if rest != [] { FramesSplit(rest); }
  }

  lemma HalfBody(h: Header, got: seq<byte>, rest: seq<SendInfo>)
    requires AllFramed(rest) && HeaderBytes(h) + got == Frames(rest)
    ensures |got| >= Swap16(h.size)
  {
    if rest != [] {
      FramesSplit(rest);
      ShortBody(h, got, rest[0], Frames(rest[1..]));
    }
  }

  /** Of a whole stream of frames, a reader that waits for more bytes has nothing half read. */
  lemma NothingHalfRead(r: Reader, direction: Direction, sent: seq<SendInfo>)
    requires ReaderSound(r, direction) && r.received <= sent && AllFramed(sent) && r.consumed == Frames(sent)
    requires !r.op.NoRead? && Wanted(r) > 0
    ensures r.op == ReadingHeader([])
  {
    var rest := sent[|r.received|..];
    match r.op
    case ReadingHeader(got) =>
      PartIsRest(r.received, got, sent);
      HalfHeader(got, rest);
    case ReadingBody(got) =>
      var h := HostHeader(r.wip.header);
      PartIsRest(r.received, HeaderBytes(h) + got, sent);
      HalfBody(h, got, rest);
      Swap16Twice(r.wip.header.size);
  }

  /** A frame is not shorter than its header says. */
  lemma ShortBody(h: Header, got: seq<byte>, m: SendInfo, more: seq<byte>)
    requires Framed(m) && HeaderBytes(h) + got == Frame(m) + more
    ensures |got| >= Swap16(h.size)
  {
    assert (HeaderBytes(h) + got)[..HEADER_SIZE] == HeaderBytes(h);
    assert (Frame(m) + more)[..HEADER_SIZE] == HeaderBytes(m.header);
    HeaderBytesInjective(h, m.header);
  }

  /** An end with nothing to do has written everything, and waits for a header or has stopped. */
  lemma WrittenOut(c: Conn, at: int)
    requires Sound(c) && Healthy(c) && !c.isConnecting && NextWrite(c.w, at).None?
    ensures c.w.posts == [] && c.w.messagesOut == [] && c.w.emitted == Frames(c.w.accepted)
  {
    assert c.w.accepted == c.w.finished;
  }

  lemma ReadOut(c: Conn, d: Conn, wire: seq<byte>, at: int)
    requires Sound(c) && Sound(d) && Healthy(c) && Healthy(d) && !c.isConnecting && !d.isConnecting
    requires c.w.emitted == d.r.consumed + wire
    requires NextWrite(c.w, at).None? && NextRead(d.r, wire, at).None?
    ensures StoppedAtInit(d) || Drained(c, wire, d)
  {
    WrittenOut(c, at);
    if !d.r.op.NoRead? {
      ReceivedIsSent(c.w, d.r, d.direction, wire);
      assert wire == [] && c.w.emitted == d.r.consumed;
      NothingHalfRead(d.r, d.direction, c.w.accepted);
    }
  }

  /** With no next move both directions are drained, unless the server stopped at an Init. */
  lemma SettledIsDrained(l: Link, at: int)
    requires Running(l) && NextMove(l, at).None?
    ensures Drained(l.server, l.toClient, l.client)
    ensures StoppedAtInit(l.server) || Drained(l.client, l.toServer, l.server)
  {
    ReadOut(l.server, l.client, l.toClient, at);
    ReadOut(l.client, l.server, l.toServer, at);
  }

  // ---- Every calm run can be drained ------------------------------------------------------------

  lemma {:induction false} RunSplit(l: Link, a: seq<Move>, b: seq<Move>)
    ensures Run(l, a + b) == Run(Run(l, a), b)
  {
    if b == [] {
      assert a + b == a;
    } else {
      var n := |b| - 1;
      assert (a + b)[..|a + b| - 1] == a + b[..n];
      RunSplit(l, a, b[..n]);
    }
  }

  lemma RunFirst(l: Link, m: Move, later: seq<Move>)
    ensures Run(l, [m] + later) == Run(Step(l, m), later)
  {
    RunSplit(l, [m], later);
    assert [m][..0] == [];
    assert Run(l, [m]) == Step(Run(l, []), m);
  }

  lemma RunTwo(l: Link, m: Move, n: Move)
    ensures Run(l, [m, n]) == Step(Step(l, m), n)
  {
    RunFirst(l, m, [n]);
    RunFirst(Step(l, m), n, []);
    assert [n] + [] == [n] && [m] + [n] == [m, n];
  }

  /** Anything not drained can move, and the move brings it closer. */
  lemma UndrainedMoves(l: Link, at: int)
    requires Running(l)
    requires !Drained(l.server, l.toClient, l.client) ||
             !(StoppedAtInit(l.server) || Drained(l.client, l.toServer, l.server))
    ensures NextMove(l, at).Some? && Step(l, NextMove(l, at).value) != l
    ensures 0 <= Remaining(Step(l, NextMove(l, at).value)) < Remaining(l)
  {
    if NextMove(l, at).None? {
      SettledIsDrained(l, at);
    } else {
      NextMoveLess(l, at);
      RemainingIsNat(Step(l, NextMove(l, at).value));
    }
  }

  /** Where the next moves lead: nothing more to do. */
  ghost predicate Settled(l: Link, at: int) {
    Running(l) && NextMove(l, at).None?
  }

  lemma MoveThenSettled(l: Link, m: Move, later: seq<Move>, at: int)
    requires Unprompted(m) && AllUnprompted(later) && Settled(Run(Step(l, m), later), at)
    ensures AllUnprompted([m] + later) && Run(l, [m] + later) == Run(Step(l, m), later)
  {
    RunFirst(l, m, later);
  }

  lemma {:induction false} Settles(l: Link, at: int) returns (more: seq<Move>)
    requires Running(l)
    ensures AllUnprompted(more) && Settled(Run(l, more), at)
    ensures Run(l, more).server.w.accepted == l.server.w.accepted
    decreases Remaining(l)
  {
    RemainingIsNat(l);
    if NextMove(l, at).None? {
      more := [];
    } else {
      var m := NextMove(l, at).value;
      NextMoveLess(l, at);
      RemainingIsNat(Step(l, m));
      var later := Settles(Step(l, m), at);
      MoveThenSettled(l, m, later, at);
      more := [m] + later;
    }
  }

  lemma Connects(l: Link)
    requires LinkSound(l) && Healthy(l.server) && Healthy(l.client) && l.client.isConnecting
    ensures Running(Step(l, Move(Client, ConnectDone(true))))
  {
    StepKeeps(l, Move(Client, ConnectDone(true)));
    StepStaysHealthy(l, Move(Client, ConnectDone(true)));
  }

  lemma ConnectsAndSettles(l: Link, at: int) returns (more: seq<Move>)
    requires LinkSound(l) && Healthy(l.server) && Healthy(l.client)
    ensures AllUnprompted(more) && Settled(Run(l, more), at)
    ensures Run(l, more).server.w.accepted == l.server.w.accepted
  {
    if l.client.isConnecting {
      var connect := Move(Client, ConnectDone(true));
      Connects(l);
      var later := Settles(Step(l, connect), at);
      MoveThenSettled(l, connect, later, at);
      more := [connect] + later;
    } else {
      more := Settles(l, at);
    }
  }

  /** How many messages come before the first Init. */
  function FirstInit(ms: seq<SendInfo>): (k: nat)
    ensures k <= |ms| && InitFree(ms[..k])
    ensures k < |ms| ==> ms[k].header.id == INIT_ID
  {
    if ms == [] || ms[0].header.id == INIT_ID then 0
    else
      var k := 1 + FirstInit(ms[1..]);
      assert ms[..k] == [ms[0]] + ms[1..][..k - 1];
      k
  }

  /** Everything the server's `Send` accepted has been delivered, and of what the client's accepted
      everything before the first Init; the server stopped if there was one. */
  predicate Done(l: Link) {
    && AllDelivered(l.client.r, l.server.w.accepted)
    && InOrder(l.server.r.messagesIn, l.client.w.accepted)
    && |l.server.r.messagesIn| == FirstInit(l.client.w.accepted)
    && (if InitFree(l.client.w.accepted) then AllDelivered(l.server.r, l.client.w.accepted) && !StoppedAtInit(l.server)
        else StoppedAtInit(l.server))
  }

  lemma {:induction false} FirstInitIs(ms: seq<SendInfo>, k: nat)
    requires k <= |ms| && InitFree(ms[..k]) && (k < |ms| ==> ms[k].header.id == INIT_ID)
    ensures FirstInit(ms) == k
    decreases k
  {
    if k > 0 {
      assert ms[..k][0] == ms[0] && ms[1..][..k - 1] == ms[..k][1..];
      FirstInitIs(ms[1..], k - 1);
    }
  }

  /** An Init that was sent does not go past the server, and only an Init stops it. */
  lemma InitStopsReader(c: Conn, sent: seq<SendInfo>)
    requires Sound(c) && c.direction.ToClient? && c.r.received <= sent
    requires StoppedAtInit(c) || (c.r.received == sent && |c.r.messagesIn| == |sent|)
    ensures |c.r.messagesIn| == FirstInit(sent) && (StoppedAtInit(c) <==> !InitFree(sent))
    ensures InitFree(sent) ==> c.r.received == sent && |c.r.messagesIn| == |sent|
  {
    var n := |c.r.messagesIn|;
    assert c.r.received[..n] == sent[..n];
    FirstInitIs(sent, n);
    if StoppedAtInit(c) {
      assert sent[n].header.id == INIT_ID;
    } else {
      assert sent[..n] == sent;
    }
  }

  lemma SettledIsDone(l: Link, moves: seq<Move>, at: int)
    requires Start(l) && Settled(Run(l, moves), at)
    ensures Done(Run(l, moves))
  {
    var s := Run(l, moves);
    SettledIsDrained(s, at);
    NothingLost(l, moves);
    SoundDelivers(s);
    ReceivedIsSent(s.client.w, s.server.r, ToClient, s.toServer);
    InitStopsReader(s.server, s.client.w.accepted);
  }

  /** Every run without failures or close in which reserved IDs carry only their own packets can be
      continued, without any further call, to where everything was delivered, or everything before the
      client's first Init if it sent one. */
  lemma {:induction false} CalmRunsDrain(l: Link, moves: seq<Move>, at: int) returns (more: seq<Move>)
    requires Start(l) && AllCalm(moves)
    requires l.client.initPacket.Some? ==> ReservedUse(ToServer, l.client.initPacket.value)
    ensures AllUnprompted(more) && Running(Run(l, moves + more)) && Done(Run(l, moves + more))
    ensures Run(l, moves + more).server.w.accepted == Run(l, moves).server.w.accepted
  {
    CalmRunsStayHealthy(l, moves);
    RunKeeps(l, moves);
    more := ConnectsAndSettles(Run(l, moves), at);
    RunSplit(l, moves, more);
    SettledIsDone(l, moves + more, at);
  }

  // ---- Whatever the schedule --------------------------------------------------------------------

  /** One end has less to do: less to write and nothing else changed, or less to read. */
  ghost predicate Less(c: Conn, d: Conn, sent: seq<SendInfo>) {
    || (Unwritten(d.w) < Unwritten(c.w) && d.w.accepted == c.w.accepted && d.r == c.r)
    || ReadsLess(c, d, sent)
  }

  lemma WriteMovedLess(c: Conn, k: nat, sent: seq<SendInfo>)
    ensures WriteMoved(c, k) == Quiet(c) || Less(c, WriteMoved(c, k).conn, sent)
  {
    if c.isOpen && !c.w.op.NoWrite? && Handed(c.w, k) == [] {
      assert c.w.op.left[Min(k, |c.w.op.left|)..] == c.w.op.left && c.w.emitted + [] == c.w.emitted;
    }
  }

  lemma ReadMovedLess(c: Conn, k: nat, incoming: seq<byte>, sent: seq<SendInfo>)
    ensures ReadMoved(c, k, incoming) == Quiet(c) || Less(c, ReadMoved(c, k, incoming).conn, sent)
  {
    if c.isOpen && !c.r.op.NoRead? && ReadMoved(c, k, incoming).taken == 0 {
      assert incoming[..0] == [] && c.r.op.got + [] == c.r.op.got && c.r.consumed + [] == c.r.consumed;
    }
  }

  lemma WriteCompletedLess(c: Conn, now: int, sent: seq<SendInfo>)
    requires Sound(c) && Healthy(c) && !c.isConnecting
    ensures WriteCompleted(c, now) == c || Less(c, WriteCompleted(c, now), sent)
  {
    if !c.w.op.NoWrite? && c.w.op.left == [] { WriteDoneLess(c, now); }
  }

  lemma ReadCompletedLess(c: Conn, now: int, sent: seq<SendInfo>)
    requires Sound(c) && !c.crashed && ReadCompleted(c, now).isOpen
    ensures ReadCompleted(c, now) == c || Less(c, ReadCompleted(c, now), sent)
  {
    if c.r.op.ReadingHeader? && |c.r.op.got| == HEADER_SIZE {
      HeaderReadLess(c, now, sent);
    } else if c.r.op.ReadingBody? && |c.r.op.got| == c.r.wip.header.size {
      BodyReadLess(c, now, sent);
    }
  }

  lemma ActLess(c: Conn, a: Action, incoming: seq<byte>, sent: seq<SendInfo>)
    requires Sound(c) && Healthy(c) && !c.isConnecting && Act(c, a, incoming).conn.isOpen
    requires !a.AppSend? && !a.AppDisconnect? && !a.WriteFails? && !a.ReadFails?
    ensures Act(c, a, incoming) == Quiet(c) || Less(c, Act(c, a, incoming).conn, sent)
  {
    match a
    case PostRuns => if c.w.posts != [] { PostRunsLess(c); }
    case WriteSome(k) => WriteMovedLess(c, k, sent);
    case WriteDone(now) => WriteCompletedLess(c, now, sent);
    case ReadSome(k) => ReadMovedLess(c, k, incoming, sent);
    case ReadDone(now) =>
      ActReadDone(c, now, incoming);
      ReadCompletedLess(c, now, sent);
    case ConnectDone(_) =>
  }

  lemma ServerActLess(l: Link, a: Action)
    requires Running(l) && Less(l.server, Act(l.server, a, l.toServer).conn, l.client.w.accepted)
    ensures Remaining(Step(l, Move(Server, a))) < Remaining(l)
  {
  }

  lemma ClientActLess(l: Link, a: Action)
    requires Running(l) && Less(l.client, Act(l.client, a, l.toClient).conn, l.server.w.accepted)
    ensures Remaining(Step(l, Move(Client, a))) < Remaining(l)
  {
    var d := Act(l.client, a, l.toClient).conn;
    if d.w != l.client.w && ReadsLess(l.client, d, l.server.w.accepted) {
      var p: uint64 :| d.w == Posted(l.client.w, Packed(KEEP_ALIVE_ID, EncPing(p)));
      PongCosts(l.client.w, l.server.r, p);
    }
  }

  lemma QuietStep(l: Link, m: Move)
    requires Act(if m.side.Server? then l.server else l.client, m.action,
                 if m.side.Server? then l.toServer else l.toClient)
             == Quiet(if m.side.Server? then l.server else l.client)
    ensures Step(l, m) == l
  {
    assert l.toClient + [] == l.toClient && l.toServer + [] == l.toServer;
    assert l.toClient[0..] == l.toClient && l.toServer[0..] == l.toServer;
  }

  /** Whatever happens unprompted changes nothing or leaves less to be done. */
  lemma UnpromptedLess(l: Link, m: Move)
    requires Running(l) && Unprompted(m)
    ensures Running(Step(l, m))
    ensures Step(l, m) == l || Remaining(Step(l, m)) < Remaining(l)
  {
    StepKeepsRunning(l, m);
    match m.side
    case Server =>
      ActLess(l.server, m.action, l.toServer, l.client.w.accepted);
      var quiet := Act(l.server, m.action, l.toServer) == Quiet(l.server);
      if quiet { QuietStep(l, m); } else { ServerActLess(l, m.action); }
    case Client =>
      ActLess(l.client, m.action, l.toClient, l.server.w.accepted);
      var quiet := Act(l.client, m.action, l.toClient) == Quiet(l.client);
      if quiet { QuietStep(l, m); } else { ClientActLess(l, m.action); }
  }

  /** How many of the moves change anything. */
  function Changes(l: Link, moves: seq<Move>): nat {
    if moves == [] then 0
    else
      var before := moves[..|moves| - 1];
      Changes(l, before) + if Run(l, moves) == Run(l, before) then 0 else 1
  }

  /** Left alone, no schedule goes on for ever: of any number of moves at most `Remaining` change
      anything. */
  lemma {:induction false} AnyScheduleEnds(l: Link, moves: seq<Move>)
    requires Running(l) && AllUnprompted(moves)
    ensures Running(Run(l, moves))
    ensures Changes(l, moves) <= Remaining(l) - Remaining(Run(l, moves)) <= Remaining(l)
  {
    if moves == [] {
      RemainingIsNat(l);
    } else {
      var before := moves[..|moves| - 1];
      AnyScheduleEnds(l, before);
      UnpromptedLess(Run(l, before), moves[|moves| - 1]);
      RemainingIsNat(Run(l, moves));
    }
  }

  /** No unprompted move changes anything. */
  ghost predicate AtRest(l: Link) {
    forall m | Unprompted(m) :: Step(l, m) == l
  }

  /** And wherever a schedule comes to rest, everything was delivered. */
  lemma RestIsDone(l: Link, moves: seq<Move>)
    requires Start(l) && Running(Run(l, moves)) && AtRest(Run(l, moves))
    ensures Done(Run(l, moves))
  {
    var s := Run(l, moves);
    if NextMove(s, 0).Some? { NextMoveLess(s, 0); }
    SettledIsDone(l, moves, 0);
  }

  // ---- A body delivered twice -------------------------------------------------------------------

  /** The server sends a packet of the application's own. */
  predicate IsGame(m: Move) {
    && m.side.Server? && m.action.AppSend? && m.action.packet.GamePacket?
    && m.action.packet.id != KEEP_ALIVE_ID && |m.action.packet.body| <= UINT16_MAX
  }

  function GameOf(m: Move): SendInfo
    requires IsGame(m)
  {
    Packed(m.action.packet.id, m.action.packet.body)
  }

  lemma GameIsAccepted(l: Link, m: Move)
    requires IsConnected(l.server) && !l.server.crashed && IsGame(m)
    ensures var s := Step(l, m).server;
            s.w.accepted == l.server.w.accepted + [GameOf(m)] && IsConnected(s) && !s.crashed
  {
  }

  lemma TwoGamesAccepted(l: Link, m: Move, n: Move)
    requires Start(l) && IsGame(m) && IsGame(n)
    ensures Run(l, [m, n]).server.w.accepted == [GameOf(m)] + [GameOf(n)]
  {
    GameIsAccepted(l, m);
    GameIsAccepted(Step(l, m), n);
    RunTwo(l, m, n);
  }

  lemma RepeatedBody(messagesIn: seq<SendInfo>, sent: seq<SendInfo>)
    requires InOrder(messagesIn, sent) && |messagesIn| == |sent| == 2
    requires sent[0].body != [] && sent[1].body == []
    ensures messagesIn[1].body == sent[0].body
  {
    assert sent[..1] == [sent[0]];
    assert LastBody([sent[0]]) == sent[0].body;
  }

  /** Any body followed by an empty one is delivered twice: there is a run in which the copy of a message
      without a body has one. */
  lemma {:induction false} BodyIsRepeated(l: Link, m: Move, n: Move, at: int) returns (moves: seq<Move>)
    requires Start(l) && IsGame(m) && IsGame(n) && GameOf(m).body != [] && GameOf(n).body == []
    requires l.client.initPacket.Some? ==> ReservedUse(ToServer, l.client.initPacket.value)
    ensures Run(l, moves).server.w.accepted == [GameOf(m)] + [GameOf(n)]
    ensures |Run(l, moves).client.r.messagesIn| == 2
    ensures Run(l, moves).client.r.messagesIn[1].body == GameOf(m).body
  {
    TwoGamesAccepted(l, m, n);
    var more := CalmRunsDrain(l, [m, n], at);
    moves := [m, n] + more;
    RepeatedBody(Run(l, moves).client.r.messagesIn, [GameOf(m)] + [GameOf(n)]);
  }
}
