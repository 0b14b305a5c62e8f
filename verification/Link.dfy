// Two endpoints and the two byte streams between them, under any interleaving of calls, completions,
// failures and partial transfers.

module Links {
  import opened Bytes
  import opened Framing
  import Packets
  import opened ConnectionSpec
  import opened ConnectionSound

  /** `toClient` and `toServer` hold the bytes on their way. */
  datatype Link = Link(server: Conn, client: Conn, toClient: seq<byte>, toServer: seq<byte>)

  datatype Side = Server | Client

  datatype Move = Move(side: Side, action: Action)

  function Step(l: Link, m: Move): Link {
    match m.side
    case Server =>
      var e := Act(l.server, m.action, l.toServer);
      l.(server := e.conn, toClient := l.toClient + e.out, toServer := l.toServer[e.taken..])
    case Client =>
      var e := Act(l.client, m.action, l.toClient);
      l.(client := e.conn, toServer := l.toServer + e.out, toClient := l.toClient[e.taken..])
  }

  function Run(l: Link, moves: seq<Move>): Link {
    if moves == [] then l else Step(Run(l, moves[..|moves| - 1]), moves[|moves| - 1])
  }

  lemma RunNext(l: Link, moves: seq<Move>, i: nat)
    requires i < |moves|
    ensures Run(l, moves[..i + 1]) == Step(Run(l, moves[..i]), moves[i])
  {
    assert moves[..i + 1][..i] == moves[..i];
  }

  /** An accepted server connection, reading, and a client that started to connect. */
  predicate Start(l: Link) {
    && l.server == ConnectToClient(Created(ToClient, true, l.server.pongAt))
    && l.client == ConnectToServer(Created(ToServer, false, l.client.pongAt), l.client.initPacket)
    && (l.client.initPacket.Some? ==> |BodyOf(l.client.initPacket.value)| <= UINT16_MAX)
    && l.toClient == [] && l.toServer == []
  }

  /** Both ends are sound, and what one emitted is what the other consumed and what is on its way. */
  predicate LinkSound(l: Link) {
    && Sound(l.server) && Sound(l.client)
    && l.server.direction.ToClient? && l.client.direction.ToServer?
    && l.server.w.emitted == l.client.r.consumed + l.toClient
    && l.client.w.emitted == l.server.r.consumed + l.toServer
  }

  // ---- Every step and every run -----------------------------------------------------------------

  /** Nothing crossed the socket. */
  predicate NoTraffic(c: Conn, d: Conn) {
    && d.direction == c.direction && d.initPacket == c.initPacket && d.isConnecting == c.isConnecting
    && d.w.emitted == c.w.emitted && d.r.consumed == c.r.consumed
  }

  lemma WriteDoneIsQuiet(c: Conn, now: int)
    requires c.w.messagesOut != []
    ensures NoTraffic(c, HeaderWritten(c, now)) && NoTraffic(c, MessageWritten(c, now))
  {
  }

  lemma EchoIsQuiet(c: Conn, now: int)
    requires |c.r.wip.body| >= Packets.PING_SIZE
    ensures NoTraffic(c, Echo(c, now))
  {
  }

  lemma KeepAliveIsQuiet(c: Conn, now: int)
    requires WipWhole(c.r)
    ensures NoTraffic(c, KeepAliveArrived(c, now))
  {
    if GoodKeepAlive(c.r.wip.header) { EchoIsQuiet(c, now); }
  }

  lemma JudgedIsQuiet(c: Conn, now: int)
    requires WipWhole(c.r)
    ensures NoTraffic(c, Judged(c, now))
  {
    if c.r.wip.header.id == KEEP_ALIVE_ID { KeepAliveIsQuiet(c, now); }
  }

  lemma AddToIncomingIsQuiet(c: Conn, now: int)
    requires WipWhole(c.r)
    ensures NoTraffic(c, AddToIncoming(c, now))
  {
    var d := c.(r := Counted(c.r), lastReceived := now);
    JudgedIsQuiet(d, now);
  }

  lemma ReadDoneIsQuiet(c: Conn, now: int, incoming: seq<byte>)
    ensures NoTraffic(c, Act(c, ReadDone(now), incoming).conn)
  {
    if c.r.op.ReadingHeader? && |c.r.op.got| == HEADER_SIZE {
      var d := c.(r := HeaderIn(c.r, c.r.op.got));
      if d.r.wip.header.size == 0 { AddToIncomingIsQuiet(d, now); }
    } else if c.r.op.ReadingBody? && |c.r.op.got| == c.r.wip.header.size {
      AddToIncomingIsQuiet(c.(r := BodyIn(c.r, c.r.op.got)), now);
    }
  }

  /** A step records exactly what it moves. */
  lemma ActMoves(c: Conn, a: Action, incoming: seq<byte>)
    ensures var e := Act(c, a, incoming);
            && e.conn.direction == c.direction && e.conn.initPacket == c.initPacket
            && (e.conn.isConnecting ==> c.isConnecting)
            && e.conn.w.emitted == c.w.emitted + e.out
            && e.conn.r.consumed == c.r.consumed + incoming[..e.taken]
  {
    match a
    case WriteDone(now) => if c.w.messagesOut != [] { WriteDoneIsQuiet(c, now); }
    case ReadDone(now) => ReadDoneIsQuiet(c, now, incoming);
    case _ =>
  }

  lemma ActKeepsWire(c: Conn, d: Conn, a: Action, toPeer: seq<byte>, fromPeer: seq<byte>)
    requires Sound(c) && c.w.emitted == d.r.consumed + toPeer && d.w.emitted == c.r.consumed + fromPeer
    ensures var e := Act(c, a, fromPeer);
            && Sound(e.conn) && e.conn.direction == c.direction
            && e.conn.w.emitted == d.r.consumed + (toPeer + e.out)
            && d.w.emitted == e.conn.r.consumed + fromPeer[e.taken..]
  {
    ActKeeps(c, a, fromPeer);
    ActMoves(c, a, fromPeer);
    var e := Act(c, a, fromPeer);
    Regroup(d.r.consumed, toPeer, e.out);
    Regroup(c.r.consumed, fromPeer[..e.taken], fromPeer[e.taken..]);
    assert fromPeer == fromPeer[..e.taken] + fromPeer[e.taken..];
  }

  lemma StepKeeps(l: Link, m: Move)
    requires LinkSound(l)
    ensures LinkSound(Step(l, m))
  {
    match m.side
    case Server => ActKeepsWire(l.server, l.client, m.action, l.toClient, l.toServer);
    case Client => ActKeepsWire(l.client, l.server, m.action, l.toServer, l.toClient);
  }

  lemma StartSound(l: Link)
    requires Start(l)
    ensures LinkSound(l)
  {
  }

  /** Every reachable state of the link is sound. */
  lemma {:induction false} RunKeeps(l: Link, moves: seq<Move>)
    requires Start(l)
    ensures LinkSound(Run(l, moves))
  {
    if moves == [] {
      StartSound(l);
    } else {
      RunKeeps(l, moves[..|moves| - 1]);
      StepKeeps(Run(l, moves[..|moves| - 1]), moves[|moves| - 1]);
    }
  }

  // ---- What arrives is what was sent ------------------------------------------------------------

  /** The packets a writer has started to write. */
  function StartedBy(w: Writer): seq<SendInfo> {
    w.finished + if w.messagesOut == [] then [] else [w.messagesOut[0]]
  }

  lemma EmittedIsStarted(w: Writer)
    requires WriterSound(w)
    ensures w.emitted <= Frames(StartedBy(w)) && StartedBy(w) <= w.accepted && AllFramed(StartedBy(w))
  {
    assert StartedBy(w) <= w.accepted;
    if w.messagesOut == [] {
      assert StartedBy(w) == w.finished;
    } else {
      var m := w.messagesOut[0];
      assert (w.finished + [m])[..|w.finished + [m]| - 1] == w.finished;
      assert Frames(StartedBy(w)) == Frames(w.finished) + Frame(m);
      match w.op
      case NoWrite =>
      case WritingHeader(left) => Cut(w.emitted, left, Frames(w.finished), HeaderBytes(m.header), m.body);
      case WritingBody(left) =>
        Cut(w.emitted, left, Frames(w.finished), Frame(m), []);
        assert Frame(m) + [] == Frame(m);
    }
  }

  lemma ReceivedIsConsumed(r: Reader, direction: Direction)
    requires ReaderSound(r, direction)
    ensures Frames(r.received) <= r.consumed
  {
  }

  /** Whoever reads a stream has received a prefix of what its writer has started to write. */
  lemma ReceivedIsSent(w: Writer, r: Reader, direction: Direction, wire: seq<byte>)
    requires WriterSound(w) && ReaderSound(r, direction) && w.emitted == r.consumed + wire
    ensures r.received <= StartedBy(w) <= w.accepted
  {
    EmittedIsStarted(w);
    ReceivedIsConsumed(r, direction);
    FramesPrefix(r.received, StartedBy(w));
  }

  /** `messagesIn` is the first messages of `sent`, in order, none lost, repeated or merged: headers
      always, bodies whenever there is one. A bodyless message repeats the body before it. */
  predicate InOrder(messagesIn: seq<SendInfo>, sent: seq<SendInfo>) {
    && |messagesIn| <= |sent|
    && forall i | 0 <= i < |messagesIn| ::
         && messagesIn[i].header == HostHeader(sent[i].header)
         && messagesIn[i].header.size == |sent[i].body|
         && (sent[i].body != [] ==> messagesIn[i].body == sent[i].body)
         && (sent[i].body == [] ==> messagesIn[i].body == LastBody(sent[..i]))
  }

  lemma {:induction false} LastBodyIff(ms: seq<SendInfo>)
    ensures LastBody(ms) == [] <==> forall j | 0 <= j < |ms| :: ms[j].body == []
  {
    if ms != [] {
      var n := |ms| - 1;
      LastBodyIff(ms[..n]);
      assert forall j | 0 <= j < n :: ms[..n][j] == ms[j];
    }
  }

  /** The delivered copy has the body that was sent exactly when there was one, or no message before
      had one. */
  lemma BodyDeliveredIff(messagesIn: seq<SendInfo>, sent: seq<SendInfo>, i: nat)
    requires InOrder(messagesIn, sent) && i < |messagesIn|
    ensures messagesIn[i].body == sent[i].body <==>
              sent[i].body != [] || forall j | 0 <= j < i :: sent[j].body == []
  {
    LastBodyIff(sent[..i]);
    assert forall j | 0 <= j < i :: sent[..i][j] == sent[j];
  }

  lemma DeliveredBody(ms: seq<SendInfo>, i: nat)
    requires i < |ms| && Framed(ms[i])
    ensures Delivered(ms, i).header == HostHeader(ms[i].header) && Delivered(ms, i).header.size == |ms[i].body|
    ensures Delivered(ms, i).body == if ms[i].body != [] then ms[i].body else LastBody(ms[..i])
  {
    assert ms[..i + 1] == ms[..i] + [ms[i]];
    DeliveredLast(ms[..i], ms[i]);
  }

  lemma SoundInOrder(w: Writer, r: Reader, direction: Direction, wire: seq<byte>)
    requires WriterSound(w) && ReaderSound(r, direction) && w.emitted == r.consumed + wire
    ensures InOrder(r.messagesIn, w.accepted)
  {
    ReceivedIsSent(w, r, direction, wire);
    forall i | 0 <= i < |r.messagesIn|
      ensures r.messagesIn[i] == Delivered(r.received, i)
      ensures r.received[i] == w.accepted[i] && w.accepted[..i] == r.received[..i]
      ensures Delivered(r.received, i).header == HostHeader(r.received[i].header)
      ensures Delivered(r.received, i).header.size == |r.received[i].body|
      ensures Delivered(r.received, i).body ==
                if r.received[i].body != [] then r.received[i].body else LastBody(r.received[..i])
    {
      DeliveredBody(r.received, i);
    }
  }

  /** Each side has delivered a prefix of what the other side's `Send` accepted; the server delivered no
      Init. */
  predicate DeliveredInOrder(l: Link) {
    && InOrder(l.client.r.messagesIn, l.server.w.accepted)
    && InOrder(l.server.r.messagesIn, l.client.w.accepted)
    && InitFree(l.client.w.accepted[..|l.server.r.messagesIn|])
  }

  lemma SoundDelivers(l: Link)
    requires LinkSound(l)
    ensures DeliveredInOrder(l)
  {
    SoundInOrder(l.server.w, l.client.r, ToServer, l.toClient);
    SoundInOrder(l.client.w, l.server.r, ToClient, l.toServer);
    ReceivedIsSent(l.client.w, l.server.r, ToClient, l.toServer);
    var n := |l.server.r.messagesIn|;
    assert l.client.w.accepted[..n] == l.server.r.received[..n];
  }

  /** In every reachable state, under any fragmentation, interleaving, failure or close. */
  lemma {:induction false} DeliveredIsPrefixOfSent(l: Link, moves: seq<Move>)
    requires Start(l)
    ensures DeliveredInOrder(Run(l, moves))
  {
    RunKeeps(l, moves);
    SoundDelivers(Run(l, moves));
  }

  /** Nothing of what `c` sent is still on its way: not posted, not queued, not on the wire and not
      half read by the waiting peer. */
  predicate Drained(c: Conn, wire: seq<byte>, peer: Conn) {
    PostedInfos(c.w.posts) == [] && c.w.messagesOut == [] && wire == [] && peer.r.op == ReadingHeader([])
  }

  /** Everything that was sent was received and delivered, in order. */
  predicate AllDelivered(r: Reader, sent: seq<SendInfo>) {
    r.received == sent && |r.messagesIn| == |sent| && InOrder(r.messagesIn, sent)
  }

  lemma DrainedIsDelivered(w: Writer, r: Reader, direction: Direction)
    requires WriterSound(w) && ReaderSound(r, direction) && w.emitted == r.consumed
    requires PostedInfos(w.posts) == [] && w.messagesOut == [] && r.op == ReadingHeader([])
    ensures AllDelivered(r, w.accepted)
  {
    assert w.accepted == w.finished;
    assert r.consumed == Frames(r.received);
    FramesPrefix(r.received, w.accepted);
    FramesPrefix(w.accepted, r.received);
    assert w.emitted == r.consumed + [];
    SoundInOrder(w, r, direction, []);
  }

  /** In every run, once a direction has drained everything sent in it has been delivered. */
  lemma {:induction false} NothingLost(l: Link, moves: seq<Move>)
    requires Start(l)
    ensures var s := Run(l, moves);
            && (Drained(s.server, s.toClient, s.client) ==> AllDelivered(s.client.r, s.server.w.accepted))
            && (Drained(s.client, s.toServer, s.server) ==> AllDelivered(s.server.r, s.client.w.accepted))
  {
    RunKeeps(l, moves);
    var s := Run(l, moves);
    if Drained(s.server, s.toClient, s.client) {
      assert s.server.w.emitted == s.client.r.consumed;
      DrainedIsDelivered(s.server.w, s.client.r, ToServer);
    }
    if Drained(s.client, s.toServer, s.server) {
      assert s.client.w.emitted == s.server.r.consumed;
      DrainedIsDelivered(s.client.w, s.server.r, ToClient);
    }
  }

  // ---- Accounting -------------------------------------------------------------------------------

  function PendingSends(posts: seq<Post>): nat {
    |PostedInfos(posts)|
  }

  /** Accepted packets are pending, queued or sent; received packets were delivered, but for one that
      stopped the connection; and a peer is at most one packet ahead of the sent counter. */
  predicate Accounts(c: Conn, peer: Conn) {
    && |c.w.accepted| == PendingSends(c.w.posts) + |c.w.messagesOut| + c.w.sentCount
    && |c.r.messagesIn| <= c.r.receivedCount <= |c.r.messagesIn| + 1
    && (c.r.receivedCount == |c.r.messagesIn| + 1 ==> c.crashed || StoppedAtInit(c))
    && c.r.receivedCount <= peer.w.sentCount + 1
    && (peer.w.messagesOut == [] ==> c.r.receivedCount <= peer.w.sentCount)
  }

  lemma {:induction false} EveryRunAccounts(l: Link, moves: seq<Move>)
    requires Start(l)
    ensures var s := Run(l, moves); Accounts(s.server, s.client) && Accounts(s.client, s.server)
  {
    RunKeeps(l, moves);
    var s := Run(l, moves);
    ReceivedIsSent(s.server.w, s.client.r, ToServer, s.toClient);
    ReceivedIsSent(s.client.w, s.server.r, ToClient, s.toServer);
  }

  // ---- One writer, one reader -------------------------------------------------------------------

  /** Of the asynchronous writes started, at most one has not ended, and none or one while the socket is
      open as the outgoing queue is empty or not. Every byte emitted beyond the finished messages,
      followed by what the pending write still holds, is the header or the whole of the unchanged front
      message. */
  predicate OneWriter(c: Conn) {
    && c.w.ended <= c.w.started <= c.w.ended + 1
    && (c.w.started == c.w.ended <==> c.w.op.NoWrite?)
    && (c.isOpen ==> c.w.started == c.w.ended + if c.w.messagesOut == [] then 0 else 1)
    && Frames(c.w.finished) <= c.w.emitted
    && (!c.w.op.NoWrite? ==>
          && c.w.messagesOut != []
          && var part := c.w.emitted[|Frames(c.w.finished)|..] + c.w.op.left;
             var front := c.w.messagesOut[0];
             part == if c.w.op.WritingHeader? then HeaderBytes(front.header) else Frame(front))
  }

  /** Of the asynchronous reads started, at most one has not ended, and exactly one while the socket is
      open, until a throw or a valid Init. */
  predicate OneReader(c: Conn) {
    && c.r.ended <= c.r.started <= c.r.ended + 1
    && (c.r.started == c.r.ended <==> c.r.op.NoRead?)
    && (c.isOpen && !c.crashed ==> c.r.started == c.r.ended + if StoppedAtInit(c) then 0 else 1)
  }

  predicate OneWriterOneReader(c: Conn) {
    OneWriter(c) && OneReader(c)
  }

  lemma PartOfFront(e: seq<byte>, left: seq<byte>, f: seq<byte>, part: seq<byte>)
    requires e + left == f + part && f <= e
    ensures e[|f|..] + left == part
  {
    assert e == f + e[|f|..];
    assert (f + e[|f|..]) + left == f + (e[|f|..] + left);
    assert (f + part)[|f|..] == part;
  }

  lemma SoundMeansOne(c: Conn)
    requires Sound(c)
    ensures OneWriterOneReader(c)
  {
    if c.w.op.WritingHeader? {
      PartOfFront(c.w.emitted, c.w.op.left, Frames(c.w.finished), HeaderBytes(c.w.messagesOut[0].header));
    } else if c.w.op.WritingBody? {
      PartOfFront(c.w.emitted, c.w.op.left, Frames(c.w.finished), Frame(c.w.messagesOut[0]));
    }
  }

  lemma {:induction false} EveryRunHasOneWriterOneReader(l: Link, moves: seq<Move>)
    requires Start(l)
    ensures OneWriterOneReader(Run(l, moves).server) && OneWriterOneReader(Run(l, moves).client)
  {
    RunKeeps(l, moves);
    SoundMeansOne(Run(l, moves).server);
    SoundMeansOne(Run(l, moves).client);
  }
}
