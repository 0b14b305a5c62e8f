// A server with any number of connections that share one incoming queue, emptied by Update on
// another thread while the connections go on.

module Hubs {
  import opened Bytes
  import opened Packets
  import opened Framing
  import opened ConnectionSpec
  import opened ConnectionSound
  import opened Links

  /** A queued message and the number of the connection it came from. */
  datatype Owned = Owned(owner: nat, message: SendInfo)

  /** A connection, with its history: how it started and the moves it has made. */
  datatype Member = Member(link: Link, start: Link, moves: seq<Move>)

  /** `dispatched` is what OnMessage was called with; `threw` says that Update met a compressed message. */
  datatype Hub = Hub(members: seq<Member>, queue: seq<Owned>, dispatched: seq<Owned>, threw: bool)

  datatype HubMove =
    | Accepts(link: Link)
    | Moves(i: nat, move: Move)
    | UpdatePops

  const EMPTY := Hub([], [], [], false)

  /** Messages as connection `i` pushes them. */
  function From(i: nat, ms: seq<SendInfo>): (r: seq<Owned>)
    ensures |r| == |ms|
  {
    seq(|ms|, k requires 0 <= k < |ms| => Owned(i, ms[k]))
  }

  /** What the second delivery log has beyond the first. */
  function NewIn(before: seq<SendInfo>, after: seq<SendInfo>): seq<SendInfo> {
    if |before| <= |after| then after[|before|..] else []
  }

  function Moved(m: Member, move: Move): Member {
    m.(link := Step(m.link, move), moves := m.moves + [move])
  }

  /** One turn of the loop in Update. */
  function Pop(h: Hub): Hub {
    if h.queue == [] then h
    else if IsCompressed(h.queue[0].message.header) then h.(queue := h.queue[1..], threw := true)
    else h.(queue := h.queue[1..], dispatched := h.dispatched + [h.queue[0]])
  }

  function HubStep(h: Hub, a: HubMove): Hub {
    match a
    case Accepts(link) => if Start(link) then h.(members := h.members + [Member(link, link, [])]) else h
    case Moves(i, move) =>
      if i >= |h.members| then h
      else
        var m := Moved(h.members[i], move);
        h.(members := h.members[i := m],
           queue := h.queue + From(i, NewIn(h.members[i].link.server.r.messagesIn, m.link.server.r.messagesIn)))
    case UpdatePops => Pop(h)
  }

  function HubRun(moves: seq<HubMove>): Hub {
    if moves == [] then EMPTY else HubStep(HubRun(moves[..|moves| - 1]), moves[|moves| - 1])
  }

  /** What a step of the server's end of connection `i` does to the hub. */
  lemma ServerMoved(h: Hub, i: nat, a: Action)
    requires i < |h.members|
    ensures var link := h.members[i].link;
            var d := Act(link.server, a, link.toServer).conn;
            var n := HubStep(h, Moves(i, Move(Server, a)));
            && n.members[i].link.server == d && n.dispatched == h.dispatched
            && n.queue == h.queue + From(i, NewIn(link.server.r.messagesIn, d.r.messagesIn))
  {
  }

  // ---- Any peer ---------------------------------------------------------------------------------

  /** One end and any bytes from a peer that need not be of this library. */
  datatype Feed = Feed(action: Action, incoming: seq<byte>)

  function EndRun(c: Conn, feeds: seq<Feed>): Conn {
    if feeds == [] then c
    else
      var f := feeds[|feeds| - 1];
      Act(EndRun(c, feeds[..|feeds| - 1]), f.action, f.incoming).conn
  }

  predicate AllCompressedBodyless(ms: seq<SendInfo>) {
    forall i | 0 <= i < |ms| :: CompressedIsBodyless(ms[i])
  }

  /** Whatever a peer sends, a compressed message that is delivered has no body. */
  lemma {:induction false} CompressedArrivesBodyless(c: Conn, feeds: seq<Feed>)
    requires c.r.messagesIn == []
    ensures AllCompressedBodyless(EndRun(c, feeds).r.messagesIn)
  {
    if feeds != [] {
      var before, f := feeds[..|feeds| - 1], feeds[|feeds| - 1];
      CompressedArrivesBodyless(c, before);
      ActGrows(EndRun(c, before), f.action, f.incoming);
    }
  }

  /** And such a message is delivered, since the flag is looked at only after a body. */
  lemma CompressedBodylessIsDelivered(c: Conn, id: byte, now: int)
    requires !c.crashed && c.r.op == ReadingHeader([id, COMPRESSED, 0, 0]) && id !in {KEEP_ALIVE_ID, INIT_ID}
    ensures var d := Act(c, ReadDone(now), []).conn;
            && d.r.messagesIn == c.r.messagesIn + [SendInfo(Header(id, COMPRESSED, 0), c.r.wip.body)]
            && !d.crashed && d.isOpen == c.isOpen
  {
    BodylessWip(c.r, c.r.op.got, Header(id, COMPRESSED, 0));
    OtherIsDelivered(c.(r := HeaderIn(c.r, c.r.op.got)), now);
  }

  lemma BodylessWip(r: Reader, bytes: seq<byte>, h: Header)
    requires h.size == 0 && bytes == HeaderBytes(h)
    ensures HeaderIn(r, bytes).wip == SendInfo(h, r.wip.body)
  {
    HeaderBytesInjective(HeaderFrom(bytes), h);
    assert HostHeader(h) == h;
  }

  lemma OtherIsDelivered(c: Conn, now: int)
    requires WipWhole(c.r) && c.r.wip.header.id !in {KEEP_ALIVE_ID, INIT_ID}
    ensures var d := AddToIncoming(c, now);
            d.r.messagesIn == c.r.messagesIn + [c.r.wip] && d.crashed == c.crashed && d.isOpen == c.isOpen
  {
  }

  predicate Plain(ms: seq<SendInfo>) {
    forall i | 0 <= i < |ms| :: ms[i].header.flags == 0
  }

  lemma StepGrows(l: Link, m: Move)
    requires Plain(l.client.w.accepted)
    ensures Plain(Step(l, m).client.w.accepted) && l.server.r.messagesIn <= Step(l, m).server.r.messagesIn
  {
    match m.side
    case Server => ActGrows(l.server, m.action, l.toServer);
    case Client => ActGrows(l.client, m.action, l.toClient);
  }

  // ---- Every step and every run -----------------------------------------------------------------

  /** The messages of connection `i`, in order. */
  function Of(i: nat, log: seq<Owned>): seq<SendInfo> {
    if log == [] then []
    else Of(i, log[..|log| - 1]) + if log[|log| - 1].owner == i then [log[|log| - 1].message] else []
  }

  lemma {:induction false} OfAppend(i: nat, a: seq<Owned>, b: seq<Owned>)
    ensures Of(i, a + b) == Of(i, a) + Of(i, b)
  {
    if b == [] {
      assert a + b == a;
    } else {
      var n := |b| - 1;
      assert (a + b)[..|a + b| - 1] == a + b[..n];
      OfAppend(i, a, b[..n]);
    }
  }

  lemma {:induction false} OfFrom(i: nat, j: nat, ms: seq<SendInfo>)
    ensures Of(i, From(j, ms)) == if i == j then ms else []
  {
    if ms != [] {
      var n := |ms| - 1;
      assert From(j, ms)[..n] == From(j, ms[..n]);
      OfFrom(i, j, ms[..n]);
      assert ms == ms[..n] + [ms[n]];
    }
  }

  lemma {:induction false} OfNobody(i: nat, log: seq<Owned>)
    requires forall k | 0 <= k < |log| :: log[k].owner != i
    ensures Of(i, log) == []
  {
    if log != [] { OfNobody(i, log[..|log| - 1]); }
  }

  /** A connection is where its own moves took it. */
  predicate MemberSound(m: Member) {
    Start(m.start) && m.link == Run(m.start, m.moves) && Plain(m.link.client.w.accepted)
  }

  /** Everything pushed so far, in order. */
  function Log(h: Hub): seq<Owned> {
    h.dispatched + h.queue
  }

  predicate LogSound(members: seq<Member>, log: seq<Owned>) {
    && (forall k | 0 <= k < |log| :: log[k].owner < |members| && log[k].message.header.flags == 0)
    && (forall i | 0 <= i < |members| :: Of(i, log) == members[i].link.server.r.messagesIn)
  }

  predicate HubSound(h: Hub) {
    (forall i | 0 <= i < |h.members| :: MemberSound(h.members[i])) && LogSound(h.members, Log(h)) && !h.threw
  }

  lemma MovedKeeps(m: Member, move: Move)
    requires MemberSound(m)
    ensures MemberSound(Moved(m, move)) && m.link.server.r.messagesIn <= Moved(m, move).link.server.r.messagesIn
  {
    assert (m.moves + [move])[..|m.moves|] == m.moves;
    StepGrows(m.link, move);
  }

  /** What a client of this library sent is never compressed when it is delivered. */
  lemma DeliveriesArePlain(m: Member)
    requires MemberSound(m)
    ensures Plain(m.link.server.r.messagesIn)
  {
    DeliveredIsPrefixOfSent(m.start, m.moves);
  }

  lemma OfMore(i: nat, j: nat, log: seq<Owned>, before: seq<SendInfo>, after: seq<SendInfo>)
    requires before <= after
    ensures Of(j, log + From(i, NewIn(before, after))) == Of(j, log) + if i == j then NewIn(before, after) else []
    ensures before + NewIn(before, after) == after
  {
    OfAppend(j, log, From(i, NewIn(before, after)));
    OfFrom(j, i, NewIn(before, after));
  }

  lemma LogGrows(members: seq<Member>, log: seq<Owned>, i: nat, m: Member)
    requires LogSound(members, log) && i < |members| && Plain(m.link.server.r.messagesIn)
    requires members[i].link.server.r.messagesIn <= m.link.server.r.messagesIn
    ensures var more := NewIn(members[i].link.server.r.messagesIn, m.link.server.r.messagesIn);
            LogSound(members[i := m], log + From(i, more))
  {
    var before, after := members[i].link.server.r.messagesIn, m.link.server.r.messagesIn;
    var longer := log + From(i, NewIn(before, after));
    forall j | 0 <= j < |members| ensures Of(j, longer) == members[i := m][j].link.server.r.messagesIn {
      OfMore(i, j, log, before, after);
    }
    forall k | |log| <= k < |longer| ensures longer[k].owner == i && longer[k].message.header.flags == 0 {
      assert longer[k].message == after[|before| + (k - |log|)];
    }
  }

  lemma AcceptsKeeps(h: Hub, link: Link)
    requires HubSound(h) && Start(link)
    ensures HubSound(HubStep(h, Accepts(link)))
  {
    OfNobody(|h.members|, Log(h));
  }

  lemma MovesKeeps(h: Hub, i: nat, move: Move)
    requires HubSound(h) && i < |h.members|
    ensures HubSound(HubStep(h, Moves(i, move)))
  {
    var before, m := h.members[i].link.server.r.messagesIn, Moved(h.members[i], move);
    MovedKeeps(h.members[i], move);
    DeliveriesArePlain(m);
    LogGrows(h.members, Log(h), i, m);
    Regroup(h.dispatched, h.queue, From(i, NewIn(before, m.link.server.r.messagesIn)));
  }

  lemma PopKeeps(h: Hub)
    requires HubSound(h)
    ensures HubSound(Pop(h)) && Log(Pop(h)) == Log(h)
  {
    if h.queue != [] {
      assert Log(h)[|h.dispatched|] == h.queue[0];
      assert Log(Pop(h)) == Log(h);
    }
  }

  lemma {:induction false} HubRunKeeps(moves: seq<HubMove>)
    ensures HubSound(HubRun(moves))
  {
    if moves != [] {
      HubRunKeeps(moves[..|moves| - 1]);
      var h := HubRun(moves[..|moves| - 1]);
      match moves[|moves| - 1]
      case Accepts(link) => if Start(link) { AcceptsKeeps(h, link); }
      case Moves(i, move) => if i < |h.members| { MovesKeeps(h, i, move); }
      case UpdatePops => PopKeeps(h);
    }
  }

  // ---- What the server's handler sees -----------------------------------------------------------

  /** For every run, however the connections and Update interleave: what was dispatched followed by
      what is queued holds, for each connection, exactly its deliveries in order, and these are the
      first packets that its client's `Send` accepted; there are no others, and Update never throws. */
  lemma {:induction false} EveryConnectionIsDispatchedInOrder(moves: seq<HubMove>, i: nat)
    requires i < |HubRun(moves).members|
    ensures var h := HubRun(moves);
            var link := h.members[i].link;
            && !h.threw
            && Of(i, h.dispatched) + Of(i, h.queue) == link.server.r.messagesIn
            && InOrder(Of(i, h.dispatched), link.client.w.accepted)
            && link == Run(h.members[i].start, h.members[i].moves)
  {
    HubRunKeeps(moves);
    var h := HubRun(moves);
    OfAppend(i, h.dispatched, h.queue);
    DeliveredIsPrefixOfSent(h.members[i].start, h.members[i].moves);
  }

  lemma NobodyElseIsDispatched(moves: seq<HubMove>, k: nat)
    requires k < |HubRun(moves).dispatched|
    ensures HubRun(moves).dispatched[k].owner < |HubRun(moves).members|
  {
    HubRunKeeps(moves);
    assert Log(HubRun(moves))[k] == HubRun(moves).dispatched[k];
  }

  function Pops(h: Hub, limit: nat): Hub
    decreases limit
  {
    if limit == 0 then h else Pops(Pop(h), limit - 1)
  }

  /** An undisturbed Update with a limit hands over exactly the first messages of the queue. */
  lemma {:induction false} UpdateHandsOver(h: Hub, limit: nat)
    requires HubSound(h)
    ensures var k := Min(limit, |h.queue|);
            Pops(h, limit) == h.(dispatched := h.dispatched + h.queue[..k], queue := h.queue[k..])
    decreases limit
  {
    var k := Min(limit, |h.queue|);
    if k == 0 {
      PopsOfEmpty(h, limit);
      assert h.dispatched + h.queue[..k] == h.dispatched;
    } else {
      PopKeeps(h);
      assert Log(h)[|h.dispatched|] == h.queue[0];
      UpdateHandsOver(Pop(h), limit - 1);
      Regroup(h.dispatched, [h.queue[0]], h.queue[1..][..k - 1]);
      assert [h.queue[0]] + h.queue[1..][..k - 1] == h.queue[..k];
    }
  }

  lemma {:induction false} PopsOfEmpty(h: Hub, limit: nat)
    requires h.queue == [] || limit == 0
    ensures Pops(h, limit) == h
    decreases limit
  {
    if limit > 0 { PopsOfEmpty(h, limit - 1); }
  }
}
