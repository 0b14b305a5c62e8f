// The objects against the runs: two connections driven through any moves are a run of a link, and a
// server with its connections takes the steps of a hub.

module Objects {
  import opened Bytes
  import opened Framing
  import Spec = ConnectionSpec
  import opened ConnectionSound
  import opened Links
  import opened Connections
  import opened Servers
  import opened Hubs
  import Packets
  import KeepAlive

  // ---- Two connections --------------------------------------------------------------------------

  /** Two connections that share nothing. */
  ghost predicate Apart(server: Connection, client: Connection) {
    && server != client && server.Valid() && client.Valid()
    && server.messagesOut as object !in {client.messagesOut, client.messagesIn}
    && server.messagesIn as object !in {client.messagesOut, client.messagesIn}
  }

  ghost function LinkOf(server: Connection, client: Connection, toClient: seq<byte>, toServer: seq<byte>): Link
    reads server, client, server.messagesOut, client.messagesOut
  {
    Link(server.State(), client.State(), toClient, toServer)
  }

  /** The owner's queue holds what it held, then what this connection delivered. */
  ghost predicate Pushed(c: Connection, before: seq<OwnedMessage>)
    reads c`delivered, c.messagesIn
  {
    c.messagesIn.data == before + c.Owned(c.delivered)
  }

  lemma PushedMore(c: Connection, before: seq<OwnedMessage>, a: seq<SendInfo>, b: seq<SendInfo>)
    requires a <= b
    ensures before + c.Owned(a) + c.Owned(b[|a|..]) == before + c.Owned(b)
  {
    assert c.Owned(a) + c.Owned(b[|a|..]) == c.Owned(b);
    Regroup(before, c.Owned(a), c.Owned(b[|a|..]));
  }

  /** One end takes a step: its queue goes on holding what it delivered. */
  method DoOne(c: Connection, a: Spec.Action, incoming: seq<byte>, ghost before: seq<OwnedMessage>)
    returns (out: seq<byte>, taken: nat)
    requires c.Valid() && Sound(c.State()) && Pushed(c, before)
    modifies c, c.messagesOut, c.messagesIn
    ensures c.State() == Spec.Act(old(c.State()), a, incoming).conn && Sound(c.State()) && Pushed(c, before)
    ensures out == Spec.Act(old(c.State()), a, incoming).out && taken == Spec.Act(old(c.State()), a, incoming).taken
  {
    ghost var delivered := c.delivered;
    out, taken := c.Do(a, incoming);
    PushedMore(c, before, delivered, c.delivered);
  }

  method DoMove(server: Connection, client: Connection, m: Move, toClient: seq<byte>, toServer: seq<byte>,
                ghost inServer: seq<OwnedMessage>, ghost inClient: seq<OwnedMessage>)
    returns (toClient': seq<byte>, toServer': seq<byte>)
    requires Apart(server, client) && Sound(server.State()) && Sound(client.State())
    requires Pushed(server, inServer) && Pushed(client, inClient)
    modifies server, client
    modifies server.messagesOut, server.messagesIn, client.messagesOut, client.messagesIn
    ensures Sound(server.State()) && Sound(client.State())
    ensures Pushed(server, inServer) && Pushed(client, inClient)
    ensures LinkOf(server, client, toClient', toServer') == Step(old(LinkOf(server, client, toClient, toServer)), m)
  {
    toClient', toServer' := toClient, toServer;
    match m.side
    case Server =>
      var out, taken := DoOne(server, m.action, toServer, inServer);
      toClient', toServer' := toClient + out, toServer[taken..];
    case Client =>
      var out, taken := DoOne(client, m.action, toClient, inClient);
      toServer', toClient' := toServer + out, toClient[taken..];
  }

  /** The objects are where the first `i` moves take the link `l`. */
  ghost predicate Driven(server: Connection, client: Connection, toClient: seq<byte>, toServer: seq<byte>,
                         l: Link, moves: seq<Move>, i: nat)
    requires i <= |moves|
    reads server, client, server.messagesOut, client.messagesOut
  {
    && Sound(server.State()) && Sound(client.State())
    && LinkOf(server, client, toClient, toServer) == Run(l, moves[..i])
  }

  method DoNext(server: Connection, client: Connection, moves: seq<Move>, i: nat,
                toClient: seq<byte>, toServer: seq<byte>,
                ghost l: Link, ghost inServer: seq<OwnedMessage>, ghost inClient: seq<OwnedMessage>)
    returns (toClient': seq<byte>, toServer': seq<byte>)
    requires Apart(server, client) && i < |moves| && Driven(server, client, toClient, toServer, l, moves, i)
    requires Pushed(server, inServer) && Pushed(client, inClient)
    modifies server, client
    modifies server.messagesOut, server.messagesIn, client.messagesOut, client.messagesIn
    ensures Driven(server, client, toClient', toServer', l, moves, i + 1)
    ensures Pushed(server, inServer) && Pushed(client, inClient)
  {
    RunNext(l, moves, i);
    toClient', toServer' := DoMove(server, client, moves[i], toClient, toServer, inServer, inClient);
  }

  method DoMoves(server: Connection, client: Connection, moves: seq<Move>,
                 ghost l: Link, ghost inServer: seq<OwnedMessage>, ghost inClient: seq<OwnedMessage>)
    returns (toClient: seq<byte>, toServer: seq<byte>)
    requires Apart(server, client) && Driven(server, client, [], [], l, moves, 0)
    requires Pushed(server, inServer) && Pushed(client, inClient)
    modifies server, client
    modifies server.messagesOut, server.messagesIn, client.messagesOut, client.messagesIn
    ensures Driven(server, client, toClient, toServer, l, moves, |moves|)
    ensures Pushed(server, inServer) && Pushed(client, inClient)
  {
    toClient, toServer := [], [];
    for i := 0 to |moves|
      invariant Driven(server, client, toClient, toServer, l, moves, i)
      invariant Pushed(server, inServer) && Pushed(client, inClient)
    {
      toClient, toServer := DoNext(server, client, moves, i, toClient, toServer, l, inServer, inClient);
    }
  }

  /** Two objects driven through any moves: the run of the link, and in both queues the packets the
      other object's `Send` accepted, in order. */
  method DoAll(server: Connection, client: Connection, moves: seq<Move>)
    returns (toClient: seq<byte>, toServer: seq<byte>)
    requires Apart(server, client) && Start(LinkOf(server, client, [], []))
    modifies server, client
    modifies server.messagesOut, server.messagesIn, client.messagesOut, client.messagesIn
    ensures LinkOf(server, client, toClient, toServer) == Run(old(LinkOf(server, client, [], [])), moves)
    ensures Pushed(server, old(server.messagesIn.data)) && InOrder(server.delivered, client.accepted)
    ensures Pushed(client, old(client.messagesIn.data)) && InOrder(client.delivered, server.accepted)
  {
    ghost var l := LinkOf(server, client, [], []);
    ghost var inServer, inClient := server.messagesIn.data, client.messagesIn.data;
    StartSound(l);
    StartDelivered(server, inServer, client, inClient);
    toClient, toServer := DoMoves(server, client, moves, l, inServer, inClient);
    assert moves[..|moves|] == moves;
    DeliveredIsPrefixOfSent(l, moves);
  }

  lemma StartDelivered(server: Connection, inServer: seq<OwnedMessage>, client: Connection, inClient: seq<OwnedMessage>)
    requires server.messagesIn.data == inServer && client.messagesIn.data == inClient
    requires Start(LinkOf(server, client, [], []))
    ensures Pushed(server, inServer) && Pushed(client, inClient)
  {
    assert server.State().r.messagesIn == server.delivered == [];
    assert client.State().r.messagesIn == client.delivered == [];
  }

  // ---- A server and its connections -------------------------------------------------------------

  /** Queued messages under the numbers of their connections. */
  ghost function Numbered(q: seq<OwnedMessage>, number: Connection? -> nat): (r: seq<Hubs.Owned>)
    ensures |r| == |q|
  {
    seq(|q|, i requires 0 <= i < |q| => Hubs.Owned(number(q[i].owner), q[i].message))
  }

  /** The queue and the dispatch log of the server are those of the hub. */
  ghost predicate HubOf(s: PacketServer, h: Hub, number: Connection? -> nat)
    reads s, s.messageInQueue
  {
    h.queue == Numbered(s.messageInQueue.data, number) && h.dispatched == Numbered(s.dispatched, number)
  }

  /** One turn of `Update` is one pop of the hub. */
  method UpdateTurn(s: PacketServer, ghost h: Hub, ghost number: Connection? -> nat) returns (ok: bool)
    requires s.messageInQueue.data != [] && HubOf(s, h, number)
    modifies s`dispatched, s.messageInQueue
    ensures HubOf(s, Pop(h), number) && Pop(h).threw == (h.threw || !ok)
  {
    ok := s.HandleFront();
  }

  /** A whole `Update` of a hub whose clients are of this library: it does not throw and hands over the
      first messages of the queue up to the limit. */
  method UpdateAll(s: PacketServer, limit: nat, ghost h: Hub, ghost number: Connection? -> nat) returns (r: Result<nat>)
    requires HubSound(h) && HubOf(s, h, number)
    modifies s`dispatched, s.messageInQueue
    ensures HubOf(s, Pops(h, limit), number) && r == Ok(Min(limit, |h.queue|))
  {
    ghost var q, k := s.messageInQueue.data, Min(limit, |h.queue|);
    PlainQueue(h, q, number);
    HandledIs(q, limit, k);
    UpdateHandsOver(h, limit);
    r := s.Update(limit);
  }

  lemma PlainQueue(h: Hub, q: seq<OwnedMessage>, number: Connection? -> nat)
    requires HubSound(h) && h.queue == Numbered(q, number)
    ensures NoneCompressed(q, |q|)
  {
    forall i | 0 <= i < |q| ensures !Spec.IsCompressed(q[i].message.header) {
      assert Log(h)[|h.dispatched| + i] == h.queue[i];
    }
  }

  /** A step of the server's end of connection `i` is a move of the hub. */
  method ConnectionMoves(s: PacketServer, c: Connection, a: Spec.Action, incoming: seq<byte>,
                         ghost h: Hub, ghost i: nat, ghost number: Connection? -> nat)
    returns (out: seq<byte>, taken: nat)
    requires c.Valid() && c.direction.ToClient? && c.messagesIn == s.messageInQueue && Sound(c.State())
    requires HubOf(s, h, number) && i < |h.members| && number(c) == i
    requires h.members[i].link.server == c.State() && h.members[i].link.toServer == incoming
    modifies c, c.messagesOut, c.messagesIn
    ensures HubOf(s, HubStep(h, Moves(i, Move(Server, a))), number)
    ensures HubStep(h, Moves(i, Move(Server, a))).members[i].link.server == c.State() && Sound(c.State())
  {
    ghost var before, delivered := s.messageInQueue.data, c.delivered;
    out, taken := c.Do(a, incoming);
    QueueMoves(c, h, i, a, before, c.delivered[|delivered|..], number);
  }

  lemma QueueMoves(c: Connection, h: Hub, i: nat, a: Spec.Action, before: seq<OwnedMessage>, ms: seq<SendInfo>,
                   number: Connection? -> nat)
    requires c.direction.ToClient? && i < |h.members| && number(c) == i && h.queue == Numbered(before, number)
    requires var link := h.members[i].link;
             var d := Spec.Act(link.server, a, link.toServer).conn;
             link.server.r.messagesIn <= d.r.messagesIn && ms == NewIn(link.server.r.messagesIn, d.r.messagesIn)
    ensures var n := HubStep(h, Moves(i, Move(Server, a)));
            var link := h.members[i].link;
            && n.queue == Numbered(before + c.Owned(ms), number) && n.dispatched == h.dispatched
            && n.members[i].link.server == Spec.Act(link.server, a, link.toServer).conn
  {
    ServerMoved(h, i, a);
    NumberedMore(c, before, ms, number);
  }

  lemma NumberedMore(c: Connection, before: seq<OwnedMessage>, ms: seq<SendInfo>, number: Connection? -> nat)
    requires c.direction.ToClient?
    ensures Numbered(before + c.Owned(ms), number) == Numbered(before, number) + From(number(c), ms)
  {
  }

  // ---- Accepting and checking connections -------------------------------------------------------

  /** The link of a new connection, whatever the client at its other end. */
  ghost function NewLink(now: int, client: Spec.Conn): Link {
    Link(Spec.ConnectToClient(Spec.Created(Spec.ToClient, true, now)), client, [], [])
  }

  /** An approved connection is a new member of the hub, under the next number. */
  method Accept(s: PacketServer, now: int, ghost client: Spec.Conn, ghost h: Hub, ghost number: Connection? -> nat)
    returns (c: Connection, ghost number': Connection? -> nat)
    requires s.Valid() && HubOf(s, h, number) && Start(NewLink(now, client))
    modifies s`connections
    ensures s.Valid() && fresh(c) && s.connections == old(s.connections) + [c] && c.messagesIn == s.messageInQueue
    ensures var n := HubStep(h, Accepts(NewLink(now, client)));
            && HubOf(s, n, number') && number'(c) == |h.members| && |n.members| == |h.members| + 1
            && n.members[|h.members|].link.server == c.State()
    ensures forall d: Connection | d in old(s.connections) :: number'(d) == number(d)
  {
    ghost var before := s.connections;
    c := s.OnAccepted(now, true);
    number' := WithNumber(number, c, |h.members|);
    assert c !in before;
    SameNumbers(s.messageInQueue.data, number, c, |h.members|);
    SameNumbers(s.dispatched, number, c, |h.members|);
  }

  ghost function WithNumber(number: Connection? -> nat, c: Connection, i: nat): Connection? -> nat {
    x => if x == c then i else number(x)
  }

  lemma SameNumbers(q: seq<OwnedMessage>, number: Connection? -> nat, c: Connection, i: nat)
    requires forall k | 0 <= k < |q| :: q[k].owner != c
    ensures Numbered(q, WithNumber(number, c, i)) == Numbered(q, number)
  {
  }

  /** A connection is where its watched link has its server. */
  ghost predicate Watches(w: KeepAlive.Watched, c: Connection)
    reads c, c.messagesOut
  {
    !w.removed && w.link.server == c.State() && !c.crashed
  }

  /** What a check does to a watched connection that has not thrown. */
  lemma CheckIs(w: KeepAlive.Watched, now: int, payload: Packets.uint64)
    requires !w.removed && !w.link.server.crashed
    ensures var x := KeepAlive.Watch(w, KeepAlive.Check(now, payload));
            && (x.removed <==> !KeepAlive.Survives(w.link.server, now))
            && (x.link.server == if x.removed then w.link.server else Pinged(w.link.server, payload))
            && (Sound(w.link.server) ==> Sound(x.link.server))
  {
    if Sound(w.link.server) {
      ActKeeps(w.link.server, Spec.AppSend(Spec.PingPacket(payload)), w.link.toServer);
    }
  }

  /** `SendKeepAlive` is the check of every connection: exactly those whose check removes them leave the
      list, and every connection is where its check takes it. */
  method CheckAll(s: PacketServer, now: int, payload: Packets.uint64, ghost ws: map<Connection, KeepAlive.Watched>)
    requires s.Valid() && forall c: Connection | c in s.connections :: c in ws && Watches(ws[c], c)
    modifies s`connections, s`disconnected
    modifies Rest(s.connections, 0)`posts, Rest(s.connections, 0)`lastKeepAliveValue, Rest(s.connections, 0)`accepted
    ensures s.Valid()
    ensures forall c: Connection | c in old(s.connections) ::
              var w := KeepAlive.Watch(ws[c], KeepAlive.Check(now, payload));
              && (c in s.connections <==> !w.removed) && w.link.server == c.State()
              && (Sound(ws[c].link.server) ==> Sound(c.State()))
  {
    ghost var cs := s.connections;
    KeptIff(cs, now);
    forall c: Connection | c in cs ensures c.State() == ws[c].link.server {}
    forall c: Connection | c in cs ensures Survives(c, now) == KeepAlive.Survives(ws[c].link.server, now) {
      SurvivesInKeepAlive(c, now);
    }
    s.SendKeepAlive(now, payload);
    forall c: Connection | c in cs
      ensures var w := KeepAlive.Watch(ws[c], KeepAlive.Check(now, payload));
              && (c in s.connections <==> !w.removed) && w.link.server == c.State()
              && (Sound(ws[c].link.server) ==> Sound(c.State()))
    {
      CheckIs(ws[c], now, payload);
    }
  }
}
