// PacketServer: the connection list and the shared incoming queue. Callbacks are logged; they change
// neither the connections nor the queue.

module Servers {
  import opened Bytes
  import opened Packets
  import opened Framing
  import opened Queues
  import opened Connections
  import Spec = ConnectionSpec
  import KeepAlive

  /** The entries whose flag is set, in order. */
  function Select<T>(cs: seq<T>, keep: seq<bool>): (r: seq<T>)
    requires |keep| == |cs|
    ensures forall c | c in r :: c in cs
  {
    if cs == [] then []
    else
      var n := |cs| - 1;
      Select(cs[..n], keep[..n]) + if keep[n] then [cs[n]] else []
  }

  function Flipped(keep: seq<bool>): (r: seq<bool>)
    ensures |r| == |keep|
  {
    seq(|keep|, i requires 0 <= i < |keep| => !keep[i])
  }

  lemma {:induction false} SelectAll<T>(cs: seq<T>, keep: seq<bool>)
    requires |keep| == |cs| && forall i | 0 <= i < |keep| :: keep[i]
    ensures Select(cs, keep) == cs
    ensures Select(cs, Flipped(keep)) == []
  {
    if cs != [] {
      var n := |cs| - 1;
      SelectAll(cs[..n], keep[..n]);
      assert Flipped(keep)[..n] == Flipped(keep[..n]);
      assert cs == cs[..n] + [cs[n]];
    }
  }

  lemma SelectMore<T>(cs: seq<T>, keep: seq<bool>, i: nat)
    requires |keep| == |cs| && i < |cs|
    ensures Select(cs[..i + 1], keep[..i + 1]) == Select(cs[..i], keep[..i]) + if keep[i] then [cs[i]] else []
  {
    assert cs[..i + 1][..i] == cs[..i] && keep[..i + 1][..i] == keep[..i];
  }

  lemma {:induction false} SelectKept<T>(cs: seq<T>, keep: seq<bool>, c: T)
    requires |keep| == |cs| && c in Select(cs, keep)
    ensures exists i :: 0 <= i < |cs| && keep[i] && cs[i] == c
  {
    var n := |cs| - 1;
    if c in Select(cs[..n], keep[..n]) {
      SelectKept(cs[..n], keep[..n], c);
    }
  }

  /** Two lists that together hold the entries of a third. */
  ghost predicate Parts<T>(kept: seq<T>, dropped: seq<T>, all: seq<T>) {
    multiset(kept) + multiset(dropped) == multiset(all) && |kept| + |dropped| == |all|
  }

  lemma PartsMore<T>(kept: seq<T>, dropped: seq<T>, all: seq<T>, x: T)
    requires Parts(kept, dropped, all)
    ensures Parts(kept + [x], dropped, all + [x]) && Parts(kept, dropped + [x], all + [x])
  {
    assert multiset(kept) + multiset{x} + multiset(dropped) == multiset(all) + multiset{x};
  }

  /** Selecting keeps order and loses and repeats nothing: kept and dropped entries together are all. */
  lemma {:induction false} SelectSplits<T>(cs: seq<T>, keep: seq<bool>)
    requires |keep| == |cs|
    ensures Parts(Select(cs, keep), Select(cs, Flipped(keep)), cs)
  {
    if cs != [] {
      var n := |cs| - 1;
      var kept, dropped := Select(cs[..n], keep[..n]), Select(cs[..n], Flipped(keep[..n]));
      SelectSplits(cs[..n], keep[..n]);
      PartsMore(kept, dropped, cs[..n], cs[n]);
      assert cs == cs[..n] + [cs[n]];
      SelectLast(cs, keep);
      assert keep[n] ==> Select(cs, Flipped(keep)) == dropped;
      assert !keep[n] ==> Select(cs, keep) == kept;
    }
  }

  lemma SelectLast<T>(cs: seq<T>, keep: seq<bool>)
    requires |keep| == |cs| > 0
    ensures var n := |cs| - 1;
            && Select(cs, keep) == Select(cs[..n], keep[..n]) + (if keep[n] then [cs[n]] else [])
            && Select(cs, Flipped(keep)) == Select(cs[..n], Flipped(keep[..n])) + (if keep[n] then [] else [cs[n]])
  {
    assert Flipped(keep)[..|cs| - 1] == Flipped(keep[..|cs| - 1]);
  }

  // ---- The connection list ----------------------------------------------------------------------

  /** std::remove of null pointers and erase of the rest. */
  function NonNull(cs: seq<Connection?>): seq<Connection?> {
    if cs == [] then []
    else
      var n := |cs| - 1;
      NonNull(cs[..n]) + if cs[n] != null then [cs[n]] else []
  }

  lemma {:induction false} NonNullIsSelect(marked: seq<Connection?>, cs: seq<Connection?>, keep: seq<bool>)
    requires |marked| == |cs| == |keep|
    requires forall i | 0 <= i < |cs| :: marked[i] == (if keep[i] then cs[i] else null) && (keep[i] ==> cs[i] != null)
    ensures NonNull(marked) == Select(cs, keep)
  {
    if cs != [] {
      var n := |cs| - 1;
      NonNullIsSelect(marked[..n], cs[..n], keep[..n]);
    }
  }

  predicate Distinct(cs: seq<Connection?>) {
    forall i, j | 0 <= i < j < |cs| && cs[i] != null :: cs[i] != cs[j]
  }

  lemma DistinctAppend(cs: seq<Connection?>, c: Connection?)
    requires Distinct(cs) && (c != null ==> c !in cs)
    ensures Distinct(cs + [c])
  {
  }

  lemma {:induction false} SelectDistinct(cs: seq<Connection?>, keep: seq<bool>)
    requires |keep| == |cs| && Distinct(cs)
    ensures Distinct(Select(cs, keep))
  {
    if cs != [] {
      var n := |cs| - 1;
      SelectDistinct(cs[..n], keep[..n]);
      if keep[n] {
        DistinctAppend(Select(cs[..n], keep[..n]), cs[n]);
      }
    }
  }

  /** The list after a pass has handled its first `i` entries: those not kept were reset. */
  function Marked(cs: seq<Connection?>, keep: seq<bool>, i: nat): (m: seq<Connection?>)
    requires |keep| == |cs|
    ensures |m| == |cs|
  {
    seq(|cs|, j requires 0 <= j < |cs| => if j < i && !keep[j] then null else cs[j])
  }

  /** The entries a pass has reset so far, in order. */
  function Dropped(cs: seq<Connection?>, keep: seq<bool>, i: nat): seq<Connection?>
    requires |keep| == |cs| && i <= |cs|
  {
    Select(cs[..i], Flipped(keep)[..i])
  }

  function Kept(cs: seq<Connection?>, keep: seq<bool>, i: nat): seq<Connection?>
    requires |keep| == |cs| && i <= |cs|
  {
    Select(cs[..i], keep[..i])
  }

  lemma PassStarts(cs: seq<Connection?>, keep: seq<bool>)
    requires |keep| == |cs|
    ensures Marked(cs, keep, 0) == cs && Dropped(cs, keep, 0) == [] && Kept(cs, keep, 0) == []
  {
  }

  lemma PassStep(cs: seq<Connection?>, keep: seq<bool>, i: nat)
    requires |keep| == |cs| && i < |cs|
    ensures Marked(cs, keep, i)[i] == cs[i]
    ensures Marked(cs, keep, i + 1) == if keep[i] then Marked(cs, keep, i) else Marked(cs, keep, i)[i := null]
    ensures Dropped(cs, keep, i + 1) == Dropped(cs, keep, i) + if keep[i] then [] else [cs[i]]
    ensures Kept(cs, keep, i) == cs[..i] && keep[i] ==> Kept(cs, keep, i + 1) == cs[..i + 1]
  {
    SelectMore(cs, Flipped(keep), i);
    SelectMore(cs, keep, i);
    assert cs[..i + 1] == cs[..i] + [cs[i]];
  }

  /** The end of a pass; reset entries, if there were any, are then erased. */
  lemma PassEnds(cs: seq<Connection?>, keep: seq<bool>)
    requires |keep| == |cs| && Distinct(cs) && forall i | 0 <= i < |cs| :: keep[i] ==> cs[i] != null
    ensures NonNull(Marked(cs, keep, |cs|)) == Select(cs, keep) && Distinct(Select(cs, keep))
    ensures Kept(cs, keep, |cs|) == cs[..|cs|] ==> Marked(cs, keep, |cs|) == Select(cs, keep)
    ensures Dropped(cs, keep, |cs|) == Select(cs, Flipped(keep))
  {
    assert cs[..|cs|] == cs && Flipped(keep)[..|cs|] == Flipped(keep) && keep[..|cs|] == keep;
    SelectDistinct(cs, keep);
    NonNullIsSelect(Marked(cs, keep, |cs|), cs, keep);
    if Select(cs, keep) == cs { NothingReset(cs, keep); }
  }

  lemma NothingReset(cs: seq<Connection?>, keep: seq<bool>)
    requires |keep| == |cs| && Select(cs, keep) == cs
    ensures Marked(cs, keep, |cs|) == cs
  {
    AllKept(cs, keep);
  }

  lemma {:induction false} AllKept<T>(cs: seq<T>, keep: seq<bool>)
    requires |keep| == |cs| && |Select(cs, keep)| == |cs|
    ensures forall i | 0 <= i < |cs| :: keep[i]
  {
    if cs != [] {
      var n := |cs| - 1;
      SelectSplits(cs[..n], keep[..n]);
      AllKept(cs[..n], keep[..n]);
      assert forall i | 0 <= i < n :: keep[i] == keep[..n][i];
    }
  }

  /** The connections a pass has not come to yet. */
  ghost function Rest(cs: seq<Connection?>, i: nat): set<Connection>
    requires i <= |cs|
  {
    set c: Connection | c in cs[i..]
  }

  lemma RestStep(cs: seq<Connection?>, i: nat)
    requires i < |cs| && Distinct(cs)
    ensures cs[i] != null ==> cs[i] in Rest(cs, i)
    ensures Rest(cs, i + 1) == if cs[i] == null then Rest(cs, i) else Rest(cs, i) - {cs[i]}
  {
    assert cs[i..] == [cs[i]] + cs[i + 1..];
    assert cs[i] != null ==> cs[i] !in cs[i + 1..];
  }

  lemma RestShrinks(cs: seq<Connection?>, i: nat)
    requires i < |cs|
    ensures Rest(cs, i) <= Rest(cs, 0) && Target(cs[i]) <= Rest(cs, 0)
  {
    forall c | c in cs[i..] ensures c in cs {}
  }

  // ---- The incoming queue -----------------------------------------------------------------------

  predicate NoneCompressed(q: seq<OwnedMessage>, k: nat)
    requires k <= |q|
  {
    forall i | 0 <= i < k :: !Spec.IsCompressed(q[i].message.header)
  }

  /** How many of the first `limit` messages the server handles before a compressed one. */
  function Handled(q: seq<OwnedMessage>, limit: nat): (k: nat)
    ensures k <= |q| && k <= limit && NoneCompressed(q, k)
    ensures k < |q| && k < limit ==> Spec.IsCompressed(q[k].message.header)
    decreases limit
  {
    if q == [] || limit == 0 || Spec.IsCompressed(q[0].message.header) then 0
    else 1 + Handled(q[1..], limit - 1)
  }

  lemma {:induction false} HandledIs(q: seq<OwnedMessage>, limit: nat, k: nat)
    requires k <= |q| && k <= limit && NoneCompressed(q, k)
    requires k < |q| && k < limit ==> Spec.IsCompressed(q[k].message.header)
    ensures Handled(q, limit) == k
    decreases k
  {
    if k > 0 { HandledIs(q[1..], limit - 1, k - 1); }
  }

  lemma FrontOf<T>(q: seq<T>, i: nat)
    requires i < |q|
    ensures q[i..][0] == q[i] && q[i..][1..] == q[i + 1..] && q[..i + 1] == q[..i] + [q[i]]
  {
  }

  /** An Update gets through all it may take exactly when none of that is compressed. */
  lemma {:induction false} ThrowsIff(q: seq<OwnedMessage>, limit: nat)
    ensures Handled(q, limit) == Min(limit, |q|) <==> NoneCompressed(q, Min(limit, |q|))
  {
    var k := Handled(q, limit);
    if k < Min(limit, |q|) {
      assert Spec.IsCompressed(q[k].message.header);
    }
  }

  /** `Send_AllClients` leaves a connection in the list. */
  predicate Reachable(c: Connection?)
    reads Target(c)`isOpen, Target(c)`isConnecting
  {
    c != null && (c.Connected() || c.isConnecting)
  }

  /** `SendKeepAlive` leaves a connection in the list. */
  predicate Survives(c: Connection?, now: int)
    reads c
  {
    Reachable(c) && c.lastKeepAlive >= now - KeepAlive.MAX_DELAY
  }

  /** An entry is kept by `Send_AllClients` if its socket is open or it is still connecting, and by
      `SendKeepAlive` if also its stamp is not more than the allowed delay old. */
  lemma KeptEntries(c: Connection?, now: int)
    ensures Reachable(c) <==> c != null && (c.isOpen || c.isConnecting)
    ensures Survives(c, now) <==> Reachable(c) && now - c.lastKeepAlive <= KeepAlive.MAX_DELAY
  {
  }

  /** The check of the class is the check KeepAlive reasons about. */
  lemma SurvivesInKeepAlive(c: Connection, now: int)
    ensures Survives(c, now) <==> KeepAlive.Survives(c.State(), now)
  {
  }

  ghost function ReachableFlags(cs: seq<Connection?>): (keep: seq<bool>)
    reads cs
    ensures |keep| == |cs|
  {
    seq(|cs|, i requires 0 <= i < |cs| reads cs => Reachable(cs[i]))
  }

  ghost predicate AreReachableFlags(keep: seq<bool>, cs: seq<Connection?>)
    reads Rest(cs, 0)`isOpen, Rest(cs, 0)`isConnecting
  {
    |keep| == |cs| && forall i | 0 <= i < |cs| :: keep[i] == Reachable(cs[i])
  }

  ghost function SurvivorFlags(cs: seq<Connection?>, now: int): (keep: seq<bool>)
    reads cs
    ensures |keep| == |cs|
  {
    seq(|cs|, i requires 0 <= i < |cs| reads cs => Survives(cs[i], now))
  }

  lemma {:induction false} SelectHas<T>(cs: seq<T>, keep: seq<bool>, i: nat)
    requires |keep| == |cs| && i < |cs| && keep[i]
    ensures cs[i] in Select(cs, keep)
  {
    var n := |cs| - 1;
    if i < n { SelectHas(cs[..n], keep[..n], i); }
  }

  /** The entries a check keeps are those that survive it. */
  lemma KeptIff(cs: seq<Connection?>, now: int)
    ensures forall c: Connection | c in cs :: c in Select(cs, SurvivorFlags(cs, now)) <==> Survives(c, now)
  {
    var keep := SurvivorFlags(cs, now);
    forall c: Connection | c in cs ensures c in Select(cs, keep) <==> Survives(c, now) {
      var i :| 0 <= i < |cs| && cs[i] == c;
      if Survives(c, now) { SelectHas(cs, keep, i); }
      if c in Select(cs, keep) { SelectKept(cs, keep, c); }
    }
  }

  class PacketServer {
    const messageInQueue: ThreadSafeQueue<OwnedMessage>
    var connections: seq<Connection?>
    /** Calls of OnClientDisconnect and of OnMessage, in order. */
    var disconnected: seq<Connection?>
    var dispatched: seq<OwnedMessage>

    constructor ()
      ensures Valid() && connections == [] && disconnected == [] && dispatched == []
      ensures fresh(messageInQueue) && messageInQueue.data == []
    {
      messageInQueue := new ThreadSafeQueue<OwnedMessage>();
      connections, disconnected, dispatched := [], [], [];
    }

    /** Every connection is listed once and is a server's end. */
    predicate Valid()
      reads this
    {
      Distinct(connections) && forall c | c in connections && c != null :: c.direction.ToClient?
    }

    /** An accepted connection, unless OnClientConnect vetoes it. */
    method OnAccepted(now: int, approved: bool) returns (c: Connection)
      requires Valid()
      modifies this`connections
      ensures Valid() && fresh(c) && c.messagesIn == messageInQueue
      ensures connections == if approved then old(connections) + [c] else old(connections)
      ensures c.State() == if approved then Spec.ConnectToClient(Spec.Created(Spec.ToClient, true, now))
                           else Spec.Created(Spec.ToClient, true, now)
    {
      c := new Connection(Spec.ToClient, true, now, messageInQueue);
      if approved {
        connections := connections + [c];
        c.ConnectToClient();
      }
    }

    /** One turn of `Update`. A compressed message is taken off the queue and throws. */
    method HandleFront() returns (ok: bool)
      requires messageInQueue.data != []
      modifies this`dispatched, messageInQueue
      ensures messageInQueue.data == old(messageInQueue.data)[1..]
      ensures ok == !Spec.IsCompressed(old(messageInQueue.data)[0].message.header)
      ensures dispatched == old(dispatched) + if ok then [old(messageInQueue.data)[0]] else []
    {
      var msg := messageInQueue.PopFrontItem();
      ok := !Spec.IsCompressed(msg.message.header);
      if ok {
        dispatched := dispatched + [msg];
      }
    }

    /** Hands up to `maximumMessages` queued messages to the handler, in order, until one throws. */
    method Update(maximumMessages: nat) returns (r: Result<nat>)
      modifies this`dispatched, messageInQueue
      ensures var q, k := old(messageInQueue.data), Handled(old(messageInQueue.data), maximumMessages);
              && dispatched == old(dispatched) + q[..k]
              && (r.Ok? <==> NoneCompressed(q, Min(maximumMessages, |q|)))
              && (r.Ok? ==> r.value == k && messageInQueue.data == q[k..])
              && (r.Thrown? ==> messageInQueue.data == q[k + 1..])
    {
      ghost var q, before := messageInQueue.data, dispatched;
      var messageIndex := 0;
      var empty := messageInQueue.LooksEmpty();
      while !empty && messageIndex < maximumMessages
        invariant messageIndex <= |q| && messageIndex <= maximumMessages
        invariant messageInQueue.data == q[messageIndex..] && empty == (messageIndex == |q|)
        invariant dispatched == before + q[..messageIndex]
        invariant NoneCompressed(q, messageIndex)
        decreases |q| - messageIndex
      {
        FrontOf(q, messageIndex);
        var ok := HandleFront();
        if !ok {
          HandledIs(q, maximumMessages, messageIndex);
          ThrowsIff(q, maximumMessages);
          return Thrown;
        }
        messageIndex := messageIndex + 1;
        empty := messageInQueue.LooksEmpty();
      }
      HandledIs(q, maximumMessages, messageIndex);
      ThrowsIff(q, maximumMessages);
      r := Ok(messageIndex);
    }

    // ---- Sending to everybody -------------------------------------------------------------------

    /** Reports the entry to OnClientDisconnect and resets it. */
    method Drop(i: nat)
      requires i < |connections|
      modifies this`connections, this`disconnected
      ensures disconnected == old(disconnected) + [old(connections)[i]]
      ensures connections == old(connections)[i := null]
    {
      disconnected := disconnected + [connections[i]];
      connections := connections[i := null];
    }

    /** The end of a pass: erases the reset entries, if there were any. */
    method EraseReset(invalidClientExists: bool, ghost cs: seq<Connection?>, ghost keep: seq<bool>)
      requires |keep| == |cs| && Distinct(cs)
      requires forall i | 0 <= i < |cs| :: keep[i] ==> cs[i] != null && cs[i].direction.ToClient?
      requires connections == Marked(cs, keep, |cs|)
      requires !invalidClientExists ==> Kept(cs, keep, |cs|) == cs[..|cs|]
      modifies this`connections
      ensures Valid() && connections == Select(cs, keep)
      ensures Dropped(cs, keep, |cs|) == Select(cs, Flipped(keep))
    {
      PassEnds(cs, keep);
      if invalidClientExists {
        connections := NonNull(connections);
      }
      forall c | c in connections ensures c != null && c.direction.ToClient? {
        SelectKept(cs, keep, c);
      }
    }

    /** One entry of `Send_AllClients`: send, leave alone or drop; tells whether it was dropped. */
    method SendToOne(i: nat, c: Connection?, p: Spec.Packet, ignored: Connection?, beyond: Connection -> uint64)
      returns (dropped: bool)
      requires i < |connections| && connections[i] == c && (c != null ==> c.direction.ToClient?)
      requires |Spec.BodyOf(p)| <= UINT32_MAX
      modifies this`connections, this`disconnected, Target(c)`posts, Target(c)`lastKeepAliveValue, Target(c)`accepted
      ensures dropped == !Reachable(c)
      ensures connections == if dropped then old(connections)[i := null] else old(connections)
      ensures disconnected == old(disconnected) + if dropped then [c] else []
      ensures c != null ==> MailboxOf(c) == old(MailboxAfter(c, MailboxOf(c), p, ignored, beyond))
    {
      dropped := false;
      if c != null && c.Connected() {
        if c != ignored {
          var ok := c.Send(p, beyond(c));
        }
      } else if c != null && c.isConnecting {
      } else {
        Drop(i);
        dropped := true;
      }
    }

    /** The pass over the list has handled the first `i` entries. */
    ghost predicate Passed(i: nat, someDropped: bool, cs: seq<Connection?>, keep: seq<bool>, before: seq<Connection?>)
      requires |keep| == |cs| && i <= |cs|
      reads this`connections, this`disconnected
    {
      && connections == Marked(cs, keep, i)
      && disconnected == before + Dropped(cs, keep, i)
      && (!someDropped ==> Kept(cs, keep, i) == cs[..i])
    }

    /** The same call, seen by everybody who waits for this packet. */
    method SendToListed(i: nat, c: Connection?, p: Spec.Packet, ignored: Connection?, beyond: Connection -> uint64,
                        ghost todo: set<Connection>, ghost boxes: map<Connection, Mailbox>) returns (dropped: bool)
      requires i < |connections| && connections[i] == c && (c != null ==> c.direction.ToClient? && c in todo)
      requires |Spec.BodyOf(p)| <= UINT32_MAX
      requires todo <= boxes.Keys && Mailed(todo, boxes, p, ignored, beyond)
      modifies this`connections, this`disconnected, Target(c)`posts, Target(c)`lastKeepAliveValue, Target(c)`accepted
      ensures dropped == !Reachable(c)
      ensures connections == if dropped then old(connections)[i := null] else old(connections)
      ensures disconnected == old(disconnected) + if dropped then [c] else []
      ensures Mailed(todo - Target(c), boxes, p, ignored, beyond)
    {
      dropped := SendToOne(i, c, p, ignored, beyond);
    }

    /** The loop body of `Send_AllClients`. */
    method SendToNext(i: nat, p: Spec.Packet, ignored: Connection?, beyond: Connection -> uint64, someDropped: bool,
                      ghost cs: seq<Connection?>, ghost keep: seq<bool>, ghost dropped: seq<Connection?>,
                      ghost boxes: map<Connection, Mailbox>) returns (someDropped': bool)
      requires i < |cs| == |keep| && Distinct(cs) && (cs[i] != null ==> cs[i].direction.ToClient?)
      requires |Spec.BodyOf(p)| <= UINT32_MAX
      requires keep[i] == Reachable(cs[i]) && Rest(cs, i) <= boxes.Keys
      requires Passed(i, someDropped, cs, keep, dropped) && Mailed(Rest(cs, i), boxes, p, ignored, beyond)
      modifies this`connections, this`disconnected
      modifies Target(cs[i])`posts, Target(cs[i])`lastKeepAliveValue, Target(cs[i])`accepted
      ensures Passed(i + 1, someDropped', cs, keep, dropped) && Mailed(Rest(cs, i + 1), boxes, p, ignored, beyond)
    {
      PassStep(cs, keep, i);
      RestStep(cs, i);
      var wasDropped := SendToListed(i, connections[i], p, ignored, beyond, Rest(cs, i), boxes);
      assert Rest(cs, i + 1) == Rest(cs, i) - Target(cs[i]);
      someDropped' := someDropped || wasDropped;
    }

    /** Sends to every connected client but one; entries that are neither connected nor connecting
        are reported, in order, and removed. */
    method SendAllClients(p: Spec.Packet, ignored: Connection?, beyond: Connection -> uint64)
      requires Valid() && |Spec.BodyOf(p)| <= UINT32_MAX
      modifies this`connections, this`disconnected
      modifies Rest(connections, 0)`posts, Rest(connections, 0)`lastKeepAliveValue, Rest(connections, 0)`accepted
      ensures Valid()
      ensures connections == Select(old(connections), old(ReachableFlags(connections)))
      ensures disconnected == old(disconnected) + Select(old(connections), Flipped(old(ReachableFlags(connections))))
      ensures AllSent(old(States(connections)), p, ignored, beyond)
    {
      ghost var states, boxes, others := States(connections), Mailboxes(connections), AllOthers(connections);
      StatesAreParts(connections);
      SendAndErase(p, ignored, beyond);
      StatesFollow(states, others, boxes, p, ignored, beyond);
    }

    method SendAndErase(p: Spec.Packet, ignored: Connection?, beyond: Connection -> uint64)
      requires Valid() && |Spec.BodyOf(p)| <= UINT32_MAX
      modifies this`connections, this`disconnected
      modifies Rest(connections, 0)`posts, Rest(connections, 0)`lastKeepAliveValue, Rest(connections, 0)`accepted
      ensures Valid()
      ensures connections == Select(old(connections), old(ReachableFlags(connections)))
      ensures disconnected == old(disconnected) + Select(old(connections), Flipped(old(ReachableFlags(connections))))
      ensures Mailed({}, old(Mailboxes(connections)), p, ignored, beyond)
    {
      ghost var cs, keep, boxes := connections, ReachableFlags(connections), Mailboxes(connections);
      PassStarts(cs, keep);
      var invalidClientExists := SendToEach(p, ignored, beyond, cs, keep, disconnected, boxes);
      EraseReset(invalidClientExists, cs, keep);
    }

    /** The loop of `Send_AllClients`; tells whether an entry was reset. */
    method SendToEach(p: Spec.Packet, ignored: Connection?, beyond: Connection -> uint64,
                      ghost cs: seq<Connection?>, ghost keep: seq<bool>,
                      ghost dropped: seq<Connection?>, ghost boxes: map<Connection, Mailbox>)
      returns (invalidClientExists: bool)
      requires Valid() && |Spec.BodyOf(p)| <= UINT32_MAX
      requires cs == connections && AreReachableFlags(keep, cs) && Rest(cs, 0) <= boxes.Keys
      requires Passed(0, false, cs, keep, dropped) && Mailed(Rest(cs, 0), boxes, p, ignored, beyond)
      modifies this`connections, this`disconnected
      modifies Rest(cs, 0)`posts, Rest(cs, 0)`lastKeepAliveValue, Rest(cs, 0)`accepted
      ensures Passed(|cs|, invalidClientExists, cs, keep, dropped) && Mailed({}, boxes, p, ignored, beyond)
    {
      invalidClientExists := false;
      for i := 0 to |connections|
        invariant Passed(i, invalidClientExists, cs, keep, dropped)
        invariant Mailed(Rest(cs, i), boxes, p, ignored, beyond)
        invariant AreReachableFlags(keep, cs)
      {
        RestShrinks(cs, i);
        invalidClientExists := SendToNext(i, p, ignored, beyond, invalidClientExists, cs, keep, dropped, boxes);
      }
    }

    /** The first half of `SendKeepAlive`: drops every entry that is closed or whose last pong is too
        old. It touches no connection. */
    method DropStale(now: int)
      requires Valid()
      modifies this`connections, this`disconnected
      ensures Valid()
      ensures connections == Select(old(connections), old(SurvivorFlags(connections, now)))
      ensures disconnected
              == old(disconnected) + Select(old(connections), Flipped(old(SurvivorFlags(connections, now))))
    {
      ghost var cs, keep := connections, SurvivorFlags(connections, now);
      var oldestKeepAlive := now - KeepAlive.MAX_DELAY;
      var invalidClientExists := false;
      PassStarts(cs, keep);
      for i := 0 to |connections|
        invariant connections == Marked(cs, keep, i) && disconnected == old(disconnected) + Dropped(cs, keep, i)
        invariant !invalidClientExists ==> Kept(cs, keep, i) == cs[..i]
      {
        PassStep(cs, keep, i);
        var connection := connections[i];
        assert keep[i] == Survives(connection, now);
        if connection == null || (!connection.Connected() && !connection.isConnecting)
           || connection.lastKeepAlive < oldestKeepAlive {
          Drop(i);
          invalidClientExists := true;
        }
      }
      EraseReset(invalidClientExists, cs, keep);
    }

    /** Drops every entry that is closed or stale, then pings the rest: the second pass drops nobody,
        each connected survivor gets one ping with the same payload and nobody else gets anything. */
    method SendKeepAlive(now: int, payload: uint64)
      requires Valid()
      modifies this`connections, this`disconnected
      modifies Rest(connections, 0)`posts, Rest(connections, 0)`lastKeepAliveValue, Rest(connections, 0)`accepted
      ensures Valid()
      ensures connections == Select(old(connections), old(SurvivorFlags(connections, now)))
      ensures disconnected
              == old(disconnected) + Select(old(connections), Flipped(old(SurvivorFlags(connections, now))))
      ensures forall c: Connection | c in connections :: c.State() == Pinged(old(c.State()), payload)
      ensures forall c: Connection | c in old(connections) && c !in connections :: c.State() == old(c.State())
    {
      DropStale(now);
      PingAll(payload, old(connections), old(SurvivorFlags(connections, now)));
    }

    /** The second half: everybody left is reachable, so nobody is dropped. */
    method PingAll(payload: uint64, ghost cs: seq<Connection?>, ghost keep: seq<bool>)
      requires Valid() && |keep| == |cs| && connections == Select(cs, keep)
      requires forall i | 0 <= i < |cs| && keep[i] :: Reachable(cs[i])
      modifies this`connections, this`disconnected
      modifies Rest(connections, 0)`posts, Rest(connections, 0)`lastKeepAliveValue, Rest(connections, 0)`accepted
      ensures Valid() && connections == old(connections) && disconnected == old(disconnected)
      ensures forall c: Connection | c in connections :: c.State() == Pinged(old(c.State()), payload)
    {
      forall i | 0 <= i < |connections| ensures Reachable(connections[i]) {
        SelectKept(cs, keep, connections[i]);
      }
      SelectAll(connections, ReachableFlags(connections));
      ghost var states := States(connections);
      SendAllClients(Spec.PingPacket(payload), null, _ => 0);
      forall c: Connection | c in connections ensures c.State() == Pinged(states[c], payload) {
        assert c in states.Keys;
      }
    }
  }

  /** A connection after one ping, if it is connected. */
  ghost function Pinged(c: Spec.Conn, payload: uint64): Spec.Conn {
    if Spec.IsConnected(c) then Spec.Send(c, Spec.PingPacket(payload)) else c
  }

  ghost function Target(c: Connection?): set<Connection> {
    if c == null then {} else {c}
  }

  /** A connection after `Send_AllClients`; `beyond` is what comes of reading past a short body. */
  ghost function SentTo(c: Spec.Conn, isIgnored: bool, p: Spec.Packet, beyond: uint64): Spec.Conn {
    if Spec.IsConnected(c) && !isIgnored then Spec.SendAny(c, p, beyond) else c
  }

  /** A send to all reaches exactly the connected entries but the ignored one, each once; `SendKeepAlive`
      sends each connected entry one ping, whose payload is expected back. */
  lemma SentOnce(c: Spec.Conn, isIgnored: bool, p: Spec.Packet, beyond: uint64, payload: uint64)
    ensures var d := SentTo(c, isIgnored, p, beyond);
            if c.isOpen && !c.isConnecting && !isIgnored then
              && d.w.accepted == c.w.accepted + [Packed(Spec.IdOf(p), Spec.BodyOf(p))]
              && d.w.posts == c.w.posts + [Spec.PostSend(Packed(Spec.IdOf(p), Spec.BodyOf(p)))]
            else d == c
    ensures var d := Pinged(c, payload);
            if c.isOpen && !c.isConnecting then
              && d.w.accepted == c.w.accepted + [Packed(KEEP_ALIVE_ID, EncPing(payload))]
              && (c.direction.ToClient? ==> d.lastKeepAliveValue == payload)
            else d == c
  {
    KeepAlive.PingIsPacked(payload);
  }

  /** Every connection of a list is what `Send_AllClients` makes of it. */
  ghost predicate AllSent(before: map<Connection, Spec.Conn>, p: Spec.Packet, ignored: Connection?,
                          beyond: Connection -> uint64)
    reads before.Keys, set c | c in before.Keys :: c.messagesOut
  {
    forall c | c in before.Keys :: c.State() == SentTo(before[c], c == ignored, p, beyond(c))
  }

  ghost function States(cs: seq<Connection?>): map<Connection, Spec.Conn>
    reads cs, Outgoing(cs)
  {
    map c: Connection | c in cs :: c.State()
  }

  /** Where a send to a connection shows: its pending posts, the pong it expects and what it accepted. */
  datatype Mailbox = Mailbox(posts: seq<Spec.Post>, expected: uint64, accepted: seq<SendInfo>)

  ghost function MailboxOf(c: Connection): Mailbox
    reads c`posts, c`lastKeepAliveValue, c`accepted
  {
    Mailbox(c.posts, c.lastKeepAliveValue, c.accepted)
  }

  /** The same after `Send_AllClients`. */
  ghost function MailboxAfter(c: Connection, m: Mailbox, p: Spec.Packet, ignored: Connection?,
                              beyond: Connection -> uint64): Mailbox
    reads c`isOpen, c`isConnecting
  {
    var info := Packed(Spec.IdOf(p), Spec.BodyOf(p));
    if c.Connected() && c != ignored then
      Mailbox(m.posts + [Spec.PostSend(info)],
              if Spec.SendReadsInside(c.direction, p) then Spec.Remembered(c.direction, m.expected, p) else beyond(c),
              m.accepted + [info])
    else
      m
  }

  /** Everything else about a connection. */
  ghost function Others(c: Connection): Spec.Conn
    reads c`isOpen, c`isConnecting, c`crashed, c`initPacket, c`lastKeepAlive, c`lastReceived, c`lastSent, c`pongAt
    reads c`write, c`sentCount, c`finished, c`emitted, c`writesStarted, c`writesEnded, c.messagesOut
    reads c`wip, c`read, c`delivered, c`receivedCount, c`received, c`consumed, c`readsStarted, c`readsEnded
  {
    Spec.Conn(c.direction, c.isOpen, c.isConnecting, c.crashed, c.initPacket, 0, c.lastKeepAlive, c.lastReceived,
              c.lastSent, c.pongAt,
              Spec.Writer([], c.messagesOut.data, c.write, c.sentCount, [], c.finished, c.emitted,
                          c.writesStarted, c.writesEnded),
              c.ReceivingHalf())
  }

  ghost function WithMailbox(c: Spec.Conn, m: Mailbox): Spec.Conn {
    c.(lastKeepAliveValue := m.expected, w := c.w.(posts := m.posts, accepted := m.accepted))
  }

  lemma StateIsParts(c: Connection)
    ensures c.State() == WithMailbox(Others(c), MailboxOf(c))
  {
  }

  ghost predicate PartsOf(states: map<Connection, Spec.Conn>, others: map<Connection, Spec.Conn>,
                          boxes: map<Connection, Mailbox>)
  {
    && states.Keys == others.Keys == boxes.Keys
    && forall c | c in states.Keys :: states[c] == WithMailbox(others[c], boxes[c])
  }

  lemma StatesAreParts(cs: seq<Connection?>)
    ensures PartsOf(States(cs), AllOthers(cs), Mailboxes(cs)) && OthersAre(AllOthers(cs))
  {
    forall c: Connection | c in cs ensures c.State() == WithMailbox(Others(c), MailboxOf(c)) {
      StateIsParts(c);
    }
  }

  lemma SentToParts(c: Connection, o: Spec.Conn, m: Mailbox, p: Spec.Packet, ignored: Connection?,
                    beyond: Connection -> uint64)
    requires o == Others(c)
    ensures SentTo(WithMailbox(o, m), c == ignored, p, beyond(c))
            == WithMailbox(o, MailboxAfter(c, m, p, ignored, beyond))
  {
  }

  lemma StatesFollow(states: map<Connection, Spec.Conn>, others: map<Connection, Spec.Conn>,
                     boxes: map<Connection, Mailbox>,
                     p: Spec.Packet, ignored: Connection?, beyond: Connection -> uint64)
    requires PartsOf(states, others, boxes) && Mailed({}, boxes, p, ignored, beyond) && OthersAre(others)
    ensures AllSent(states, p, ignored, beyond)
  {
    forall c | c in states.Keys ensures c.State() == SentTo(states[c], c == ignored, p, beyond(c)) {
      StateIsParts(c);
      SentToParts(c, others[c], boxes[c], p, ignored, beyond);
    }
  }

  /** What hangs on the outgoing queues of some connections. */
  ghost function Outgoing(cs: seq<Connection?>): set<object> {
    set c: Connection | c in cs :: c.messagesOut
  }

  ghost predicate OthersAre(others: map<Connection, Spec.Conn>)
    reads others.Keys`isOpen, others.Keys`isConnecting, others.Keys`crashed, others.Keys`initPacket
    reads others.Keys`lastKeepAlive, others.Keys`lastReceived, others.Keys`lastSent, others.Keys`pongAt
    reads others.Keys`write, others.Keys`sentCount, others.Keys`finished, others.Keys`emitted
    reads others.Keys`writesStarted, others.Keys`writesEnded, set c | c in others.Keys :: c.messagesOut
    reads others.Keys`wip, others.Keys`read, others.Keys`delivered, others.Keys`receivedCount
    reads others.Keys`received, others.Keys`consumed, others.Keys`readsStarted, others.Keys`readsEnded
  {
    forall c | c in others.Keys :: Others(c) == others[c]
  }

  ghost function AllOthers(cs: seq<Connection?>): map<Connection, Spec.Conn>
    reads cs, Outgoing(cs)
  {
    map c: Connection | c in cs :: Others(c)
  }

  ghost function Mailboxes(cs: seq<Connection?>): map<Connection, Mailbox>
    reads cs
  {
    map c: Connection | c in cs :: MailboxOf(c)
  }

  /** Everybody but `todo` has had what `Send_AllClients` sends, once. */
  ghost predicate Mailed(todo: set<Connection>, before: map<Connection, Mailbox>,
                         p: Spec.Packet, ignored: Connection?, beyond: Connection -> uint64)
    reads before.Keys
  {
    forall c | c in before.Keys ::
      MailboxOf(c) == if c in todo then before[c] else MailboxAfter(c, before[c], p, ignored, beyond)
  }
}
