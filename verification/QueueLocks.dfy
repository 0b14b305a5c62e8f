// ThreadSafeQueue at lock granularity: any number of threads, two mutexes and a condition variable.

module QueueLocks {
  import opened Bytes

  datatype Op<T> =
    | PushFront(x: T)
    | PushBack(x: T)
    | PopFront
    | PopBack
    | PeekFront
    | PeekBack
    | IsEmpty
    | Size
    | Clear
    | Wait

  datatype Reply<T> = Done | Item(x: T) | Answer(empty: bool) | Count(n: nat)

  /** Where a thread is inside a queue operation. */
  datatype Pc<T> =
    | Idle
    | WantQueue(op: Op<T>)         // about to lock the queue mutex
    | HasQueue(op: Op<T>)          // holds it; the operation is still to do
    | Copied(op: Op<T>, x: T)      // a pop that copied the item and has not removed it yet
    | WantPushed                   // a push that holds the queue mutex and wants the pushed mutex
    | HasPushed                    // holds both and is about to notify
    | Notified                     // holds both and is about to release the pushed mutex
    | Leaving(again: bool)         // about to release the queue mutex; `wait` may go on to sleep
    | WaitWantPushed               // `wait` found the queue empty
    | WaitHasPushed                // about to sleep, which releases the pushed mutex
    | Asleep
    | Woken                        // must take the pushed mutex again
    | WaitDone                     // holds it, about to release it and look again

  /** One completed operation, in the order in which the queue mutex was held. */
  datatype Entry<T> = Entry(thread: nat, op: Op<T>, reply: Reply<T>)

  datatype System<T> = System(
    pcs: map<nat, Pc<T>>,
    last: map<nat, Reply<T>>,
    queueBy: Option<nat>,
    pushedBy: Option<nat>,
    data: seq<T>,
    log: seq<Entry<T>>,
    broken: bool)

  function PcOf<T>(s: System<T>, t: nat): Pc<T> {
    if t in s.pcs then s.pcs[t] else Idle
  }

  /** What the scheduler and the caller decide: which operation to begin, whom a notification wakes,
      a spurious wake-up, or just to go on. */
  datatype Choice<T> = Begin(op: Op<T>) | Go | GoAndWake(sleeper: nat) | WakeUp

  function Empty<T>(): System<T> {
    System(map[], map[], None, None, [], [], false)
  }

  // ---- The queue as a sequential object ---------------------------------------------------------

  predicate Defined<T>(data: seq<T>, op: Op<T>) {
    op.PopFront? || op.PopBack? || op.PeekFront? || op.PeekBack? ==> data != []
  }

  function Sequential<T>(data: seq<T>, op: Op<T>): (seq<T>, Reply<T>)
    requires Defined(data, op)
  {
    match op
    case PushFront(x) => ([x] + data, Done)
    case PushBack(x) => (data + [x], Done)
    case PopFront => (data[1..], Item(data[0]))
    case PopBack => (data[..|data| - 1], Item(data[|data| - 1]))
    case PeekFront => (data, Item(data[0]))
    case PeekBack => (data, Item(data[|data| - 1]))
    case IsEmpty => (data, Answer(data == []))
    case Size => (data, Count(|data|))
    case Clear => ([], Done)
    case Wait => (data, Answer(data == []))
  }

  /** Running the log one operation after the other from an empty queue; None when a recorded reply
      is not the one a sequential queue gives. */
  function Replay<T(==)>(log: seq<Entry<T>>): Option<seq<T>> {
    if log == [] then Some([])
    else
      match Replay(log[..|log| - 1])
      case None => None
      case Some(data) => ReplayOne(data, log[|log| - 1])
  }

  function ReplayOne<T(==)>(data: seq<T>, e: Entry<T>): Option<seq<T>> {
    if Defined(data, e.op) && Sequential(data, e.op).1 == e.reply then Some(Sequential(data, e.op).0) else None
  }

  /** What a deque is: each end gives back what was put there last and then the rest, and what was put at
      the other end does not matter; looking changes nothing. */
  lemma DequeLaws<T>(data: seq<T>, x: T)
    ensures Sequential(Sequential(data, PushFront(x)).0, PopFront) == (data, Item(x))
    ensures Sequential(Sequential(data, PushBack(x)).0, PopBack) == (data, Item(x))
    ensures data != [] ==>
              && Sequential(Sequential(data, PushBack(x)).0, PopFront)
                 == (Sequential(Sequential(data, PopFront).0, PushBack(x)).0, Sequential(data, PopFront).1)
              && Sequential(Sequential(data, PushFront(x)).0, PopBack)
                 == (Sequential(Sequential(data, PopBack).0, PushFront(x)).0, Sequential(data, PopBack).1)
              && Sequential(data, PeekFront) == (data, Sequential(data, PopFront).1)
              && Sequential(data, PeekBack) == (data, Sequential(data, PopBack).1)
    ensures Sequential(data, IsEmpty) == (data, Answer(data == [])) == Sequential(data, Wait)
    ensures Sequential(data, Size).0 == data && Sequential(Sequential(data, Clear).0, Size).1 == Count(0)
    ensures Sequential(Sequential(data, PushBack(x)).0, Size).1 == Count(Sequential(data, Size).1.n + 1)
  {
    if data != [] {
      assert (data + [x])[1..] == data[1..] + [x];
      assert ([x] + data)[..|data|] == [x] + data[..|data| - 1];
    }
  }

  // ---- Steps ------------------------------------------------------------------------------------

  function At<T>(s: System<T>, t: nat, pc: Pc<T>): System<T> {
    s.(pcs := s.pcs[t := pc])
  }

  function Finish<T>(s: System<T>, t: nat, op: Op<T>, data: seq<T>, reply: Reply<T>, pc: Pc<T>): System<T> {
    s.(pcs := s.pcs[t := pc], last := s.last[t := reply], data := data, log := s.log + [Entry(t, op, reply)])
  }

  function Break<T>(s: System<T>): System<T> {
    s.(broken := true)
  }

  /** The body of an operation under the queue mutex; the end of an empty deque is undefined. */
  function Body<T>(s: System<T>, t: nat, op: Op<T>): System<T> {
    match op
    case PushFront(x) => Finish(s, t, op, [x] + s.data, Done, WantPushed)
    case PushBack(x) => Finish(s, t, op, s.data + [x], Done, WantPushed)
    case PopFront => if s.data == [] then Break(s) else At(s, t, Copied(op, s.data[0]))
    case PopBack => if s.data == [] then Break(s) else At(s, t, Copied(op, s.data[|s.data| - 1]))
    case PeekFront => if s.data == [] then Break(s) else Finish(s, t, op, s.data, Item(s.data[0]), Leaving(false))
    case PeekBack =>
      if s.data == [] then Break(s) else Finish(s, t, op, s.data, Item(s.data[|s.data| - 1]), Leaving(false))
    case IsEmpty => Finish(s, t, op, s.data, Answer(s.data == []), Leaving(false))
    case Size => Finish(s, t, op, s.data, Count(|s.data|), Leaving(false))
    case Clear => Finish(s, t, op, [], Done, Leaving(false))
    case Wait => Finish(s, t, op, s.data, Answer(s.data == []), Leaving(s.data == []))
  }

  /** The second half of a pop: the copied item is returned and the end of the deque removed. */
  function Remove<T>(s: System<T>, t: nat, op: Op<T>, x: T): System<T> {
    if s.data == [] then Break(s)
    else Finish(s, t, op, if op.PopFront? then s.data[1..] else s.data[..|s.data| - 1], Item(x), Leaving(false))
  }

  function TakePushed<T>(s: System<T>, t: nat, pc: Pc<T>): System<T> {
    if s.pushedBy.None? then At(s, t, pc).(pushedBy := Some(t)) else s
  }

  /** One step of thread `t`; a blocked or finished thread changes nothing. */
  function Next<T>(s: System<T>, t: nat, choice: Choice<T>): System<T> {
    if s.broken then s
    else
      match PcOf(s, t)
      case Idle => if choice.Begin? then At(s, t, WantQueue(choice.op)) else s
      case WantQueue(op) => if s.queueBy.None? then At(s, t, HasQueue(op)).(queueBy := Some(t)) else s
      case HasQueue(op) => Body(s, t, op)
      case Copied(op, x) => Remove(s, t, op, x)
      case WantPushed => TakePushed(s, t, HasPushed)
      case HasPushed =>
        At(if choice.GoAndWake? && PcOf(s, choice.sleeper).Asleep? then At(s, choice.sleeper, Woken) else s,
           t, Notified)
      case Notified => At(s, t, Leaving(false)).(pushedBy := None)
      case Leaving(again) => At(s, t, if again then WaitWantPushed else Idle).(queueBy := None)
      case WaitWantPushed => TakePushed(s, t, WaitHasPushed)
      case WaitHasPushed => At(s, t, Asleep).(pushedBy := None)
      case Asleep => if choice.WakeUp? then At(s, t, Woken) else s
      case Woken => TakePushed(s, t, WaitDone)
      case WaitDone => At(s, t, WantQueue(Wait)).(pushedBy := None)
  }

  datatype Tick<T> = Tick(thread: nat, choice: Choice<T>)

  function Run<T>(ticks: seq<Tick<T>>): System<T> {
    if ticks == [] then Empty()
    else
      var k := ticks[|ticks| - 1];
      Next(Run(ticks[..|ticks| - 1]), k.thread, k.choice)
  }

  // ---- Mutual exclusion -------------------------------------------------------------------------

  predicate HoldsQueue<T>(pc: Pc<T>) {
    pc.HasQueue? || pc.Copied? || pc.WantPushed? || pc.HasPushed? || pc.Notified? || pc.Leaving?
  }

  predicate HoldsPushed<T>(pc: Pc<T>) {
    pc.HasPushed? || pc.Notified? || pc.WaitHasPushed? || pc.WaitDone?
  }

  /** The copied item is still at the end the pop will remove. */
  predicate CopyCurrent<T(==)>(data: seq<T>, pc: Pc<T>) {
    pc.Copied? ==>
      && (pc.op.PopFront? || pc.op.PopBack?) && data != []
      && pc.x == if pc.op.PopFront? then data[0] else data[|data| - 1]
  }

  ghost predicate LockSound<T(!new)>(s: System<T>) {
    forall t: nat ::
      && (HoldsQueue(PcOf(s, t)) <==> s.queueBy == Some(t))
      && (HoldsPushed(PcOf(s, t)) <==> s.pushedBy == Some(t))
      && CopyCurrent(s.data, PcOf(s, t))
  }

  /** A mutex stays with its owner, or `t` takes it free or gives it up. */
  predicate Passes(owner: Option<nat>, after: Option<nat>, t: nat) {
    after == owner || ((owner.None? || owner == Some(t)) && (after.None? || after == Some(t)))
  }

  lemma MoveKeepsLocks<T(!new)>(s: System<T>, n: System<T>, t: nat, pc: Pc<T>)
    requires LockSound(s) && n.pcs == s.pcs[t := pc]
    requires Passes(s.queueBy, n.queueBy, t) && (HoldsQueue(pc) <==> n.queueBy == Some(t))
    requires Passes(s.pushedBy, n.pushedBy, t) && (HoldsPushed(pc) <==> n.pushedBy == Some(t))
    requires n.data == s.data || s.queueBy == Some(t)
    requires CopyCurrent(n.data, pc)
    ensures LockSound(n)
  {
    forall u: nat
      ensures HoldsQueue(PcOf(n, u)) <==> n.queueBy == Some(u)
      ensures HoldsPushed(PcOf(n, u)) <==> n.pushedBy == Some(u)
      ensures CopyCurrent(n.data, PcOf(n, u))
    {
      assert HoldsQueue(PcOf(s, u)) <==> s.queueBy == Some(u);
      assert PcOf(n, u) == if u == t then pc else PcOf(s, u);
    }
  }

  lemma NotifyKeepsLocks<T(!new)>(s: System<T>, t: nat, choice: Choice<T>)
    requires LockSound(s) && PcOf(s, t).HasPushed? && !s.broken
    ensures LockSound(Next(s, t, choice))
  {
    var n := Next(s, t, choice);
    assert HoldsQueue(PcOf(s, t)) && HoldsPushed(PcOf(s, t));
    if choice.GoAndWake? && PcOf(s, choice.sleeper).Asleep? {
      assert !HoldsQueue(PcOf(s, choice.sleeper)) && !HoldsPushed(PcOf(s, choice.sleeper));
      var m := At(s, choice.sleeper, Woken);
      MoveKeepsLocks(s, m, choice.sleeper, Woken);
      MoveKeepsLocks(m, n, t, Notified);
    } else {
      MoveKeepsLocks(s, n, t, Notified);
    }
  }

  lemma FinishKeepsLocks<T(!new)>(s: System<T>, t: nat, op: Op<T>, data: seq<T>, reply: Reply<T>, pc: Pc<T>)
    requires LockSound(s) && s.queueBy == Some(t) && s.pushedBy != Some(t) && (pc.WantPushed? || pc.Leaving?)
    ensures LockSound(Finish(s, t, op, data, reply, pc))
  {
    MoveKeepsLocks(s, Finish(s, t, op, data, reply, pc), t, pc);
  }

  lemma BodyKeepsLocks<T(!new)>(s: System<T>, t: nat, op: Op<T>)
    requires LockSound(s) && s.queueBy == Some(t) && s.pushedBy != Some(t)
    ensures LockSound(Body(s, t, op))
  {
    var d := s.data;
    match op
    case PushFront(x) => FinishKeepsLocks(s, t, op, [x] + d, Done, WantPushed);
    case PushBack(x) => FinishKeepsLocks(s, t, op, d + [x], Done, WantPushed);
    case PopFront => if d != [] { MoveKeepsLocks(s, Body(s, t, op), t, Copied(op, d[0])); }
    case PopBack => if d != [] { MoveKeepsLocks(s, Body(s, t, op), t, Copied(op, d[|d| - 1])); }
    case PeekFront => if d != [] { FinishKeepsLocks(s, t, op, d, Item(d[0]), Leaving(false)); }
    case PeekBack => if d != [] { FinishKeepsLocks(s, t, op, d, Item(d[|d| - 1]), Leaving(false)); }
    case IsEmpty => FinishKeepsLocks(s, t, op, d, Answer(d == []), Leaving(false));
    case Size => FinishKeepsLocks(s, t, op, d, Count(|d|), Leaving(false));
    case Clear => FinishKeepsLocks(s, t, op, [], Done, Leaving(false));
    case Wait => FinishKeepsLocks(s, t, op, d, Answer(d == []), Leaving(d == []));
  }

  lemma NextKeepsLocks<T(!new)>(s: System<T>, t: nat, choice: Choice<T>)
    requires LockSound(s)
    ensures LockSound(Next(s, t, choice))
  {
    var n, pc := Next(s, t, choice), PcOf(s, t);
    assert (HoldsQueue(pc) <==> s.queueBy == Some(t)) && (HoldsPushed(pc) <==> s.pushedBy == Some(t));
    if n != s {
      match pc
      case Idle => MoveKeepsLocks(s, n, t, WantQueue(choice.op));
      case WantQueue(op) => MoveKeepsLocks(s, n, t, HasQueue(op));
      case HasQueue(op) => BodyKeepsLocks(s, t, op);
      case Copied(op, x) =>
        if s.data != [] {
          FinishKeepsLocks(s, t, op, n.data, Item(x), Leaving(false));
        }
      case WantPushed => MoveKeepsLocks(s, n, t, HasPushed);
      case HasPushed => NotifyKeepsLocks(s, t, choice);
      case Notified => MoveKeepsLocks(s, n, t, Leaving(false));
      case Leaving(again) => MoveKeepsLocks(s, n, t, if again then WaitWantPushed else Idle);
      case WaitWantPushed => MoveKeepsLocks(s, n, t, WaitHasPushed);
      case WaitHasPushed => MoveKeepsLocks(s, n, t, Asleep);
      case Asleep => MoveKeepsLocks(s, n, t, Woken);
      case Woken => MoveKeepsLocks(s, n, t, WaitDone);
      case WaitDone => MoveKeepsLocks(s, n, t, WantQueue(Wait));
    }
  }

  // ---- No deadlock ------------------------------------------------------------------------------

  /** Waiting for a mutex another thread holds. */
  predicate Blocked<T>(s: System<T>, t: nat) {
    match PcOf(s, t)
    case WantQueue(_) => s.queueBy.Some?
    case WantPushed => s.pushedBy.Some?
    case WaitWantPushed => s.pushedBy.Some?
    case Woken => s.pushedBy.Some?
    case _ => false
  }

  /** Inside an operation, neither asleep nor blocked: a step of its own will change the state. */
  predicate CanStep<T>(s: System<T>, t: nat) {
    !PcOf(s, t).Idle? && !PcOf(s, t).Asleep? && !Blocked(s, t)
  }

  lemma CanStepMoves<T(!new)>(s: System<T>, t: nat)
    requires LockSound(s) && CanStep(s, t) && !s.broken
    ensures Next(s, t, Go) != s
  {
    assert HoldsPushed(PcOf(s, t)) <==> s.pushedBy == Some(t);
    assert PcOf(Next(s, t, Go), t) != PcOf(s, t) || Next(s, t, Go).broken;
  }

  /** Whoever holds what a blocked thread waits for, or what that holder itself waits for. */
  function Unblocker<T>(s: System<T>, t: nat): nat
    requires Blocked(s, t)
  {
    if PcOf(s, t).WantQueue? then
      if Blocked(s, s.queueBy.value) && s.pushedBy.Some? then s.pushedBy.value else s.queueBy.value
    else s.pushedBy.value
  }

  lemma BlockedHasUnblocker<T(!new)>(s: System<T>, t: nat)
    requires LockSound(s) && Blocked(s, t)
    ensures CanStep(s, Unblocker(s, t))
  {
    if s.queueBy.Some? { assert HoldsQueue(PcOf(s, s.queueBy.value)); }
    if s.pushedBy.Some? { assert HoldsPushed(PcOf(s, s.pushedBy.value)); }
  }

  // ---- Atomicity --------------------------------------------------------------------------------

  lemma ReplayOneMore<T>(log: seq<Entry<T>>, data: seq<T>, e: Entry<T>)
    requires Replay(log) == Some(data)
    ensures Replay(log + [e]) == ReplayOne(data, e)
  {
    assert (log + [e])[..|log|] == log;
  }

  lemma BodyReplays<T>(s: System<T>, t: nat, op: Op<T>)
    requires Replay(s.log) == Some(s.data)
    ensures Replay(Body(s, t, op).log) == Some(Body(s, t, op).data)
  {
    var n := Body(s, t, op);
    if !(op.PopFront? || op.PopBack?) && Defined(s.data, op) {
      ReplayOneMore(s.log, s.data, Entry(t, op, Sequential(s.data, op).1));
    }
  }

  lemma RemoveReplays<T>(s: System<T>, t: nat, op: Op<T>, x: T)
    requires Replay(s.log) == Some(s.data) && CopyCurrent(s.data, Copied(op, x))
    ensures Replay(Remove(s, t, op, x).log) == Some(Remove(s, t, op, x).data)
  {
    ReplayOneMore(s.log, s.data, Entry(t, op, Item(x)));
  }

  lemma NextReplays<T(!new)>(s: System<T>, t: nat, choice: Choice<T>)
    requires LockSound(s) && Replay(s.log) == Some(s.data)
    ensures Replay(Next(s, t, choice).log) == Some(Next(s, t, choice).data)
  {
    var pc := PcOf(s, t);
    if pc.HasQueue? {
      BodyReplays(s, t, pc.op);
    } else if pc.Copied? {
      RemoveReplays(s, t, pc.op, pc.x);
    }
  }

  /** In every interleaving of any number of threads the mutexes exclude, the operations behave as if
      run one after the other, and whenever a thread is blocked some thread can take a step. */
  lemma {:induction false} EveryRunIsAtomicAndLive<T(!new)>(ticks: seq<Tick<T>>)
    ensures var s := Run(ticks);
            LockSound(s) && Replay(s.log) == Some(s.data)
    ensures var s := Run(ticks);
            !s.broken ==>
              forall t: nat :: Blocked(s, t) ==> CanStep(s, Unblocker(s, t)) && Next(s, Unblocker(s, t), Go) != s
  {
    var s := Run(ticks);
    if ticks != [] {
      var before, k := ticks[..|ticks| - 1], ticks[|ticks| - 1];
      EveryRunIsAtomicAndLive(before);
      NextKeepsLocks(Run(before), k.thread, k.choice);
      NextReplays(Run(before), k.thread, k.choice);
    }
    if !s.broken {
      forall t: nat | Blocked(s, t) ensures CanStep(s, Unblocker(s, t)) && Next(s, Unblocker(s, t), Go) != s {
        BlockedHasUnblocker(s, t);
        CanStepMoves(s, Unblocker(s, t));
      }
    }
  }

  // ---- What `wait` and the pushes do ------------------------------------------------------------

  /** The last operation a thread completed. */
  function LastOf<T>(log: seq<Entry<T>>, t: nat): Option<Entry<T>> {
    if log == [] then None
    else if log[|log| - 1].thread == t then Some(log[|log| - 1])
    else LastOf(log[..|log| - 1], t)
  }

  /** On the way from a look that found nothing to the next look. */
  predicate StillWaiting<T>(pc: Pc<T>) {
    || (pc.Leaving? && pc.again) || pc.WaitWantPushed? || pc.WaitHasPushed? || pc.Asleep? || pc.Woken? || pc.WaitDone?
    || (pc.WantQueue? && pc.op.Wait?) || (pc.HasQueue? && pc.op.Wait?)
  }

  /** A thread whose last look in `wait` found the queue empty has not come back. */
  predicate WaitSound<T>(s: System<T>, t: nat) {
    match LastOf(s.log, t)
    case None => true
    case Some(e) => e.op.Wait? ==> e.reply.Answer? && (e.reply.empty ==> StillWaiting(PcOf(s, t)))
  }

  lemma LastOfMore<T>(log: seq<Entry<T>>, e: Entry<T>, t: nat)
    ensures LastOf(log + [e], t) == if e.thread == t then Some(e) else LastOf(log, t)
  {
    assert (log + [e])[..|log|] == log;
  }

  lemma BodyKeepsWaiting<T>(s: System<T>, t: nat, op: Op<T>, u: nat)
    requires WaitSound(s, u) && !s.broken && (op.PopFront? || op.PopBack? ==> PcOf(s, t) == HasQueue(op))
    ensures WaitSound(Body(s, t, op), u)
  {
    var n := Body(s, t, op);
    if n.log != s.log {
      var e := n.log[|s.log|];
      assert n.log == s.log + [e];
      LastOfMore(s.log, e, u);
    }
  }

  lemma RemoveKeepsWaiting<T>(s: System<T>, t: nat, op: Op<T>, x: T, u: nat)
    requires WaitSound(s, u) && (op.PopFront? || op.PopBack?)
    ensures WaitSound(Remove(s, t, op, x), u)
  {
    LastOfMore(s.log, Entry(t, op, Item(x)), u);
  }

  lemma NextKeepsWaiting<T(!new)>(s: System<T>, t: nat, choice: Choice<T>, u: nat)
    requires LockSound(s) && WaitSound(s, u)
    ensures WaitSound(Next(s, t, choice), u)
  {
    var pc := PcOf(s, t);
    if !s.broken {
      if pc.HasQueue? {
        BodyKeepsWaiting(s, t, pc.op, u);
      } else if pc.Copied? {
        assert CopyCurrent(s.data, pc);
        RemoveKeepsWaiting(s, t, pc.op, pc.x, u);
      }
    }
  }

  /** In every run: a thread that is back from a `wait` found something at its last look. (That it ever
      comes back is not claimed.) */
  lemma {:induction false} WaitReturnsOnlyWhenNotEmpty<T(!new)>(ticks: seq<Tick<T>>, t: nat)
    ensures WaitSound(Run(ticks), t)
    ensures var s := Run(ticks);
            PcOf(s, t).Idle? && LastOf(s.log, t).Some? && LastOf(s.log, t).value.op.Wait? ==>
              LastOf(s.log, t).value.reply == Answer(false)
  {
    if ticks != [] {
      var before, k := ticks[..|ticks| - 1], ticks[|ticks| - 1];
      WaitReturnsOnlyWhenNotEmpty(before, t);
      EveryRunIsAtomicAndLive(before);
      NextKeepsWaiting(Run(before), k.thread, k.choice, t);
    }
  }

  /** In every run: a push notifies while it holds both mutexes, and `wait` never holds the queue mutex
      while it wants or holds the other. */
  lemma {:induction false} EveryRunHoldsInOrder<T(!new)>(ticks: seq<Tick<T>>, t: nat)
    ensures var s := Run(ticks);
            var pc := PcOf(s, t);
            && (pc.WantPushed? ==> s.queueBy == Some(t) && s.pushedBy != Some(t))
            && (pc.HasPushed? || pc.Notified? ==> s.queueBy == s.pushedBy == Some(t))
            && (pc.WaitWantPushed? || pc.Asleep? || pc.Woken? ==> s.queueBy != Some(t) && s.pushedBy != Some(t))
            && (pc.WaitHasPushed? || pc.WaitDone? ==> s.queueBy != Some(t) && s.pushedBy == Some(t))
  {
    EveryRunIsAtomicAndLive(ticks);
    var pc := PcOf(Run(ticks), t);
    assert (HoldsQueue(pc) <==> Run(ticks).queueBy == Some(t)) && (HoldsPushed(pc) <==> Run(ticks).pushedBy == Some(t));
  }

  /** A push that has put its item goes on to notify, which wakes the sleeper chosen, and only then lets go
      of the queue mutex. */
  lemma PushNotifies<T(!new)>(s: System<T>, t: nat, sleeper: nat)
    requires !s.broken
    ensures PcOf(s, t).HasQueue? && (PcOf(s, t).op.PushFront? || PcOf(s, t).op.PushBack?) ==>
              PcOf(Next(s, t, Go), t).WantPushed?
    ensures PcOf(s, t).WantPushed? && s.pushedBy.None? ==> PcOf(Next(s, t, Go), t).HasPushed?
    ensures PcOf(s, t).HasPushed? ==> PcOf(Next(s, t, GoAndWake(sleeper)), t).Notified?
    ensures PcOf(s, t).HasPushed? && PcOf(s, sleeper).Asleep? ==> PcOf(Next(s, t, GoAndWake(sleeper)), sleeper).Woken?
    ensures PcOf(s, t).Notified? ==> PcOf(Next(s, t, Go), t) == Leaving(false)
  {
  }

  /** A `wait` that found nothing goes to sleep, letting go of the mutex, and when woken takes it and
      looks again. */
  lemma WaitSleeps<T(!new)>(s: System<T>, t: nat)
    requires !s.broken
    ensures PcOf(s, t) == HasQueue(Wait) ==> PcOf(Next(s, t, Go), t) == Leaving(s.data == [])
    ensures PcOf(s, t) == Leaving(true) ==> PcOf(Next(s, t, Go), t).WaitWantPushed? && Next(s, t, Go).queueBy.None?
    ensures PcOf(s, t).WaitWantPushed? && s.pushedBy.None? ==> PcOf(Next(s, t, Go), t).WaitHasPushed?
    ensures PcOf(s, t).WaitHasPushed? ==> PcOf(Next(s, t, Go), t).Asleep? && Next(s, t, Go).pushedBy.None?
    ensures PcOf(s, t).Asleep? ==> PcOf(Next(s, t, Go), t).Asleep? && PcOf(Next(s, t, WakeUp), t).Woken?
    ensures PcOf(s, t).Woken? && s.pushedBy.None? ==> PcOf(Next(s, t, Go), t).WaitDone?
    ensures PcOf(s, t).WaitDone? ==> PcOf(Next(s, t, Go), t) == WantQueue(Wait) && Next(s, t, Go).pushedBy.None?
  {
  }

  // ---- One consumer, any number of producers ----------------------------------------------------

  /** Producers push at the back and look; the consumer pops the front only after its last look,
      by `empty` or `wait`, found something, as the loop of `Update` does. */
  predicate Follows<T>(s: System<T>, consumer: nat, k: Tick<T>) {
    PcOf(s, k.thread).Idle? && k.choice.Begin? ==>
      if k.thread == consumer then
        match k.choice.op
        case IsEmpty => true
        case Size => true
        case Wait => true
        case PopFront => consumer in s.last && s.last[consumer] == Answer(false)
        case _ => false
      else k.choice.op.PushBack? || k.choice.op.IsEmpty? || k.choice.op.Size? || k.choice.op.Wait?
  }

  predicate AllFollow<T>(consumer: nat, ticks: seq<Tick<T>>) {
    ticks == [] ||
    (AllFollow(consumer, ticks[..|ticks| - 1]) && Follows(Run(ticks[..|ticks| - 1]), consumer, ticks[|ticks| - 1]))
  }

  /** The operation a thread has begun and not yet carried out. */
  function Intent<T>(pc: Pc<T>): Option<Op<T>> {
    match pc
    case WantQueue(op) => Some(op)
    case HasQueue(op) => Some(op)
    case Copied(op, _) => Some(op)
    case _ => None
  }

  predicate IntentFits<T>(s: System<T>, consumer: nat, t: nat) {
    match Intent(PcOf(s, t))
    case None => true
    case Some(PushBack(_)) => t != consumer
    case Some(PopFront) => t == consumer && consumer in s.last && s.last[consumer].Answer? && !s.last[consumer].empty
    case Some(op) => op.IsEmpty? || op.Size? || op.Wait?
  }

  function PushedIn<T>(e: Entry<T>): seq<T> {
    if e.op.PushBack? then [e.op.x] else []
  }

  function PoppedIn<T>(e: Entry<T>): seq<T> {
    if e.op.PopFront? && e.reply.Item? then [e.reply.x] else []
  }

  /** Everything pushed, in the order in which the pushes held the mutex. */
  function Pushed<T>(log: seq<Entry<T>>): seq<T> {
    if log == [] then [] else Pushed(log[..|log| - 1]) + PushedIn(log[|log| - 1])
  }

  function Popped<T>(log: seq<Entry<T>>): seq<T> {
    if log == [] then [] else Popped(log[..|log| - 1]) + PoppedIn(log[|log| - 1])
  }

  ghost predicate ConsumerSound<T(!new)>(s: System<T>, consumer: nat) {
    && !s.broken
    && (consumer in s.last && s.last[consumer].Answer? && !s.last[consumer].empty ==> s.data != [])
    && (forall t: nat :: IntentFits(s, consumer, t))
    && Popped(s.log) + s.data == Pushed(s.log)
  }

  lemma LogOneMore<T>(log: seq<Entry<T>>, e: Entry<T>)
    ensures Pushed(log + [e]) == Pushed(log) + PushedIn(e)
    ensures Popped(log + [e]) == Popped(log) + PoppedIn(e)
  {
    assert (log + [e])[..|log|] == log;
  }

  /** A completed operation of the allowed kinds keeps popped ++ queue == pushed. */
  lemma FinishConserves<T>(s: System<T>, t: nat, op: Op<T>, data: seq<T>, reply: Reply<T>, pc: Pc<T>)
    requires Popped(s.log) + s.data == Pushed(s.log)
    requires PoppedIn(Entry(t, op, reply)) + data == s.data + PushedIn(Entry(t, op, reply))
    ensures var n := Finish(s, t, op, data, reply, pc); Popped(n.log) + n.data == Pushed(n.log)
  {
    var e := Entry(t, op, reply);
    LogOneMore(s.log, e);
    Regroup(Popped(s.log), PoppedIn(e), data);
    Regroup(Popped(s.log), s.data, PushedIn(e));
  }

  /** Thread `t` completed an operation that leaves it with nothing begun, and with a reply that is
      true of the queue. */
  lemma FinishKeepsConsumer<T(!new)>(s: System<T>, consumer: nat, t: nat, op: Op<T>,
                                     data: seq<T>, reply: Reply<T>, pc: Pc<T>)
    requires ConsumerSound(s, consumer) && Intent(pc).None?
    requires PoppedIn(Entry(t, op, reply)) + data == s.data + PushedIn(Entry(t, op, reply))
    requires t == consumer && reply.Answer? && !reply.empty ==> data != []
    requires t == consumer || |data| >= |s.data|
    ensures ConsumerSound(Finish(s, t, op, data, reply, pc), consumer)
  {
    var n := Finish(s, t, op, data, reply, pc);
    FinishConserves(s, t, op, data, reply, pc);
    forall u: nat ensures IntentFits(n, consumer, u) {
      assert IntentFits(s, consumer, u);
      assert u != t ==> PcOf(n, u) == PcOf(s, u);
      assert t == consumer && u != t ==> Intent(PcOf(s, u)) != Some(PopFront);
    }
  }

  lemma BodyKeepsConsumer<T(!new)>(s: System<T>, consumer: nat, t: nat)
    requires ConsumerSound(s, consumer) && PcOf(s, t).HasQueue?
    ensures ConsumerSound(Body(s, t, PcOf(s, t).op), consumer)
  {
    var op := PcOf(s, t).op;
    assert IntentFits(s, consumer, t);
    match op
    case PushBack(x) => FinishKeepsConsumer(s, consumer, t, op, s.data + [x], Done, WantPushed);
    case IsEmpty => FinishKeepsConsumer(s, consumer, t, op, s.data, Answer(s.data == []), Leaving(false));
    case Size => FinishKeepsConsumer(s, consumer, t, op, s.data, Count(|s.data|), Leaving(false));
    case Wait => FinishKeepsConsumer(s, consumer, t, op, s.data, Answer(s.data == []), Leaving(s.data == []));
    case PopFront => PcMoveKeepsConsumer(s, Body(s, t, op), consumer, t);
  }

  lemma RemoveKeepsConsumer<T(!new)>(s: System<T>, consumer: nat, t: nat)
    requires LockSound(s) && ConsumerSound(s, consumer) && PcOf(s, t).Copied?
    ensures ConsumerSound(Remove(s, t, PcOf(s, t).op, PcOf(s, t).x), consumer)
  {
    var op, x := PcOf(s, t).op, PcOf(s, t).x;
    assert IntentFits(s, consumer, t) && CopyCurrent(s.data, PcOf(s, t));
    FinishKeepsConsumer(s, consumer, t, op, s.data[1..], Item(x), Leaving(false));
  }

  /** Only program counters and mutexes changed: other threads have begun nothing, and `t` at most
      what it had begun or what it may begin. */
  predicate SameQueue<T(==)>(s: System<T>, n: System<T>) {
    n.data == s.data && n.log == s.log && n.last == s.last && n.broken == s.broken
  }

  ghost predicate PcMove<T(!new)>(s: System<T>, n: System<T>, t: nat) {
    && SameQueue(s, n)
    && forall u: nat :: u == t || PcOf(n, u) == PcOf(s, u) || Intent(PcOf(n, u)).None?
  }

  lemma PcMoveKeepsConsumer<T(!new)>(s: System<T>, n: System<T>, consumer: nat, t: nat)
    requires ConsumerSound(s, consumer) && PcMove(s, n, t) && IntentFits(n, consumer, t)
    ensures ConsumerSound(n, consumer)
  {
    forall u: nat ensures IntentFits(n, consumer, u) {
      assert IntentFits(s, consumer, u);
    }
  }

  lemma QuietNext<T(!new)>(s: System<T>, t: nat, choice: Choice<T>)
    requires !PcOf(s, t).HasQueue? && !PcOf(s, t).Copied?
    ensures PcMove(s, Next(s, t, choice), t)
  {
  }

  lemma QuietIntent<T(!new)>(s: System<T>, consumer: nat, k: Tick<T>)
    requires !PcOf(s, k.thread).HasQueue? && !PcOf(s, k.thread).Copied?
    requires IntentFits(s, consumer, k.thread) && Follows(s, consumer, k)
    ensures IntentFits(Next(s, k.thread, k.choice), consumer, k.thread)
  {
  }

  lemma NextKeepsConsumer<T(!new)>(s: System<T>, consumer: nat, k: Tick<T>)
    requires LockSound(s) && ConsumerSound(s, consumer) && Follows(s, consumer, k)
    ensures ConsumerSound(Next(s, k.thread, k.choice), consumer)
  {
    var t, pc := k.thread, PcOf(s, k.thread);
    assert IntentFits(s, consumer, t);
    if pc.HasQueue? {
      BodyKeepsConsumer(s, consumer, t);
    } else if pc.Copied? {
      RemoveKeepsConsumer(s, consumer, t);
    } else {
      QuietNext(s, t, k.choice);
      QuietIntent(s, consumer, k);
      PcMoveKeepsConsumer(s, Next(s, t, k.choice), consumer, t);
    }
  }

  /** In every interleaving of one consumer and any number of producers no pop meets an empty deque,
      and what was popped, then what is queued, is what was pushed, in the order of the pushes. */
  lemma {:induction false} OneConsumerNeverPopsEmpty<T(!new)>(consumer: nat, ticks: seq<Tick<T>>)
    requires AllFollow(consumer, ticks)
    ensures ConsumerSound(Run(ticks), consumer)
    ensures !Run(ticks).broken && Popped(Run(ticks).log) + Run(ticks).data == Pushed(Run(ticks).log)
  {
    if ticks != [] {
      OneConsumerNeverPopsEmpty(consumer, ticks[..|ticks| - 1]);
      EveryRunIsAtomicAndLive(ticks[..|ticks| - 1]);
      NextKeepsConsumer(Run(ticks[..|ticks| - 1]), consumer, ticks[|ticks| - 1]);
    }
  }
}
