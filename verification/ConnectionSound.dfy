// What every step of an endpoint keeps, whatever bytes arrive and in whatever order things happen.

module ConnectionSound {
  import opened Bytes
  import opened Packets
  import opened Framing
  import opened ConnectionSpec

  // ---- The writer -------------------------------------------------------------------------------

  function InfoOf(p: Post): seq<SendInfo> {
    match p
    case PostSend(info) => [info]
    case PostClose => []
  }

  function PostedInfos(posts: seq<Post>): seq<SendInfo> {
    if posts == [] then [] else InfoOf(posts[0]) + PostedInfos(posts[1..])
  }

  /** Accounting: accepted packets are the finished ones, the queued ones and the posted ones. */
  predicate QueueSound(w: Writer) {
    && w.accepted == w.finished + w.messagesOut + PostedInfos(w.posts)
    && w.sentCount == |w.finished|
    && AllFramed(w.accepted)
  }

  function FrontFrame(w: Writer): seq<byte> {
    if w.messagesOut == [] then [] else Frame(w.messagesOut[0])
  }

  /** A pending write belongs to the front message, and what was emitted together with what that
      write still holds ends in its part of it. With no write pending some of the front message may
      have been emitted, by a write that failed. */
  predicate WriteOpSound(w: Writer) {
    match w.op
    case NoWrite => w.emitted <= Frames(w.finished) + FrontFrame(w)
    case WritingHeader(left) =>
      w.messagesOut != [] && w.emitted + left == Frames(w.finished) + HeaderBytes(w.messagesOut[0].header)
    case WritingBody(left) =>
      w.messagesOut != [] && w.emitted + left == Frames(w.finished) + FrontFrame(w)
  }

  /** At most one asynchronous write is pending, and it is the one `op` holds. */
  predicate OneWrite(w: Writer) {
    w.started == w.ended + if w.op.NoWrite? then 0 else 1
  }

  predicate WriterSound(w: Writer) {
    && QueueSound(w) && WriteOpSound(w) && OneWrite(w)
    && Frames(w.finished) <= w.emitted
    && (w.messagesOut == [] ==> w.emitted == Frames(w.finished))
  }

  lemma {:induction false} PostedAppend(posts: seq<Post>, p: Post)
    ensures PostedInfos(posts + [p]) == PostedInfos(posts) + InfoOf(p)
  {
    if posts == [] {
      assert posts + [p] == [p] && [p][1..] == [];
    } else {
      assert (posts + [p])[1..] == posts[1..] + [p];
      PostedAppend(posts[1..], p);
    }
  }

  lemma PostedKeeps(w: Writer, info: SendInfo)
    requires WriterSound(w) && Framed(info)
    ensures WriterSound(Posted(w, info))
  {
    PostedAppend(w.posts, PostSend(info));
  }

  lemma PostTakenKeeps(w: Writer)
    requires WriterSound(w) && w.posts != []
    ensures QueueSound(PostTaken(w)) && OneWrite(PostTaken(w))
    ensures w.messagesOut != [] || w.posts[0].PostClose? ==> WriterSound(PostTaken(w))
  {
    var v := PostTaken(w);
    var later := PostedInfos(v.posts);
    assert v.messagesOut == w.messagesOut + InfoOf(w.posts[0]);
    Regroup(w.messagesOut, InfoOf(w.posts[0]), later);
    Regroup(w.finished, w.messagesOut, PostedInfos(w.posts));
    Regroup(w.finished, v.messagesOut, later);
  }

  lemma HeaderStartedKeeps(w: Writer)
    requires QueueSound(w) && w.messagesOut != [] && w.emitted == Frames(w.finished)
    requires OneWrite(w) && w.op.NoWrite?
    ensures WriterSound(HeaderStarted(w)) && WriterSound(w)
  {
  }

  lemma FrontDroppedKeeps(w: Writer)
    requires WriterSound(w) && !w.op.NoWrite? && w.emitted == Frames(w.finished) + FrontFrame(w)
    ensures QueueSound(FrontDropped(w)) && FrontDropped(w).emitted == Frames(FrontDropped(w).finished)
    ensures OneWrite(FrontDropped(w))
  {
    var v := FrontDropped(w);
    assert v.finished[..|v.finished| - 1] == w.finished;
    assert v.finished + v.messagesOut == w.finished + w.messagesOut;
  }

  lemma Move(e: seq<byte>, left: seq<byte>, n: nat, x: seq<byte>)
    requires e + left == x && n <= |left|
    ensures (e + left[..n]) + left[n..] == x
  {
  }

  lemma WrittenKeeps(w: Writer, k: nat)
    requires WriterSound(w) && !w.op.NoWrite?
    ensures WriterSound(Written(w, k))
  {
    Move(w.emitted, w.op.left, Min(k, |w.op.left|), w.emitted + w.op.left);
  }

  lemma Cut(e: seq<byte>, left: seq<byte>, f: seq<byte>, h: seq<byte>, b: seq<byte>)
    requires e + left == f + h
    ensures e <= f + (h + b)
  {
    Regroup(e, left, b);
    Regroup(f, h, b);
  }

  lemma WriteFailedKeeps(w: Writer)
    requires WriterSound(w) && !w.op.NoWrite?
    ensures WriterSound(WriteEnded(w))
  {
    var m := w.messagesOut[0];
    if w.op.WritingHeader? {
      Cut(w.emitted, w.op.left, Frames(w.finished), HeaderBytes(m.header), m.body);
    } else {
      Cut(w.emitted, w.op.left, Frames(w.finished), Frame(m), []);
      assert Frame(m) + [] == Frame(m);
    }
  }

  lemma HeaderDoneKeeps(w: Writer)
    requires WriterSound(w) && w.op == WritingHeader([])
    ensures WriterSound(BodyStarted(w))
    ensures w.messagesOut[0].body == [] ==> w.emitted == Frames(w.finished) + FrontFrame(w)
  {
    var m := w.messagesOut[0];
    assert w.emitted + [] == w.emitted;
    assert (Frames(w.finished) + HeaderBytes(m.header)) + m.body == Frames(w.finished) + Frame(m);
  }

  // ---- The reader -------------------------------------------------------------------------------

  /** The body a delivered copy carries: a bodyless message repeats the body before it. */
  function LastBody(ms: seq<SendInfo>): seq<byte> {
    if ms == [] then []
    else if ms[|ms| - 1].body != [] then ms[|ms| - 1].body
    else LastBody(ms[..|ms| - 1])
  }

  /** The i-th message as it enters the incoming queue. */
  function Delivered(ms: seq<SendInfo>, i: nat): SendInfo
    requires i < |ms|
  {
    SendInfo(HostHeader(ms[i].header), LastBody(ms[..i + 1]))
  }

  predicate InitFree(ms: seq<SendInfo>) {
    forall i | 0 <= i < |ms| :: ms[i].header.id != INIT_ID
  }

  predicate DeliveredSound(r: Reader, direction: Direction) {
    && r.receivedCount == |r.received|
    && AllFramed(r.received)
    && |r.messagesIn| <= |r.received| <= |r.messagesIn| + 1
    && (forall i | 0 <= i < |r.messagesIn| :: r.messagesIn[i] == Delivered(r.received, i))
    && (direction.ToClient? ==> InitFree(r.received[..|r.messagesIn|]))
  }

  /** What was consumed is the frames received and the part of the next one that the pending read
      has got. */
  predicate ReadOpSound(r: Reader) {
    match r.op
    case NoRead => Frames(r.received) <= r.consumed
    case ReadingHeader(got) =>
      && |r.messagesIn| == |r.received| && |got| <= HEADER_SIZE
      && r.consumed == Frames(r.received) + got
      && r.wip.body == LastBody(r.received)
    case ReadingBody(got) =>
      && |r.messagesIn| == |r.received| && 0 < r.wip.header.size && |got| <= r.wip.header.size
      && r.consumed == Frames(r.received) + (HeaderBytes(HostHeader(r.wip.header)) + got)
  }

  /** At most one asynchronous read is pending, and it is the one `op` holds. */
  predicate OneRead(r: Reader) {
    r.started == r.ended + if r.op.NoRead? then 0 else 1
  }

  predicate ReaderSound(r: Reader, direction: Direction) {
    DeliveredSound(r, direction) && ReadOpSound(r) && OneRead(r)
  }

  lemma TakenKeeps(r: Reader, direction: Direction, bytes: seq<byte>)
    requires ReaderSound(r, direction) && !r.op.NoRead? && |bytes| <= Wanted(r)
    ensures ReaderSound(Taken(r, bytes), direction)
  {
  }

  /** A whole message lies in `wip`, and what was consumed ends with it. */
  predicate WholeMessage(r: Reader, direction: Direction) {
    && DeliveredSound(r, direction) && |r.messagesIn| == |r.received|
    && !r.op.NoRead? && OneRead(r)
    && WipWhole(r)
    && r.consumed == Frames(r.received) + Frame(WipOnWire(r))
    && (r.wip.header.size == 0 ==> r.wip.body == LastBody(r.received))
  }

  /** A message was counted but not delivered. */
  predicate CountedSound(r: Reader, direction: Direction) {
    && DeliveredSound(r, direction) && r.op.NoRead? && OneRead(r)
    && |r.received| == |r.messagesIn| + 1
    && r.consumed == Frames(r.received)
    && r.wip == Delivered(r.received, |r.messagesIn|)
    && r.wip.body == LastBody(r.received)
  }

  lemma DeliveredStable(ms: seq<SendInfo>, m: SendInfo, i: nat)
    requires i < |ms|
    ensures Delivered(ms + [m], i) == Delivered(ms, i)
  {
    assert (ms + [m])[..i + 1] == ms[..i + 1];
  }

  lemma DeliveredLast(ms: seq<SendInfo>, m: SendInfo)
    ensures Delivered(ms + [m], |ms|) == SendInfo(HostHeader(m.header), if m.body == [] then LastBody(ms) else m.body)
    ensures LastBody(ms + [m]) == if m.body == [] then LastBody(ms) else m.body
    ensures Frames(ms + [m]) == Frames(ms) + Frame(m)
  {
    assert (ms + [m])[..|ms| + 1] == ms + [m];
    assert (ms + [m])[..|ms|] == ms;
  }

  lemma CountedKeeps(r: Reader, direction: Direction)
    requires WholeMessage(r, direction)
    ensures CountedSound(Counted(r), direction)
  {
    var m, ms := WipOnWire(r), r.received;
    Swap16Twice(r.wip.header.size);
    DeliveredLast(ms, m);
    assert (ms + [m])[..|ms|] == ms == ms[..|ms|];
    forall i | 0 <= i < |ms| ensures r.messagesIn[i] == Delivered(ms + [m], i) {
      DeliveredStable(ms, m, i);
    }
  }

  lemma DeliveringKeeps(r: Reader, direction: Direction)
    requires CountedSound(r, direction) && (direction.ToClient? ==> r.wip.header.id != INIT_ID)
    ensures ReaderSound(Delivering(r), direction)
  {
    var q := Delivering(r);
    assert q.received[..|q.messagesIn|] == q.received;
  }

  lemma HeaderInKeeps(r: Reader, direction: Direction)
    requires ReaderSound(r, direction) && r.op.ReadingHeader? && |r.op.got| == HEADER_SIZE
    ensures var q := HeaderIn(r, r.op.got);
            if q.wip.header.size == 0 then WholeMessage(q, direction)
            else ReaderSound(BodyAwaited(q), direction)
  {
    var h := HeaderFrom(r.op.got);
    Swap16Twice(h.size);
    assert HostHeader(HostHeader(h)) == h;
    assert HeaderBytes(h) + [] == HeaderBytes(h);
  }

  lemma BodyInKeeps(r: Reader, direction: Direction)
    requires ReaderSound(r, direction) && r.op.ReadingBody? && |r.op.got| == r.wip.header.size
    ensures WholeMessage(BodyIn(r, r.op.got), direction)
    ensures ReaderSound(ReadEnded(BodyIn(r, r.op.got)), direction)
  {
  }

  // ---- Both halves ------------------------------------------------------------------------------

  /** The server consumed a valid Init: it counted it and neither queued it nor reads on. */
  predicate StoppedAtInit(c: Conn) {
    && c.direction.ToClient? && c.r.op.NoRead? && |c.r.received| == |c.r.messagesIn| + 1
    && var m := c.r.received[|c.r.messagesIn|];
       m.header.id == INIT_ID && GoodInit(SendInfo(HostHeader(m.header), m.body))
  }

  /** A single writer and a single reader: while the socket is open a write is pending as long as
      there is something to write, and a read is pending until a valid Init stops it or a throw. */
  predicate LiveSound(c: Conn) {
    && (c.w.op.NoWrite? && c.w.messagesOut != [] ==> !c.isOpen)
    && (c.r.op.NoRead? ==> c.crashed || !c.isOpen || StoppedAtInit(c))
    && (|c.r.messagesIn| != |c.r.received| ==> c.crashed || StoppedAtInit(c))
    && (c.isConnecting ==> !c.isOpen && c.w.posts == [] && c.w.messagesOut == [] && c.w.op.NoWrite?)
    && (c.isConnecting ==> c.direction.ToServer? && c.r == FRESH_READER)
    && (c.initPacket.Some? ==> |BodyOf(c.initPacket.value)| <= UINT16_MAX)
  }

  predicate Sound(c: Conn) {
    WriterSound(c.w) && ReaderSound(c.r, c.direction) && LiveSound(c)
  }

  lemma SendKeeps(c: Conn, p: Packet)
    requires Sound(c) && CanSend(c, p)
    ensures Sound(Send(c, p))
  {
    FrameReadBackIff(IdOf(p), BodyOf(p), []);
    PostedKeeps(c.w, Packed(IdOf(p), BodyOf(p)));
  }

  lemma DisconnectKeeps(c: Conn)
    requires Sound(c)
    ensures Sound(Disconnect(c))
  {
    PostedAppend(c.w.posts, PostClose);
  }

  lemma WriteHeaderKeeps(c: Conn)
    requires QueueSound(c.w) && c.w.messagesOut != [] && c.w.op.NoWrite? && c.w.emitted == Frames(c.w.finished)
    requires ReaderSound(c.r, c.direction) && LiveSound(Close(c)) && !c.isConnecting
    requires c.r.op.NoRead? ==> c.crashed || !c.isOpen || StoppedAtInit(c)
    requires OneWrite(c.w)
    ensures Sound(WriteHeader(c))
  {
    HeaderStartedKeeps(c.w);
  }

  lemma RunPostKeeps(c: Conn)
    requires Sound(c) && c.w.posts != []
    ensures Sound(RunPost(c))
  {
    PostTakenKeeps(c.w);
    var d := c.(w := PostTaken(c.w));
    if c.w.posts[0].PostSend? && c.w.messagesOut == [] {
      WriteHeaderKeeps(d);
    }
  }

  lemma MessageWrittenKeeps(c: Conn, now: int)
    requires Sound(c) && !c.w.op.NoWrite? && !c.isConnecting
    requires c.w.emitted == Frames(c.w.finished) + FrontFrame(c.w)
    ensures Sound(MessageWritten(c, now))
  {
    FrontDroppedKeeps(c.w);
    var d := c.(w := FrontDropped(c.w), lastSent := now);
    if d.w.messagesOut != [] {
      WriteHeaderKeeps(d);
    }
  }

  lemma WriteDoneKeeps(c: Conn, now: int)
    requires Sound(c) && !c.w.op.NoWrite? && c.w.op.left == [] && c.w.messagesOut != []
    ensures Sound(if c.w.op.WritingHeader? then HeaderWritten(c, now) else MessageWritten(c, now))
  {
    if c.w.op.WritingHeader? {
      HeaderDoneKeeps(c.w);
      if c.w.messagesOut[0].body == [] {
        MessageWrittenKeeps(c, now);
      }
    } else {
      assert c.w.emitted + [] == c.w.emitted;
      MessageWrittenKeeps(c, now);
    }
  }

  /** A message was counted on this connection and neither delivered nor judged yet. */
  predicate Judging(c: Conn) {
    WriterSound(c.w) && CountedSound(c.r, c.direction) && LiveSound(Crash(c)) && !c.isConnecting
  }

  lemma DeliverKeeps(c: Conn)
    requires Judging(c) && (c.direction.ToClient? ==> c.r.wip.header.id != INIT_ID)
    ensures Sound(Deliver(c))
  {
    DeliveringKeeps(c.r, c.direction);
  }

  lemma CrashKeeps(c: Conn)
    requires Judging(c)
    ensures Sound(Crash(c))
  {
  }

  lemma EchoKeeps(c: Conn, now: int)
    requires Judging(c) && |c.r.wip.body| >= PING_SIZE && c.direction.ToServer?
    ensures Judging(Echo(c, now))
  {
    var pong := PingPacket(RawPayload(c.r.wip.body));
    FrameReadBackIff(IdOf(pong), BodyOf(pong), []);
    PostedKeeps(c.w, Packed(IdOf(pong), BodyOf(pong)));
  }

  lemma InitKeeps(c: Conn, m: SendInfo)
    requires Judging(c) && c.direction.ToClient? && c.r.wip.header.id == INIT_ID && GoodInit(c.r.wip)
    requires m == c.r.received[|c.r.messagesIn|] && m.body == c.r.wip.body && m.header == HostHeader(c.r.wip.header)
    ensures Sound(c)
  {
    Swap16Twice(c.r.wip.header.size);
  }

  lemma KeepAliveKeeps(d: Conn, now: int)
    requires Judging(d) && d.r.wip.header.id == KEEP_ALIVE_ID && WipWhole(d.r)
    ensures Sound(KeepAliveArrived(d, now))
  {
    if !GoodKeepAlive(d.r.wip.header) {
      CrashKeeps(d);
    } else if d.direction.ToClient? {
      DeliverKeeps(Stamp(d, now));
    } else {
      EchoKeeps(d, now);
      if Echo(d, now).crashed { CrashKeeps(Echo(d, now)); } else { DeliverKeeps(Echo(d, now)); }
    }
  }

  lemma JudgingStarts(c: Conn, now: int)
    requires WriterSound(c.w) && WholeMessage(c.r, c.direction) && LiveSound(Crash(c)) && !c.isConnecting
    ensures Judging(c.(r := Counted(c.r), lastReceived := now))
  {
    CountedKeeps(c.r, c.direction);
  }

  lemma JudgedKeeps(d: Conn, now: int, m: SendInfo)
    requires Judging(d) && WipWhole(d.r)
    requires m == d.r.received[|d.r.messagesIn|] && m.header == HostHeader(d.r.wip.header)
    requires d.r.wip.header.size > 0 ==> m.body == d.r.wip.body
    ensures Sound(Judged(d, now))
  {
    if d.r.wip.header.id == KEEP_ALIVE_ID {
      KeepAliveKeeps(d, now);
    } else if d.r.wip.header.id == INIT_ID && d.direction.ToClient? {
      if GoodInit(d.r.wip) { InitKeeps(d, m); } else { CrashKeeps(d); }
    } else {
      DeliverKeeps(d);
    }
  }

  lemma AddToIncomingKeeps(c: Conn, now: int)
    requires WriterSound(c.w) && WholeMessage(c.r, c.direction) && LiveSound(Crash(c)) && !c.isConnecting
    ensures Sound(AddToIncoming(c, now))
  {
    JudgingStarts(c, now);
    JudgedKeeps(c.(r := Counted(c.r), lastReceived := now), now, WipOnWire(c.r));
  }

  lemma HeaderReadKeeps(c: Conn, now: int)
    requires Sound(c) && c.r.op.ReadingHeader? && |c.r.op.got| == HEADER_SIZE
    ensures Sound(HeaderRead(c, c.r.op.got, now))
  {
    HeaderInKeeps(c.r, c.direction);
    var q := HeaderIn(c.r, c.r.op.got);
    if q.wip.header.size == 0 {
      WholeMessageKeeps(c, q, now);
    } else {
      BodyAwaitedKeeps(c, q);
    }
  }

  lemma BodyAwaitedKeeps(c: Conn, q: Reader)
    requires Sound(c) && !c.isConnecting && ReaderSound(BodyAwaited(q), c.direction)
    ensures Sound(c.(r := BodyAwaited(q)))
  {
  }

  lemma WholeMessageKeeps(c: Conn, q: Reader, now: int)
    requires Sound(c) && !c.r.op.NoRead? && WholeMessage(q, c.direction)
    ensures Sound(AddToIncoming(c.(r := q), now))
  {
    AddToIncomingKeeps(c.(r := q), now);
  }

  lemma BodyReadKeeps(c: Conn, now: int)
    requires Sound(c) && c.r.op.ReadingBody? && |c.r.op.got| == c.r.wip.header.size
    ensures Sound(BodyRead(c, c.r.op.got, now))
  {
    BodyInKeeps(c.r, c.direction);
    var d := c.(r := BodyIn(c.r, c.r.op.got));
    if !IsCompressed(d.r.wip.header) {
      AddToIncomingKeeps(d, now);
    }
  }

  lemma HeaderReadIs(c: Conn, bytes: seq<byte>, now: int)
    requires |bytes| == HEADER_SIZE
    ensures var q := HeaderIn(c.r, bytes);
            HeaderRead(c, bytes, now)
            == if q.wip.header.size == 0 then AddToIncoming(c.(r := q), now) else c.(r := BodyAwaited(q))
  {
  }

  /** A complete body: a compressed message closes the socket and nothing is counted or delivered;
      otherwise header and body are the next message received. */
  lemma BodyCompletesMessage(c: Conn, now: int)
    requires Sound(c) && c.r.op.ReadingBody? && |c.r.op.got| == c.r.wip.header.size
    ensures var d := BodyRead(c, c.r.op.got, now);
            if IsCompressed(c.r.wip.header) then
              !d.isOpen && d.r.op.NoRead? && d.r.received == c.r.received && d.r.messagesIn == c.r.messagesIn
            else d.r.received == c.r.received + [SendInfo(HostHeader(c.r.wip.header), c.r.op.got)]
  {
    if !IsCompressed(c.r.wip.header) {
      var q := BodyIn(c.r, c.r.op.got);
      CountedIsReceived(c.(r := q), now);
    }
  }

  lemma CountedIsReceived(c: Conn, now: int)
    requires WipWhole(c.r)
    ensures AddToIncoming(c, now).r.received == c.r.received + [WipOnWire(c.r)]
  {
    JudgedReceivesNothing(MessageCounted(c, now), now);
  }

  lemma JudgedReceivesNothing(c: Conn, now: int)
    requires WipWhole(c.r)
    ensures Judged(c, now).r.received == c.r.received
  {
    if c.r.wip.header.id == KEEP_ALIVE_ID { KeepAliveReceivesNothing(c, now); }
  }

  lemma KeepAliveReceivesNothing(c: Conn, now: int)
    requires WipWhole(c.r)
    ensures KeepAliveArrived(c, now).r.received == c.r.received
  {
    if GoodKeepAlive(c.r.wip.header) { assert Echo(c, now).r == Stamp(c, now).r == c.r; }
  }

  lemma ConnectedKeeps(c: Conn, ok: bool)
    requires Sound(c) && c.isConnecting && c.direction.ToServer?
    ensures Sound(Connected(c, ok))
  {
    var d := c.(isConnecting := false, isOpen := ok);
    if ok && c.initPacket.Some? {
      var p := c.initPacket.value;
      FrameReadBackIff(IdOf(p), BodyOf(p), []);
      PostedKeeps(c.w, Packed(IdOf(p), BodyOf(p)));
    }
  }

  lemma WriteActKeeps(c: Conn, a: Action, incoming: seq<byte>)
    requires Sound(c) && !c.crashed && (a.PostRuns? || a.WriteSome? || a.WriteDone? || a.WriteFails?)
    ensures Sound(Act(c, a, incoming).conn)
  {
    match a
    case PostRuns => if c.w.posts != [] { RunPostKeeps(c); }
    case WriteSome(k) => if !c.w.op.NoWrite? { WrittenKeeps(c.w, k); }
    case WriteDone(now) =>
      if !c.w.op.NoWrite? && c.w.op.left == [] && c.w.messagesOut != [] { WriteDoneKeeps(c, now); }
    case WriteFails => if !c.w.op.NoWrite? { WriteFailedKeeps(c.w); }
  }

  lemma ReadSomeKeeps(c: Conn, bytes: seq<byte>)
    requires Sound(c) && !c.r.op.NoRead? && |bytes| <= Wanted(c.r)
    ensures Sound(c.(r := Taken(c.r, bytes)))
  {
    TakenKeeps(c.r, c.direction, bytes);
  }

  lemma ReadFailedKeeps(c: Conn)
    requires Sound(c) && !c.r.op.NoRead?
    ensures Sound(ReadFailed(c))
  {
  }

  lemma ReadDoneKeeps(c: Conn, now: int, incoming: seq<byte>)
    requires Sound(c)
    ensures Sound(Act(c, ReadDone(now), incoming).conn)
  {
    if c.r.op.ReadingHeader? && |c.r.op.got| == HEADER_SIZE {
      HeaderReadKeeps(c, now);
    } else if c.r.op.ReadingBody? && |c.r.op.got| == c.r.wip.header.size {
      BodyReadKeeps(c, now);
    }
  }

  lemma ReadSomeActKeeps(c: Conn, k: nat, incoming: seq<byte>)
    requires Sound(c)
    ensures Sound(Act(c, ReadSome(k), incoming).conn)
  {
    var n := Min(k, Min(|incoming|, Wanted(c.r)));
    if !c.r.op.NoRead? { ReadSomeKeeps(c, incoming[..n]); }
  }

  /** Every step of an endpoint keeps it sound, whatever bytes arrive. */
  lemma ActKeeps(c: Conn, a: Action, incoming: seq<byte>)
    requires Sound(c)
    ensures Sound(Act(c, a, incoming).conn)
  {
    if c.crashed { return; }
    match a
    case AppSend(p) => if CanSend(c, p) { SendKeeps(c, p); }
    case AppDisconnect => DisconnectKeeps(c);
    case ConnectDone(ok) => if c.isConnecting && c.direction.ToServer? { ConnectedKeeps(c, ok); }
    case PostRuns => WriteActKeeps(c, a, incoming);
    case WriteSome(_) => WriteActKeeps(c, a, incoming);
    case WriteDone(_) => WriteActKeeps(c, a, incoming);
    case WriteFails => WriteActKeeps(c, a, incoming);
    case ReadSome(k) => ReadSomeActKeeps(c, k, incoming);
    case ReadDone(now) => ReadDoneKeeps(c, now, incoming);
    case ReadFails => if !c.r.op.NoRead? { ReadFailedKeeps(c); }
  }

  // ---- What a step adds ----------------------------------------------------

  /** A compressed message can only be one without a body. */
  predicate CompressedIsBodyless(m: SendInfo) {
    IsCompressed(m.header) ==> m.header.size == 0
  }

  /** Deliveries are only ever added to; what is sent is not marked as compressed. */
  predicate Grows(c: Conn, d: Conn) {
    && c.r.messagesIn <= d.r.messagesIn
    && (forall i | |c.r.messagesIn| <= i < |d.r.messagesIn| :: CompressedIsBodyless(d.r.messagesIn[i]))
    && c.w.accepted <= d.w.accepted
    && forall i | |c.w.accepted| <= i < |d.w.accepted| :: d.w.accepted[i].header.flags == 0
  }

  lemma WriteDoneGrows(c: Conn, now: int)
    requires c.w.messagesOut != []
    ensures Grows(c, HeaderWritten(c, now)) && Grows(c, MessageWritten(c, now))
  {
  }

  lemma EchoGrows(c: Conn, now: int)
    requires |c.r.wip.body| >= PING_SIZE && CompressedIsBodyless(c.r.wip)
    ensures Grows(c, Echo(c, now)) && Grows(c, Deliver(Echo(c, now)))
  {
  }

  lemma JudgedGrows(c: Conn, now: int)
    requires WipWhole(c.r) && CompressedIsBodyless(c.r.wip)
    ensures Grows(c, Judged(c, now))
  {
    if c.r.wip.header.id == KEEP_ALIVE_ID && GoodKeepAlive(c.r.wip.header) { EchoGrows(c, now); }
  }

  lemma AddToIncomingGrows(c: Conn, now: int)
    requires WipWhole(c.r) && CompressedIsBodyless(c.r.wip)
    ensures Grows(c, AddToIncoming(c, now))
  {
    JudgedGrows(c.(r := Counted(c.r), lastReceived := now), now);
  }

  lemma HeaderReadGrows(c: Conn, bytes: seq<byte>, now: int)
    requires |bytes| == HEADER_SIZE
    ensures Grows(c, HeaderRead(c, bytes, now))
  {
    var d := c.(r := HeaderIn(c.r, bytes));
    if d.r.wip.header.size == 0 { AddToIncomingGrows(d, now); }
  }

  lemma BodyReadGrows(c: Conn, bytes: seq<byte>, now: int)
    requires |bytes| == c.r.wip.header.size
    ensures Grows(c, BodyRead(c, bytes, now))
  {
    if !IsCompressed(c.r.wip.header) { AddToIncomingGrows(c.(r := BodyIn(c.r, bytes)), now); }
  }

  lemma ReadDoneGrows(c: Conn, now: int, incoming: seq<byte>)
    ensures Grows(c, Act(c, ReadDone(now), incoming).conn)
  {
    if c.r.op.ReadingHeader? && |c.r.op.got| == HEADER_SIZE {
      HeaderReadGrows(c, c.r.op.got, now);
    } else if c.r.op.ReadingBody? && |c.r.op.got| == c.r.wip.header.size {
      BodyReadGrows(c, c.r.op.got, now);
    }
  }

  lemma ActGrows(c: Conn, a: Action, incoming: seq<byte>)
    ensures Grows(c, Act(c, a, incoming).conn)
  {
    match a
    case WriteDone(now) => if c.w.messagesOut != [] { WriteDoneGrows(c, now); }
    case ReadDone(now) => ReadDoneGrows(c, now, incoming);
    case _ =>
  }
}
