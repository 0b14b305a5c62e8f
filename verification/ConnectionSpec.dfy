// One endpoint of a connection as a value: what each call and each completion handler does to it.
// Handlers run one at a time on the io_context; a throw inside a handler ends the run (`crashed`).

module ConnectionSpec {
  import opened Bytes
  import opened Packets
  import opened Framing

  /** ToClient is the server's end of a connection, ToServer the client's. */
  datatype Direction = ToClient | ToServer

  /** The TimePoint_t() of the standard clock. */
  const EPOCH := 0

  /** What an application hands to `Send`: a packet of its own or one of the reserved ones. */
  datatype Packet =
    | GamePacket(id: byte, body: seq<byte>)
    | PingPacket(payload: uint64)
    | InitPacket(init: Init)

  function IdOf(p: Packet): byte {
    match p
    case GamePacket(id, _) => id
    case PingPacket(_) => KEEP_ALIVE_ID
    case InitPacket(_) => INIT_ID
  }

  function BodyOf(p: Packet): seq<byte> {
    match p
    case GamePacket(_, body) => body
    case PingPacket(payload) => EncPing(payload)
    case InitPacket(init) => EncInit(init)
  }

  /** Work posted to the io_context, in order. */
  datatype Post = PostSend(info: SendInfo) | PostClose

  /** The pending asynchronous write and the bytes it has not handed to the socket yet. */
  datatype WriteOp = NoWrite | WritingHeader(left: seq<byte>) | WritingBody(left: seq<byte>)

  /** The pending asynchronous read and the bytes it has got so far. */
  datatype ReadOp = NoRead | ReadingHeader(got: seq<byte>) | ReadingBody(got: seq<byte>)

  /** The sending half, with its history: packets accepted by `Send`, packets written out, bytes
      handed to the socket, and how many asynchronous writes were started and have ended. */
  datatype Writer = Writer(
    posts: seq<Post>,
    messagesOut: seq<SendInfo>,
    op: WriteOp,
    sentCount: nat,
    accepted: seq<SendInfo>,
    finished: seq<SendInfo>,
    emitted: seq<byte>,
    started: nat,
    ended: nat)

  /** The receiving half, with its history: packets read in (headers as on the wire), bytes taken
      from the socket, and how many asynchronous reads were started and have ended. `messagesIn` is
      what this connection pushed to the incoming queue. */
  datatype Reader = Reader(
    wip: SendInfo,
    op: ReadOp,
    messagesIn: seq<SendInfo>,
    receivedCount: nat,
    received: seq<SendInfo>,
    consumed: seq<byte>,
    started: nat,
    ended: nat)

  /** `pongAt` is history: when the last pong was processed, at first the time of creation. */
  datatype Conn = Conn(
    direction: Direction,
    isOpen: bool,
    isConnecting: bool,
    crashed: bool,
    initPacket: Option<Packet>,
    lastKeepAliveValue: uint64,
    lastKeepAlive: int,
    lastReceived: int,
    lastSent: int,
    pongAt: int,
    w: Writer,
    r: Reader)

  const NO_MESSAGE := SendInfo(Header(0, 0, 0), [])

  const FRESH_READER := Reader(NO_MESSAGE, NoRead, [], 0, [], [], 0, 0)

  function Created(direction: Direction, isOpen: bool, now: int): Conn {
    Conn(direction, isOpen, false, false, None, 0, now, now, now, now,
         Writer([], [], NoWrite, 0, [], [], [], 0, 0), FRESH_READER)
  }

  predicate IsConnected(c: Conn) {
    c.isOpen && !c.isConnecting
  }

  // ---- Sending ----------------------------------------------------------------------------------

  /** The server remembers the payload of a ping. The test on the size looks at its network form. */
  predicate RemembersPing(sender: Direction, p: Packet) {
    var info := Packed(IdOf(p), BodyOf(p));
    sender.ToClient? && info.header.id == KEEP_ALIVE_ID && info.header.flags == 0 && info.header.size >= PING_SIZE
  }

  /** What a caller of `Send` can check so that no body is reinterpreted past its end. */
  predicate SendReadsInside(sender: Direction, p: Packet) {
    sender.ToServer? || IdOf(p) != KEEP_ALIVE_ID || |BodyOf(p)| == 0 || |BodyOf(p)| >= PING_SIZE
  }

  /** Which packets are remembered: the size test sees the two bytes of the size swapped. */
  lemma RemembersPingIff(sender: Direction, p: Packet)
    ensures RemembersPing(sender, p) <==>
              && sender.ToClient? && IdOf(p) == KEEP_ALIVE_ID
              && (|BodyOf(p)| % 256 != 0 || |BodyOf(p)| / 256 % 256 >= PING_SIZE)
  {
    SwappedTestIff(|BodyOf(p)|);
  }

  lemma SwappedTestIff(n: nat)
    ensures Swap16(n % (UINT16_MAX + 1)) >= PING_SIZE <==> n % 256 != 0 || n / 256 % 256 >= PING_SIZE
  {
    var size := n % (UINT16_MAX + 1);
    assert size % 256 == n % 256 && size / 256 == n / 256 % 256;
  }

  /** The caller's check is exact: without it, and only then, `Send` reads past the end of a body. */
  lemma SendReadsInsideIff(sender: Direction, p: Packet)
    ensures SendReadsInside(sender, p) <==> (RemembersPing(sender, p) ==> |BodyOf(p)| >= PING_SIZE)
  {
    RemembersPingIff(sender, p);
  }

  /** For a keep-alive of the server with a body the size field can hold, the test does what it is
      for, to remember exactly the bodies long enough, unless the body has 1 to 7 bytes (remembered) or
      256, 512, ... or 1792 bytes (not remembered). */
  lemma SizeTestMeansLengthIff(p: Packet)
    requires IdOf(p) == KEEP_ALIVE_ID && |BodyOf(p)| <= UINT16_MAX
    ensures var n := |BodyOf(p)|;
            (RemembersPing(ToClient, p) <==> n >= PING_SIZE) <==>
            !(0 < n < PING_SIZE) && !(n % 256 == 0 && 0 < n / 256 < PING_SIZE)
  {
    RemembersPingIff(ToClient, p);
    var n := |BodyOf(p)|;
    assert n / 256 % 256 == n / 256;
    assert n < PING_SIZE ==> n % 256 == n;
  }

  /** Both ways the test fails. */
  lemma SizeTestFails(short: Packet, long: Packet)
    requires short == GamePacket(KEEP_ALIVE_ID, [1]) && long == GamePacket(KEEP_ALIVE_ID, seq(256, _ => 0))
    ensures RemembersPing(ToClient, short) && !SendReadsInside(ToClient, short)
    ensures !RemembersPing(ToClient, long) && |BodyOf(long)| >= PING_SIZE
  {
    RemembersPingIff(ToClient, short);
    RemembersPingIff(ToClient, long);
  }

  /** What the sender expects in the next pong after sending `p`. */
  function Remembered(sender: Direction, value: uint64, p: Packet): uint64
    requires SendReadsInside(sender, p)
  {
    SendReadsInsideIff(sender, p);
    if RemembersPing(sender, p) then RawPayload(BodyOf(p)) else value
  }

  function Posted(w: Writer, info: SendInfo): Writer {
    w.(posts := w.posts + [PostSend(info)], accepted := w.accepted + [info])
  }

  function Send(c: Conn, p: Packet): Conn
    requires IsConnected(c) && SendReadsInside(c.direction, p)
  {
    c.(lastKeepAliveValue := Remembered(c.direction, c.lastKeepAliveValue, p),
       w := Posted(c.w, Packed(IdOf(p), BodyOf(p))))
  }

  /** The same for any packet: when the body is read past its end, `beyond` is what comes of it. */
  function SendAny(c: Conn, p: Packet, beyond: uint64): Conn
    requires IsConnected(c)
  {
    if SendReadsInside(c.direction, p) then Send(c, p)
    else c.(lastKeepAliveValue := beyond, w := Posted(c.w, Packed(IdOf(p), BodyOf(p))))
  }

  function Disconnect(c: Conn): Conn {
    if IsConnected(c) then c.(w := c.w.(posts := c.w.posts + [PostClose])) else c
  }

  function Crash(c: Conn): Conn {
    c.(crashed := true)
  }

  function Close(c: Conn): Conn {
    c.(isOpen := false)
  }

  function HeaderStarted(w: Writer): Writer
    requires w.messagesOut != []
  {
    w.(op := WritingHeader(HeaderBytes(w.messagesOut[0].header)), started := w.started + 1)
  }

  /** The write of the header ended and that of the body starts. */
  function BodyStarted(w: Writer): Writer
    requires w.messagesOut != []
  {
    w.(op := WritingBody(w.messagesOut[0].body), started := w.started + 1, ended := w.ended + 1)
  }

  function WriteEnded(w: Writer): Writer {
    w.(op := NoWrite, ended := w.ended + 1)
  }

  /** Throws when not connected. */
  function WriteHeader(c: Conn): Conn
    requires c.w.messagesOut != []
  {
    if IsConnected(c) then c.(w := HeaderStarted(c.w)) else Crash(c)
  }

  function PostTaken(w: Writer): Writer
    requires w.posts != []
  {
    w.(posts := w.posts[1..],
       messagesOut := match w.posts[0] case PostSend(info) => w.messagesOut + [info] case PostClose => w.messagesOut)
  }

  /** A post runs: close, or queue a message and start writing if nothing was being written. */
  function RunPost(c: Conn): Conn
    requires c.w.posts != []
  {
    var d := c.(w := PostTaken(c.w));
    if c.w.posts[0].PostClose? then Close(d)
    else if c.w.messagesOut == [] then WriteHeader(d) else d
  }

  function FrontDropped(w: Writer): Writer
    requires w.messagesOut != []
  {
    WriteEnded(w).(messagesOut := w.messagesOut[1..], sentCount := w.sentCount + 1,
                   finished := w.finished + [w.messagesOut[0]])
  }

  /** The front message is on its way: drop it and start on the next one. */
  function MessageWritten(c: Conn, now: int): Conn
    requires c.w.messagesOut != []
  {
    var d := c.(w := FrontDropped(c.w), lastSent := now);
    if d.w.messagesOut != [] then WriteHeader(d) else d
  }

  function HeaderWritten(c: Conn, now: int): Conn
    requires c.w.messagesOut != []
  {
    if c.w.messagesOut[0].body != [] then c.(w := BodyStarted(c.w))
    else MessageWritten(c, now)
  }

  function WriteFailed(c: Conn): Conn {
    Close(c).(w := WriteEnded(c.w))
  }

  // ---- Receiving --------------------------------------------------------------------------------

  function HostHeader(h: Header): Header {
    h.(size := Swap16(h.size))
  }

  function ReadHeader(r: Reader): Reader {
    r.(op := ReadingHeader([]), started := r.started + 1)
  }

  /** The read of the header ended and that of the body starts. */
  function BodyAwaited(r: Reader): Reader {
    r.(op := ReadingBody([]), started := r.started + 1, ended := r.ended + 1)
  }

  function ReadEnded(r: Reader): Reader {
    r.(op := NoRead, ended := r.ended + 1)
  }

  /** The message in the making is whole. */
  predicate WipWhole(r: Reader) {
    r.wip.header.size > 0 ==> |r.wip.body| == r.wip.header.size
  }

  /** The message just read, as it was on the wire. */
  function WipOnWire(r: Reader): SendInfo {
    SendInfo(HostHeader(r.wip.header), if r.wip.header.size == 0 then [] else r.wip.body)
  }

  function Counted(r: Reader): Reader {
    ReadEnded(r).(receivedCount := r.receivedCount + 1, received := r.received + [WipOnWire(r)])
  }

  function Delivering(r: Reader): Reader {
    ReadHeader(r.(messagesIn := r.messagesIn + [r.wip]))
  }

  function Deliver(c: Conn): Conn {
    c.(r := Delivering(c.r))
  }

  /** The client answers a ping with its payload; the answer throws when not connected. */
  function Echo(c: Conn, now: int): Conn
    requires |c.r.wip.body| >= PING_SIZE
  {
    var d := c.(lastKeepAlive := now);
    var pong := PingPacket(RawPayload(c.r.wip.body));
    if IsConnected(d) && SendReadsInside(d.direction, pong) then Send(d, pong) else Crash(d)
  }

  /** The server compares a pong with the last ping it sent; a mismatch marks it for removal. */
  function Stamp(c: Conn, now: int): Conn
    requires |c.r.wip.body| >= PING_SIZE
  {
    c.(lastKeepAlive := if RawPayload(c.r.wip.body) == c.lastKeepAliveValue then now else EPOCH, pongAt := now)
  }

  predicate GoodKeepAlive(h: Header) {
    h.flags == 0 && h.size == PING_SIZE
  }

  predicate GoodInit(m: SendInfo) {
    m.header.flags == 0 && m.header.size == INIT_SIZE && |m.body| == INIT_SIZE && KnownNext(NextOf(m.body))
  }

  /** A keep-alive message was counted; both ends also deliver it. */
  function KeepAliveArrived(c: Conn, now: int): Conn
    requires WipWhole(c.r)
  {
    if !GoodKeepAlive(c.r.wip.header) then Crash(c)
    else if c.direction.ToClient? then Deliver(Stamp(c, now))
    else if Echo(c, now).crashed then Echo(c, now)
    else Deliver(Echo(c, now))
  }

  /** A counted message is answered or stamped, stops the connection, throws, or is delivered. */
  function Judged(c: Conn, now: int): Conn
    requires WipWhole(c.r)
  {
    if c.r.wip.header.id == KEEP_ALIVE_ID then KeepAliveArrived(c, now)
    else if c.r.wip.header.id == INIT_ID && c.direction.ToClient? then (if GoodInit(c.r.wip) then c else Crash(c))
    else Deliver(c)
  }

  function MessageCounted(c: Conn, now: int): Conn {
    c.(r := Counted(c.r), lastReceived := now)
  }

  /** A whole message was read. */
  function AddToIncoming(c: Conn, now: int): Conn
    requires WipWhole(c.r)
  {
    Judged(MessageCounted(c, now), now)
  }

  function HeaderIn(r: Reader, bytes: seq<byte>): Reader
    requires |bytes| == HEADER_SIZE
  {
    r.(wip := r.wip.(header := HostHeader(HeaderFrom(bytes))))
  }

  function HeaderRead(c: Conn, bytes: seq<byte>, now: int): Conn
    requires |bytes| == HEADER_SIZE
  {
    var d := c.(r := HeaderIn(c.r, bytes));
    if d.r.wip.header.size == 0 then AddToIncoming(d, now) else d.(r := BodyAwaited(d.r))
  }

  const COMPRESSED: byte := 1

  predicate IsCompressed(h: Header) {
    h.flags % 2 == COMPRESSED
  }

  function BodyIn(r: Reader, bytes: seq<byte>): Reader {
    r.(wip := r.wip.(body := bytes))
  }

  function ReadFailed(c: Conn): Conn {
    Close(c).(r := ReadEnded(c.r))
  }

  function BodyRead(c: Conn, bytes: seq<byte>, now: int): Conn
    requires |bytes| == c.r.wip.header.size
  {
    var d := c.(r := BodyIn(c.r, bytes));
    if IsCompressed(d.r.wip.header) then ReadFailed(d) else AddToIncoming(d, now)
  }

  // ---- Connecting -------------------------------------------------------------------------------

  function ConnectToClient(c: Conn): Conn
    requires c.direction.ToClient?
  {
    if c.isOpen then c.(r := ReadHeader(c.r)) else c
  }

  function ConnectToServer(c: Conn, initPacket: Option<Packet>): Conn
    requires c.direction.ToServer?
  {
    c.(isConnecting := true, initPacket := initPacket)
  }

  /** The connect completed: introduce yourself, if there is something to say, and listen. */
  function Connected(c: Conn, ok: bool): Conn
    requires c.direction.ToServer?
  {
    var d := c.(isConnecting := false, isOpen := ok);
    if !ok then d
    else
      var e := match c.initPacket case None => d case Some(p) => Send(d, p);
      e.(r := ReadHeader(e.r))
  }

  // ---- One step of an endpoint ------------------------------------------------------------------

  /** Application calls, handler completions and the socket moving bytes. */
  datatype Action =
    | AppSend(packet: Packet)
    | AppDisconnect
    | PostRuns
    | WriteSome(k: nat)
    | WriteDone(at: int)
    | WriteFails
    | ReadSome(k: nat)
    | ReadDone(at: int)
    | ReadFails
    | ConnectDone(ok: bool)

  /** The endpoint after a step, the bytes it put on the wire and how many it took from it. */
  datatype Effect = Effect(conn: Conn, out: seq<byte>, taken: nat)

  function Quiet(c: Conn): Effect {
    Effect(c, [], 0)
  }

  /** `Send` is called only when it neither throws to its caller nor reads outside the body, and the
      body fits the size field. */
  predicate CanSend(c: Conn, p: Packet) {
    IsConnected(c) && SendReadsInside(c.direction, p) && |BodyOf(p)| <= UINT16_MAX
  }

  /** The pending write hands up to `k` of its bytes to the socket. */
  function Handed(w: Writer, k: nat): seq<byte>
    requires !w.op.NoWrite?
  {
    w.op.left[..Min(k, |w.op.left|)]
  }

  function Written(w: Writer, k: nat): Writer
    requires !w.op.NoWrite?
  {
    var left := w.op.left[Min(k, |w.op.left|)..];
    w.(op := if w.op.WritingHeader? then WritingHeader(left) else WritingBody(left),
       emitted := w.emitted + Handed(w, k))
  }

  /** How many bytes a read still wants, of a body of the given size if it is for a body. */
  function WantedBy(op: ReadOp, size: nat): nat {
    match op
    case NoRead => 0
    case ReadingHeader(got) => if |got| <= HEADER_SIZE then HEADER_SIZE - |got| else 0
    case ReadingBody(got) => if |got| <= size then size - |got| else 0
  }

  function Wanted(r: Reader): nat {
    WantedBy(r.op, r.wip.header.size)
  }

  function Taken(r: Reader, bytes: seq<byte>): Reader
    requires !r.op.NoRead?
  {
    var got := r.op.got + bytes;
    r.(op := if r.op.ReadingHeader? then ReadingHeader(got) else ReadingBody(got), consumed := r.consumed + bytes)
  }

  function WriteMoved(c: Conn, k: nat): Effect {
    if c.isOpen && !c.w.op.NoWrite? then Effect(c.(w := Written(c.w, k)), Handed(c.w, k), 0) else Quiet(c)
  }

  /** A pending read gets up to `k` bytes, if there are as many and it wants them. */
  function ReadMoved(c: Conn, k: nat, incoming: seq<byte>): (e: Effect)
    ensures e.taken <= |incoming|
  {
    var n := Min(k, Min(|incoming|, Wanted(c.r)));
    if c.isOpen && !c.r.op.NoRead? then Effect(c.(r := Taken(c.r, incoming[..n])), [], n) else Quiet(c)
  }

  /** The handler of a write runs once all its bytes are on their way. */
  function WriteCompleted(c: Conn, now: int): Conn {
    if c.w.op.NoWrite? || c.w.op.left != [] || c.w.messagesOut == [] then c
    else if c.w.op.WritingHeader? then HeaderWritten(c, now)
    else MessageWritten(c, now)
  }

  /** The handler of a read runs once all its bytes have arrived. */
  function ReadCompleted(c: Conn, now: int): Conn {
    if c.r.op.ReadingHeader? && |c.r.op.got| == HEADER_SIZE then HeaderRead(c, c.r.op.got, now)
    else if c.r.op.ReadingBody? && |c.r.op.got| == c.r.wip.header.size then BodyRead(c, c.r.op.got, now)
    else c
  }

  /** A step that is not enabled changes nothing. */
  function Act(c: Conn, a: Action, incoming: seq<byte>): (e: Effect)
    ensures e.taken <= |incoming|
  {
    if c.crashed then Quiet(c)
    else
      match a
      case AppSend(p) => Quiet(if CanSend(c, p) then Send(c, p) else c)
      case AppDisconnect => Quiet(Disconnect(c))
      case PostRuns => Quiet(if c.w.posts != [] then RunPost(c) else c)
      case WriteSome(k) => WriteMoved(c, k)
      case WriteDone(now) => Quiet(WriteCompleted(c, now))
      case WriteFails => Quiet(if c.w.op.NoWrite? then c else WriteFailed(c))
      case ReadSome(k) => ReadMoved(c, k, incoming)
      case ReadDone(now) => Quiet(ReadCompleted(c, now))
      case ReadFails => Quiet(if c.r.op.NoRead? then c else ReadFailed(c))
      case ConnectDone(ok) => Quiet(if c.isConnecting && c.direction.ToServer? then Connected(c, ok) else c)
  }

  lemma ActReadDone(c: Conn, now: int, incoming: seq<byte>)
    ensures Act(c, ReadDone(now), incoming) == Quiet(if c.crashed then c else ReadCompleted(c, now))
  {
  }
}
