// Connection: the object whose fields the handlers update, proved against ConnectionSpec.

module Connections {
  import opened Bytes
  import opened Buffers
  import opened Packets
  import opened Framing
  import opened Queues
  import Spec = ConnectionSpec
  import opened ConnectionSound

  /** A received message and, on the server, the connection it came from. */
  datatype OwnedMessage = OwnedMessage(owner: Connection?, message: SendInfo)

  /** The `Write` of a packet. */
  method WritePacket(p: Spec.Packet, buffer: PacketBuffer)
    requires buffer.Valid() && buffer.View() == [] && |Spec.BodyOf(p)| <= UINT32_MAX
    modifies buffer
    ensures buffer.Valid() && buffer.View() == Spec.BodyOf(p)
  {
    var ok;
    match p
    case GamePacket(_, body) => ok := buffer.WriteEach(body);
    case PingPacket(payload) => ok := WritePing(buffer, payload);
    case InitPacket(init) => ok := WriteInit(buffer, init);
  }

  class Connection {
    const direction: Spec.Direction
    var isOpen: bool
    var isConnecting: bool
    var crashed: bool
    var initPacket: Option<Spec.Packet>
    var lastKeepAliveValue: uint64
    var lastKeepAlive: int
    var lastReceived: int
    var lastSent: int

    /** Handlers posted to the io_context for this connection. */
    var posts: seq<Spec.Post>
    const messagesOut: ThreadSafeQueue<SendInfo>
    /** The pending asynchronous operations. */
    var write: Spec.WriteOp
    var read: Spec.ReadOp
    var wip: SendInfo
    /** The queue of the owner of this connection. */
    const messagesIn: ThreadSafeQueue<OwnedMessage>
    var receivedCount: nat
    var sentCount: nat

    ghost var pongAt: int
    ghost var accepted: seq<SendInfo>
    ghost var finished: seq<SendInfo>
    ghost var emitted: seq<byte>
    ghost var writesStarted: nat
    ghost var writesEnded: nat
    ghost var delivered: seq<SendInfo>
    ghost var received: seq<SendInfo>
    ghost var consumed: seq<byte>
    ghost var readsStarted: nat
    ghost var readsEnded: nat

    ghost predicate Valid() {
      messagesOut as object != messagesIn as object
    }

    ghost function SendingHalf(): Spec.Writer
      reads this`posts, this`write, this`sentCount, this`accepted, this`finished, this`emitted
      reads this`writesStarted, this`writesEnded, messagesOut
    {
      Spec.Writer(posts, messagesOut.data, write, sentCount, accepted, finished, emitted, writesStarted, writesEnded)
    }

    ghost function ReceivingHalf(): Spec.Reader
      reads this`wip, this`read, this`delivered, this`receivedCount, this`received, this`consumed
      reads this`readsStarted, this`readsEnded
    {
      Spec.Reader(wip, read, delivered, receivedCount, received, consumed, readsStarted, readsEnded)
    }

    ghost function State(): Spec.Conn
      reads this, messagesOut
    {
      Spec.Conn(direction, isOpen, isConnecting, crashed, initPacket, lastKeepAliveValue, lastKeepAlive,
                lastReceived, lastSent, pongAt, SendingHalf(), ReceivingHalf())
    }

    constructor (direction: Spec.Direction, isOpen: bool, now: int, messagesIn: ThreadSafeQueue<OwnedMessage>)
      ensures Valid() && fresh(messagesOut) && this.messagesIn == messagesIn
      ensures State() == Spec.Created(direction, isOpen, now)
    {
      this.direction, this.isOpen, this.isConnecting, this.crashed := direction, isOpen, false, false;
      this.initPacket, this.lastKeepAliveValue := None, 0;
      this.lastKeepAlive, this.lastReceived, this.lastSent := now, now, now;
      this.messagesOut := new ThreadSafeQueue<SendInfo>();
      this.messagesIn := messagesIn;
      this.posts, this.write, this.read, this.wip := [], Spec.NoWrite, Spec.NoRead, Spec.NO_MESSAGE;
      this.receivedCount, this.sentCount := 0, 0;
      this.pongAt, this.accepted, this.finished, this.emitted := now, [], [], [];
      this.delivered, this.received, this.consumed := [], [], [];
      this.writesStarted, this.writesEnded, this.readsStarted, this.readsEnded := 0, 0, 0, 0;
    }

    predicate Connected()
      reads this`isOpen, this`isConnecting
      ensures Connected() <==> isOpen && !isConnecting
    {
      isOpen && !isConnecting
    }

    /** Throws when not connected. For a body too short to be reinterpreted, `beyond` stands for what
        reading past its end gives. */
    method Send(p: Spec.Packet, beyond: uint64) returns (ok: bool)
      requires |Spec.BodyOf(p)| <= UINT32_MAX
      modifies this`lastKeepAliveValue, this`posts, this`accepted
      ensures ok == Spec.IsConnected(old(State()))
      ensures State() == if ok then Spec.SendAny(old(State()), p, beyond) else old(State())
    {
      if !Connected() {
        return false;
      }
      var info := Pack(p);
      Spec.SendReadsInsideIff(direction, p);
      if direction.ToClient? {
        if info.header.id == KEEP_ALIVE_ID {
          if info.header.flags == 0 && info.header.size >= PING_SIZE {
            lastKeepAliveValue := if |info.body| >= PING_SIZE then RawPayload(info.body) else beyond;
          }
        }
      }
      PostMessage(info);
      ok := true;
    }

    /** Leaves the queueing of the message to the io_context. */
    method PostMessage(info: SendInfo)
      modifies this`posts, this`accepted
      ensures State() == old(State()).(w := Spec.Posted(old(State()).w, info))
    {
      posts := posts + [Spec.PostSend(info)];
      accepted := accepted + [info];
    }

    /** Header and body of a packet to send. */
    method Pack(p: Spec.Packet) returns (info: SendInfo)
      requires |Spec.BodyOf(p)| <= UINT32_MAX
      ensures info == Packed(Spec.IdOf(p), Spec.BodyOf(p))
    {
      var buffer := new PacketBuffer();
      WritePacket(p, buffer);
      var size := buffer.Size();
      info := SendInfo(Header(Spec.IdOf(p), 0, Swap16(size % (UINT16_MAX + 1))), buffer.data[buffer.startOffset..]);
    }

    method Disconnect()
      modifies this`posts
      ensures State() == Spec.Disconnect(old(State()))
    {
      if Connected() {
        posts := posts + [Spec.PostClose];
      }
    }

    /** A posted handler runs. */
    method OnPost()
      requires posts != []
      modifies this, messagesOut
      ensures State() == Spec.RunPost(old(State()))
    {
      var post := posts[0];
      posts := posts[1..];
      match post
      case PostClose => isOpen := false;
      case PostSend(info) =>
        var empty := messagesOut.LooksEmpty();
        messagesOut.PushBackItem(info);
        if empty {
          WriteHeader();
        }
    }

    method WriteHeader()
      requires messagesOut.data != []
      modifies this`crashed, this`write, this`writesStarted
      ensures State() == Spec.WriteHeader(old(State()))
    {
      if !Connected() {
        crashed := true;
        return;
      }
      var front := messagesOut.Peek(true);
      write := Spec.WritingHeader(HeaderBytes(front.header));
      writesStarted := writesStarted + 1;
    }

    method OnHeaderWritten(now: int)
      requires messagesOut.data != []
      modifies this, messagesOut
      ensures State() == Spec.HeaderWritten(old(State()), now)
    {
      var front := messagesOut.Peek(true);
      if front.body != [] {
        WriteBody();
      } else {
        OnBodyWritten(now);
      }
    }

    /** The front message is written: also the end of a message without a body. */
    method OnBodyWritten(now: int)
      requires messagesOut.data != []
      modifies this, messagesOut
      ensures State() == Spec.MessageWritten(old(State()), now)
    {
      var front := messagesOut.PopFrontItem();
      finished := finished + [front];
      EndWrite();
      lastSent := now;
      sentCount := sentCount + 1;
      assert State() == old(State()).(w := Spec.FrontDropped(old(State()).w), lastSent := now);
      var empty := messagesOut.LooksEmpty();
      if !empty {
        WriteHeader();
      }
    }

    method OnWriteFailed()
      modifies this`isOpen, this`write, this`writesEnded
      ensures State() == Spec.WriteFailed(old(State()))
    {
      isOpen := false;
      EndWrite();
    }

    /** The pending write is over. */
    method EndWrite()
      modifies this`write, this`writesEnded
      ensures State() == old(State()).(w := Spec.WriteEnded(old(SendingHalf())))
    {
      write, writesEnded := Spec.NoWrite, writesEnded + 1;
    }

    method WriteBody()
      requires messagesOut.data != []
      modifies this`write, this`writesStarted, this`writesEnded
      ensures State() == old(State()).(w := Spec.BodyStarted(old(SendingHalf())))
    {
      var front := messagesOut.Peek(true);
      write := Spec.WritingBody(front.body);
      writesStarted, writesEnded := writesStarted + 1, writesEnded + 1;
    }

    method ReadHeader()
      modifies this`read, this`readsStarted
      ensures State() == old(State()).(r := Spec.ReadHeader(old(State()).r))
    {
      read, readsStarted := Spec.ReadingHeader([]), readsStarted + 1;
    }

    method ReadBody()
      modifies this`read, this`readsStarted, this`readsEnded
      ensures State() == old(State()).(r := Spec.BodyAwaited(old(ReceivingHalf())))
    {
      read := Spec.ReadingBody([]);
      readsStarted, readsEnded := readsStarted + 1, readsEnded + 1;
    }

    method OnHeaderRead(bytes: seq<byte>, now: int)
      requires Valid() && !crashed && |bytes| == HEADER_SIZE
      modifies this, messagesIn
      ensures State() == Spec.HeaderRead(old(State()), bytes, now)
      ensures old(delivered) <= delivered
      ensures messagesIn.data == old(messagesIn.data) + Owned(delivered[|old(delivered)|..])
    {
      wip := SendInfo(HeaderFrom(bytes), wip.body);
      wip := wip.(header := wip.header.(size := Swap16(wip.header.size)));
      if wip.header.size == 0 {
        AddToIncomingMessageQueue(now);
      } else {
        ReadBody();
      }
    }

    method OnBodyRead(bytes: seq<byte>, now: int)
      requires Valid() && !crashed && |bytes| == wip.header.size
      modifies this, messagesIn
      ensures State() == Spec.BodyRead(old(State()), bytes, now)
      ensures old(delivered) <= delivered
      ensures messagesIn.data == old(messagesIn.data) + Owned(delivered[|old(delivered)|..])
    {
      wip := wip.(body := bytes);
      if Spec.IsCompressed(wip.header) {
        OnReadFailed();
      } else {
        AddToIncomingMessageQueue(now);
      }
    }

    method OnReadFailed()
      modifies this`isOpen, this`read, this`readsEnded
      ensures State() == Spec.ReadFailed(old(State()))
    {
      isOpen := false;
      EndRead();
    }

    /** The pending read is over. */
    method EndRead()
      modifies this`read, this`readsEnded
      ensures ReceivingHalf() == Spec.ReadEnded(old(ReceivingHalf()))
    {
      read, readsEnded := Spec.NoRead, readsEnded + 1;
    }

    /** Messages of this connection as the incoming queue holds them. */
    ghost function Owned(ms: seq<SendInfo>): seq<OwnedMessage> {
      seq(|ms|, i requires 0 <= i < |ms| => OwnedMessage(if direction.ToClient? then this else null, ms[i]))
    }

    /** A whole message was read: count it, then see what it is. */
    method AddToIncomingMessageQueue(now: int)
      requires Valid() && !crashed && Spec.WipWhole(State().r)
      modifies this, messagesIn
      ensures State() == Spec.AddToIncoming(old(State()), now)
      ensures old(delivered) <= delivered
      ensures messagesIn.data == old(messagesIn.data) + Owned(delivered[|old(delivered)|..])
    {
      CountMessage(now);
      JudgeMessage(now);
    }

    method CountMessage(now: int)
      modifies this`received, this`read, this`readsEnded, this`lastReceived, this`receivedCount
      ensures State() == Spec.MessageCounted(old(State()), now)
    {
      lastReceived := now;
      RecordMessage();
      assert SendingHalf() == old(SendingHalf());
    }

    method RecordMessage()
      modifies this`received, this`read, this`readsEnded, this`receivedCount
      ensures ReceivingHalf() == Spec.Counted(old(ReceivingHalf()))
    {
      receivedCount := receivedCount + 1;
      received := received + [SendInfo(Spec.HostHeader(wip.header), if wip.header.size == 0 then [] else wip.body)];
      EndRead();
    }

    method JudgeMessage(now: int)
      requires Valid() && !crashed && Spec.WipWhole(State().r)
      modifies this, messagesIn
      ensures State() == Spec.Judged(old(State()), now)
      ensures old(delivered) <= delivered
      ensures messagesIn.data == old(messagesIn.data) + Owned(delivered[|old(delivered)|..])
    {
      if wip.header.id == KEEP_ALIVE_ID {
        var ok := OnKeepAlive(now);
        if ok {
          DeliverMessage();
        }
      } else if wip.header.id == INIT_ID && direction.ToClient? {
        OnInit();
      } else {
        DeliverMessage();
      }
    }

    method DeliverMessage()
      requires Valid()
      modifies this`delivered, this`read, this`readsStarted, messagesIn
      ensures State() == Spec.Deliver(old(State()))
      ensures old(delivered) <= delivered
      ensures messagesIn.data == old(messagesIn.data) + Owned(delivered[|old(delivered)|..])
    {
      messagesIn.PushBackItem(OwnedMessage(if direction.ToClient? then this else null, wip));
      delivered := delivered + [wip];
      assert delivered[|old(delivered)|..] == [wip];
      ReadHeader();
    }

    /** The keep-alive part of the above; a throw in it is a throw of the handler. */
    method OnKeepAlive(now: int) returns (ok: bool)
      requires !crashed && Spec.WipWhole(State().r)
      modifies this`crashed, this`lastKeepAlive, this`pongAt, this`lastKeepAliveValue, this`posts, this`accepted
      ensures ok == !crashed
      ensures !Spec.GoodKeepAlive(wip.header) ==> State() == Spec.Crash(old(State()))
      ensures Spec.GoodKeepAlive(wip.header) ==>
                State() == if direction.ToClient? then Spec.Stamp(old(State()), now) else Spec.Echo(old(State()), now)
    {
      if wip.header.flags != 0 || wip.header.size != PING_SIZE {
        crashed := true;
        return false;
      }
      var payload := RawPayload(wip.body);
      ok := true;
      if direction.ToServer? {
        lastKeepAlive := now;
        ok := Send(Spec.PingPacket(payload), 0);
        crashed := !ok;
      } else {
        lastKeepAlive := if payload == lastKeepAliveValue then now else Spec.EPOCH;
        pongAt := now;
      }
    }

    /** The Init part: nothing is delivered and no further read is started. */
    method OnInit()
      requires !crashed && Spec.WipWhole(State().r)
      modifies this`crashed
      ensures State() == if Spec.GoodInit(wip) then old(State()) else Spec.Crash(old(State()))
    {
      if wip.header.flags != 0 || wip.header.size != INIT_SIZE {
        crashed := true;
        return;
      }
      var buffer := new PacketBuffer();
      var ok := buffer.WriteBlock(wip.body);
      assert buffer.View() == wip.body;
      var init := ReadInit(buffer);
      NextOfDecoded(wip.body);
      if !KnownNext(init.value.next) {
        crashed := true;
      }
    }

    method ConnectToClient()
      requires direction.ToClient?
      modifies this`read, this`readsStarted
      ensures State() == Spec.ConnectToClient(old(State()))
    {
      if isOpen {
        ReadHeader();
      }
    }

    method ConnectToServer(initPacket: Option<Spec.Packet>)
      requires direction.ToServer?
      modifies this`isConnecting, this`initPacket
      ensures State() == Spec.ConnectToServer(old(State()), initPacket)
    {
      isConnecting := true;
      this.initPacket := initPacket;
    }

    /** The connect completed. */
    method OnConnected(ok: bool)
      requires direction.ToServer?
      requires initPacket.Some? ==> |Spec.BodyOf(initPacket.value)| <= UINT32_MAX
      modifies this
      ensures State() == Spec.Connected(old(State()), ok)
    {
      isConnecting := false;
      isOpen := ok;
      if ok {
        if initPacket.Some? {
          var sent := Send(initPacket.value, 0);
        }
        ReadHeader();
      }
    }

    // ---- Any step -------------------------------------------------------------------------------

    /** The socket takes some bytes of the pending write. */
    method WriteSome(k: nat) returns (out: seq<byte>)
      requires !write.NoWrite?
      modifies this`write, this`emitted
      ensures out == Spec.Handed(old(SendingHalf()), k) && SendingHalf() == Spec.Written(old(SendingHalf()), k)
    {
      var n := Min(k, |write.left|);
      out := write.left[..n];
      emitted := emitted + out;
      write := if write.WritingHeader? then Spec.WritingHeader(write.left[n..]) else Spec.WritingBody(write.left[n..]);
    }

    /** The pending read gets some bytes. */
    method ReadSome(bytes: seq<byte>)
      requires !read.NoRead?
      modifies this`read, this`consumed
      ensures ReceivingHalf() == Spec.Taken(old(ReceivingHalf()), bytes)
    {
      consumed := consumed + bytes;
      read := if read.ReadingHeader? then Spec.ReadingHeader(read.got + bytes) else Spec.ReadingBody(read.got + bytes);
    }

    method DoCall(a: Spec.Action, ghost incoming: seq<byte>)
      requires Valid() && !crashed && Sound(State()) && (a.AppSend? || a.AppDisconnect? || a.ConnectDone?)
      modifies this
      ensures State() == Spec.Act(old(State()), a, incoming).conn
      ensures Spec.Act(old(State()), a, incoming).out == [] && Spec.Act(old(State()), a, incoming).taken == 0
      ensures ReceivingHalf().messagesIn == old(ReceivingHalf()).messagesIn
    {
      match a
      case AppSend(p) =>
        if Connected() && Spec.SendReadsInside(direction, p) && |Spec.BodyOf(p)| <= UINT16_MAX {
          var ok := Send(p, 0);
        }
      case AppDisconnect => Disconnect();
      case ConnectDone(ok) =>
        if isConnecting && direction.ToServer? {
          OnConnected(ok);
        }
    }

    method DoWriteSome(k: nat) returns (out: seq<byte>)
      modifies this`write, this`emitted
      ensures State() == Spec.WriteMoved(old(State()), k).conn && out == Spec.WriteMoved(old(State()), k).out
    {
      out := [];
      if isOpen && !write.NoWrite? {
        out := WriteSome(k);
      }
    }

    method DoWriteDone(now: int)
      requires !crashed && Sound(State())
      modifies this, messagesOut
      ensures State() == Spec.WriteCompleted(old(State()), now)
    {
      if !write.NoWrite? && write.left == [] {
        if write.WritingHeader? {
          OnHeaderWritten(now);
        } else {
          OnBodyWritten(now);
        }
      }
    }

    method DoWrite(a: Spec.Action, ghost incoming: seq<byte>) returns (out: seq<byte>)
      requires Valid() && !crashed && Sound(State())
      requires a.PostRuns? || a.WriteSome? || a.WriteDone? || a.WriteFails?
      modifies this, messagesOut
      ensures State() == Spec.Act(old(State()), a, incoming).conn && out == Spec.Act(old(State()), a, incoming).out
      ensures Spec.Act(old(State()), a, incoming).taken == 0
      ensures ReceivingHalf() == old(ReceivingHalf())
    {
      out := [];
      match a
      case PostRuns =>
        if posts != [] {
          OnPost();
        }
      case WriteSome(k) => out := DoWriteSome(k);
      case WriteDone(now) => DoWriteDone(now);
      case WriteFails =>
        if !write.NoWrite? {
          OnWriteFailed();
        }
    }

    method DoReadSome(k: nat, incoming: seq<byte>) returns (taken: nat)
      modifies this`read, this`consumed
      ensures State() == Spec.ReadMoved(old(State()), k, incoming).conn
      ensures taken == Spec.ReadMoved(old(State()), k, incoming).taken
    {
      taken := 0;
      if isOpen && !read.NoRead? {
        taken := Min(k, Min(|incoming|, Spec.WantedBy(read, wip.header.size)));
        ReadSome(incoming[..taken]);
      }
    }

    method DoReadDone(now: int)
      requires Valid() && !crashed
      modifies this, messagesIn
      ensures State() == Spec.ReadCompleted(old(State()), now)
      ensures old(delivered) <= delivered
      ensures messagesIn.data == old(messagesIn.data) + Owned(delivered[|old(delivered)|..])
    {
      if read.ReadingHeader? && |read.got| == HEADER_SIZE {
        OnHeaderRead(read.got, now);
      } else if read.ReadingBody? && |read.got| == wip.header.size {
        OnBodyRead(read.got, now);
      }
    }

    method DoRead(a: Spec.Action, incoming: seq<byte>) returns (taken: nat)
      requires Valid() && !crashed && (a.ReadSome? || a.ReadFails?)
      modifies this
      ensures State() == Spec.Act(old(State()), a, incoming).conn
      ensures taken == Spec.Act(old(State()), a, incoming).taken
      ensures Spec.Act(old(State()), a, incoming).out == []
      ensures ReceivingHalf().messagesIn == old(ReceivingHalf()).messagesIn
    {
      taken := 0;
      match a
      case ReadSome(k) => taken := DoReadSome(k, incoming);
      case ReadFails =>
        if !read.NoRead? {
          OnReadFailed();
        }
    }

    /** Any step but the end of a read: nothing is delivered. */
    method DoQuiet(a: Spec.Action, incoming: seq<byte>) returns (out: seq<byte>, taken: nat)
      requires Valid() && !crashed && Sound(State()) && !a.ReadDone?
      modifies this, messagesOut
      ensures State() == Spec.Act(old(State()), a, incoming).conn
      ensures out == Spec.Act(old(State()), a, incoming).out && taken == Spec.Act(old(State()), a, incoming).taken
      ensures ReceivingHalf().messagesIn == old(ReceivingHalf()).messagesIn
    {
      out, taken := [], 0;
      if a.AppSend? || a.AppDisconnect? || a.ConnectDone? {
        DoCall(a, incoming);
      } else if a.ReadSome? || a.ReadFails? {
        taken := DoRead(a, incoming);
      } else {
        out := DoWrite(a, incoming);
      }
    }

    lemma NothingOwned()
      ensures Owned([]) == []
      ensures delivered[|delivered|..] == []
      ensures messagesIn.data + [] == messagesIn.data
    {
    }

    /** Any step of the endpoint, in any order and with any bytes arriving: the object does what `Act`
        does, stays sound, and its owner's queue grows by what it delivered. */
    method Do(a: Spec.Action, incoming: seq<byte>) returns (out: seq<byte>, taken: nat)
      requires Valid() && Sound(State())
      modifies this, messagesOut, messagesIn
      ensures State() == Spec.Act(old(State()), a, incoming).conn && Sound(State())
      ensures out == Spec.Act(old(State()), a, incoming).out && taken == Spec.Act(old(State()), a, incoming).taken
      ensures old(delivered) <= delivered
      ensures messagesIn.data == old(messagesIn.data) + Owned(delivered[|old(delivered)|..])
    {
      ActKeeps(State(), a, incoming);
      NothingOwned();
      out, taken := [], 0;
      if !crashed {
        if a.ReadDone? {
          Spec.ActReadDone(State(), a.at, incoming);
          DoReadDone(a.at);
        } else {
          out, taken := DoQuiet(a, incoming);
        }
      }
    }
  }
}
