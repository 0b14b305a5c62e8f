// Message headers and frames: what a packet looks like in memory and on the wire.

module Framing {
  import opened Bytes
  import opened Packets

  const HEADER_SIZE := 4
  const KEEP_ALIVE_ID: byte := 0xF0
  const INIT_ID: byte := 0xF1

  type uint16 = x: int | 0 <= x <= UINT16_MAX

  /** The 16-bit byte swap between host and network order on a little-endian host. */
  function Swap16(x: uint16): (y: uint16)
    ensures x == 0 <==> y == 0
  {
    (x % 256) * 256 + x / 256
  }

  lemma Swap16Twice(x: uint16)
    ensures Swap16(Swap16(x)) == x
  {
  }

  datatype Header = Header(id: byte, flags: byte, size: uint16)

  datatype SendInfo = SendInfo(header: Header, body: seq<byte>)

  /** The header as it lies in memory. */
  function HeaderBytes(h: Header): (s: seq<byte>)
    ensures |s| == HEADER_SIZE
  {
    [h.id, h.flags, h.size % 256, h.size / 256]
  }

  function HeaderFrom(s: seq<byte>): (h: Header)
    requires |s| == HEADER_SIZE
    ensures HeaderBytes(h) == s
  {
    Header(s[0], s[1], s[2] + 256 * (s[3] as int))
  }

  lemma HeaderBytesInjective(a: Header, b: Header)
    ensures HeaderBytes(a) == HeaderBytes(b) ==> a == b
  {
    assert HeaderBytes(a)[0] == a.id && HeaderBytes(a)[1] == a.flags
        && HeaderBytes(a)[2] == a.size % 256 && HeaderBytes(a)[3] == a.size / 256;
    assert HeaderBytes(b)[0] == b.id && HeaderBytes(b)[1] == b.flags
        && HeaderBytes(b)[2] == b.size % 256 && HeaderBytes(b)[3] == b.size / 256;
  }

  /** A message ready to be written: the header holds the size in network order, cut to 16 bits. */
  function Packed(id: byte, body: seq<byte>): SendInfo {
    SendInfo(Header(id, 0, Swap16(|body| % (UINT16_MAX + 1))), body)
  }

  /** The header of `m` announces the body that follows it. */
  predicate Framed(m: SendInfo) {
    Swap16(m.header.size) == |m.body|
  }

  predicate AllFramed(ms: seq<SendInfo>) {
    forall i | 0 <= i < |ms| :: Framed(ms[i])
  }

  function Frame(m: SendInfo): (s: seq<byte>)
    ensures |s| == HEADER_SIZE + |m.body|
  {
    HeaderBytes(m.header) + m.body
  }

  /** What a message is on the wire, byte by byte: ID, flags, the size with its high byte first, body. */
  predicate IsFrame(m: SendInfo, s: seq<byte>) {
    && |s| == HEADER_SIZE + |m.body| && |m.body| <= UINT16_MAX
    && s[0] == m.header.id && s[1] == m.header.flags
    && s[2] == |m.body| / 256 && s[3] == |m.body| % 256
    && s[HEADER_SIZE..] == m.body
  }

  lemma FrameLayout(m: SendInfo)
    requires Framed(m)
    ensures IsFrame(m, Frame(m))
    ensures HeaderBytes(m.header) == [m.header.id, m.header.flags, |m.body| / 256, |m.body| % 256]
  {
    assert Frame(m)[..HEADER_SIZE] == HeaderBytes(m.header);
  }

  /** The size a receiver sees. */
  lemma SizeFromWire(s: seq<byte>)
    requires |s| == HEADER_SIZE
    ensures var h := HeaderFrom(s);
            h.id == s[0] && h.flags == s[1] && Swap16(h.size) == 256 * (s[2] as int) + s[3]
  {
  }

  function Frames(ms: seq<SendInfo>): seq<byte> {
    if ms == [] then [] else Frames(ms[..|ms| - 1]) + Frame(ms[|ms| - 1])
  }

  /** What a reader takes off the front of a byte stream: one header and the body it announces. */
  function FirstFrame(s: seq<byte>): Option<(SendInfo, seq<byte>)> {
    if |s| < HEADER_SIZE then None
    else
      var h := HeaderFrom(s[..HEADER_SIZE]);
      var n := Swap16(h.size);
      if |s| < HEADER_SIZE + n then None
      else Some((SendInfo(h, s[HEADER_SIZE..HEADER_SIZE + n]), s[HEADER_SIZE + n..]))
  }

  lemma FirstFrameOf(m: SendInfo, rest: seq<byte>)
    requires Framed(m)
    ensures FirstFrame(Frame(m) + rest) == Some((m, rest))
  {
    var s := Frame(m) + rest;
    assert s[..HEADER_SIZE] == HeaderBytes(m.header);
    HeaderBytesInjective(HeaderFrom(s[..HEADER_SIZE]), m.header);
    assert s[HEADER_SIZE..HEADER_SIZE + |m.body|] == m.body;
    assert s[HEADER_SIZE + |m.body|..] == rest;
  }

  /** A sent packet is read back as itself, with the following bytes left alone, exactly when its
      body fits the 16-bit size field. */
  lemma FrameReadBackIff(id: byte, body: seq<byte>, rest: seq<byte>)
    ensures FirstFrame(Frame(Packed(id, body)) + rest) == Some((Packed(id, body), rest))
            <==> |body| <= UINT16_MAX
    ensures Framed(Packed(id, body)) <==> |body| <= UINT16_MAX
  {
    Swap16Twice(|body| % (UINT16_MAX + 1));
    var m := Packed(id, body);
    if |body| <= UINT16_MAX {
      FirstFrameOf(m, rest);
    } else {
      assert Swap16(m.header.size) < |body|;
      var f := FirstFrame(Frame(m) + rest);
      if f.Some? {
        assert |f.value.0.body| == Swap16(f.value.0.header.size) < |body|;
      }
    }
  }

  /** The header of a packet that is sent, for every body the size field can hold. */
  lemma PackedLayout(id: byte, body: seq<byte>)
    requires |body| <= UINT16_MAX
    ensures HeaderBytes(Packed(id, body).header) == [id, 0, |body| / 256, |body| % 256]
    ensures IsFrame(Packed(id, body), Frame(Packed(id, body)))
  {
    FrameReadBackIff(id, body, []);
    FrameLayout(Packed(id, body));
  }

  lemma {:induction false} FramesAppend(a: seq<SendInfo>, b: seq<SendInfo>)
    ensures Frames(a + b) == Frames(a) + Frames(b)
  {
    if b == [] {
      assert a + b == a;
    } else {
      var n := |b| - 1;
      assert (a + b)[..|a + b| - 1] == a + b[..n];
      FramesAppend(a, b[..n]);
    }
  }

  lemma FramesOne(m: SendInfo)
    ensures Frames([m]) == Frame(m)
  {
    assert Frames([m][..0]) == [];
  }

  lemma FramesSplit(ms: seq<SendInfo>)
    requires ms != []
    ensures Frames(ms) == Frame(ms[0]) + Frames(ms[1..])
  {
    assert ms == [ms[0]] + ms[1..];
    FramesAppend([ms[0]], ms[1..]);
    FramesOne(ms[0]);
  }

  lemma SameFirstFrame(m: SendInfo, r: seq<byte>, n: SendInfo, t: seq<byte>, extra: seq<byte>)
    requires Framed(m) && Framed(n) && Frame(n) + t == (Frame(m) + r) + extra
    ensures m == n && t == r + extra
  {
    assert (Frame(m) + r) + extra == Frame(m) + (r + extra);
    FirstFrameOf(m, r + extra);
    FirstFrameOf(n, t);
  }

  lemma PrefixCons<T>(a: seq<T>, b: seq<T>)
    requires a != [] && b != [] && a[0] == b[0] && a[1..] <= b[1..]
    ensures a <= b
  {
    assert a == [a[0]] + a[1..] && b == [b[0]] + b[1..];
  }

  /** Unique parsing: a stream of frames that is a prefix of another is a prefix message by message. */
  lemma {:induction false} FramesPrefix(a: seq<SendInfo>, b: seq<SendInfo>)
    requires AllFramed(a) && AllFramed(b) && Frames(a) <= Frames(b)
    ensures a <= b
    decreases |a|
  {
    if a != [] {
      FramesSplit(a);
      if b == [] {
        assert false;
      }
      FramesSplit(b);
      SameFirstFrame(a[0], Frames(a[1..]), b[0], Frames(b[1..]), Frames(b)[|Frames(a)|..]);
      FramesPrefix(a[1..], b[1..]);
      PrefixCons(a, b);
    }
  }
}
