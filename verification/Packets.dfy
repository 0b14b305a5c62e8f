// The reserved packets of the protocol: Ping (answered by Pong) and Init, with the game name Init carries.

module Packets {
  import opened Bytes
  import opened Codec
  import opened Buffers
  import opened Locales

  // ---- Game name --------------------------------------------------------------------------------

  const NAME_LENGTH := 8

  type GameName = s: seq<byte> | |s| == NAME_LENGTH witness [0, 0, 0, 0, 0, 0, 0, 0]

  const NO_NAME: GameName := [0, 0, 0, 0, 0, 0, 0, 0]

  /** `d` holds the text of `str` up to its first NUL or eight characters, padded with NULs. */
  predicate IsNameOf(d: seq<byte>, str: seq<byte>)
    requires |d| == NAME_LENGTH
  {
    forall i | 0 <= i < NAME_LENGTH ::
      d[i] == if i < |str| && 0 !in str[..i] then str[i] else 0
  }

  /** The constructor from a C string, which reads no further than its NUL or eight characters. */
  method NameFromText(str: seq<byte>) returns (charData: array<byte>)
    requires |str| >= NAME_LENGTH || 0 in str
    ensures fresh(charData) && charData.Length == NAME_LENGTH
    ensures IsNameOf(charData[..], str)
  {
    charData := new byte[NAME_LENGTH](_ => 0);
    for i := 0 to NAME_LENGTH
      invariant i < NAME_LENGTH && |str| < NAME_LENGTH ==> i < |str|
      invariant 0 !in str[..Min(i, |str|)]
      invariant forall j | 0 <= j < NAME_LENGTH :: charData[j] == if j < i && j < |str| then str[j] else 0
    {
      charData[i] := str[i];
      if str[i] == 0 {
        break;
      }
    }
  }

  /** Eight bytes at once, or a throw that leaves the buffer as it was. */
  method WriteName(buffer: PacketBuffer, gameName: GameName) returns (ok: bool)
    requires buffer.Valid()
    modifies buffer
    ensures buffer.Valid()
    ensures ok == (|old(buffer.View())| + NAME_LENGTH <= UINT32_MAX)
    ensures buffer.View() == if ok then old(buffer.View()) + gameName else old(buffer.View())
  {
    ok := buffer.WriteBlock(gameName);
  }

  /** The reader takes its target by value: it consumes up to eight bytes and fills a copy that is
      lost on return. A short buffer does not throw. */
  method ReadName(buffer: PacketBuffer, gameName: GameName)
    requires buffer.Valid()
    modifies buffer`startOffset
    ensures buffer.Valid() && buffer.View() == old(buffer.View())[Min(NAME_LENGTH, |old(buffer.View())|)..]
  {
    var copy := new byte[NAME_LENGTH](i requires 0 <= i < NAME_LENGTH => gameName[i]);
    var readBytes := buffer.ReadArray(copy, NAME_LENGTH);
    for i := readBytes to NAME_LENGTH
      modifies copy
    {
      copy[i] := 0;
    }
  }

  // ---- Init -------------------------------------------------------------------------------------

  const NEXT_SERVER_INFO: byte := 0
  const NEXT_JOIN: byte := 1

  const INIT_SIZE := 17

  type uint32 = x: int | 0 <= x <= UINT32_MAX

  /** The fields of Init; a decoded `next` may be any byte. */
  datatype Init = Init(gameName: GameName, gameVersion: uint32, clientLocale: Locale, next: byte)

  predicate KnownNext(next: byte) {
    next in {NEXT_SERVER_INFO, NEXT_JOIN}
  }

  function EncInit(p: Init): (s: seq<byte>)
    ensures |s| == INIT_SIZE && s[16] == p.next
  {
    assert Pow256(4) == UINT32_MAX + 1;
    p.gameName + ToLE(4, p.gameVersion) + Wire(Normal(p.clientLocale)) + [p.next]
  }

  /** Where an Init body has its fields. */
  lemma InitLayout(p: Init)
    ensures var s := EncInit(p);
            && s[..8] == p.gameName && IsInteger(4, p.gameVersion, s[8..12])
            && s[12..16] == Wire(Normal(p.clientLocale)) && s[16] == p.next
  {
    assert Pow256(4) == UINT32_MAX + 1;
    ToLEIsInteger(4, p.gameVersion, ToLE(4, p.gameVersion));
    var s := EncInit(p);
    assert s[8..12] == ToLE(4, p.gameVersion);
    assert s[12..16] == Wire(Normal(p.clientLocale));
  }

  /** What the decoding constructor makes of its first 17 bytes: the game name stays empty. */
  function DecInit(s: seq<byte>): Init
    requires |s| >= INIT_SIZE
  {
    assert FromLE(s[8..12]) < Pow256(4) == UINT32_MAX + 1;
    Init(NO_NAME, FromLE(s[8..12]), Normal(FromWire(s[12..16])), s[16])
  }

  /** The last byte of an Init body says what comes next. */
  function NextOf(s: seq<byte>): (next: byte)
    requires |s| == INIT_SIZE
  {
    s[INIT_SIZE - 1]
  }

  lemma NextOfDecoded(s: seq<byte>)
    requires |s| == INIT_SIZE
    ensures DecInit(s).next == NextOf(s)
  {
  }

  /** Decoding an encoded Init keeps version and next step, normalises the locale and loses the name. */
  lemma DecodedInit(p: Init, rest: seq<byte>)
    ensures DecInit(EncInit(p) + rest) == Init(NO_NAME, p.gameVersion, Normal(p.clientLocale), p.next)
  {
    var s := EncInit(p) + rest;
    assert Pow256(4) == UINT32_MAX + 1;
    assert s[8..12] == ToLE(4, p.gameVersion);
    assert s[12..16] == Wire(Normal(p.clientLocale));
    FromToLE(4, p.gameVersion);
    NormalFormUnique(Normal(p.clientLocale), p.clientLocale);
  }

  /** Init survives the wire exactly when it names no game and its locale is in normal form. */
  lemma InitRoundTripIff(p: Init, rest: seq<byte>)
    ensures DecInit(EncInit(p) + rest) == p <==> p.gameName == NO_NAME && IsNormalFormOf(p.clientLocale, p.clientLocale)
  {
    DecodedInit(p, rest);
    NormalFormUnique(p.clientLocale, p.clientLocale);
  }

  method WriteInit(buffer: PacketBuffer, p: Init) returns (ok: bool)
    requires buffer.Valid()
    modifies buffer
    ensures buffer.Valid()
    ensures ok == (|old(buffer.View())| + INIT_SIZE <= UINT32_MAX)
    ensures ok ==> buffer.View() == old(buffer.View()) + EncInit(p)
  {
    assert Pow256(4) == UINT32_MAX + 1;
    ghost var before := buffer.View();
    ok := WriteName(buffer, p.gameName);
    if ok {
      ok := buffer.WriteEach(ToLE(4, p.gameVersion));
      assert ok ==> buffer.View() == before + p.gameName + ToLE(4, p.gameVersion);
    }
    if ok {
      ok := WriteLocale(buffer, p.clientLocale);
    }
    if ok {
      ok := buffer.Write(p.next);
      InitParts(before, p);
    }
  }

  lemma InitParts(before: seq<byte>, p: Init)
    requires p.gameVersion < Pow256(4)
    ensures before + p.gameName + ToLE(4, p.gameVersion) + Wire(Normal(p.clientLocale)) + [p.next]
            == before + EncInit(p)
  {
  }

  /** The skip of the locale reader stays inside an Init body: it does not for 14 or 15 bytes with no
      usable language. */
  predicate InitSkipInside(view: seq<byte>) {
    |view| >= 12 ==> SkipInside(view[12..])
  }

  lemma InitSkipFails(view: seq<byte>)
    requires |view| in {14, 15} && view[12] == view[13] == 0
    ensures !InitSkipInside(view)
  {
    assert view[12..][0] == 0 && view[12..][1] == 0;
  }

  method ReadNameAndVersion(buffer: PacketBuffer) returns (version: Result<seq<byte>>)
    requires buffer.Valid()
    modifies buffer`startOffset
    ensures buffer.Valid() && buffer.startOffset >= old(buffer.startOffset)
    ensures |old(buffer.View())| >= 12 ==> version == Ok(old(buffer.View())[8..12])
    ensures |old(buffer.View())| >= 12 ==>
              buffer.View() == old(buffer.View())[12..] && buffer.startOffset == old(buffer.startOffset) + 12
    ensures |old(buffer.View())| < 12 ==> version == Thrown
  {
    ghost var s := buffer.View();
    ReadName(buffer, NO_NAME);
    version := buffer.ReadEach(4);
    assert |s| >= 12 ==> s[8..][..4] == s[8..12] && s[8..][4..] == s[12..];
  }

  method ReadLocaleAndNext(buffer: PacketBuffer) returns (r: Result<(Locale, byte)>)
    requires buffer.Valid()
    modifies buffer`startOffset
    ensures buffer.InRange()
    ensures SkipInside(old(buffer.View())) ==> buffer.Valid() && buffer.startOffset >= old(buffer.startOffset)
    ensures !SkipInside(old(buffer.View())) && buffer.Valid() ==>
              buffer.startOffset <= 2 && old(buffer.startOffset) + 4 > UINT32_MAX
    ensures |old(buffer.View())| >= 5 ==>
              r == Ok((Normal(FromWire(old(buffer.View()))), old(buffer.View())[4])) &&
              buffer.View() == old(buffer.View())[5..]
    ensures |old(buffer.View())| < 5 ==>
              (r.Thrown? <==> SkipInside(old(buffer.View())) || old(buffer.startOffset) + 4 <= UINT32_MAX)
  {
    ghost var view, start := buffer.View(), buffer.startOffset;
    var locale := ReadLocale(buffer);
    if locale.Thrown? {
      return Thrown;
    }
    assert |view| < 4 ==> 2 <= |view| && !SkipInside(view) && buffer.startOffset == (start + 4) % (UINT32_MAX + 1);
    assert |view| >= 4 ==> buffer.Valid() && buffer.View() == view[4..];
    var next := buffer.Read();
    r := if next.Ok? then Ok((locale.value, next.value)) else Thrown;
  }

  /** The decoding constructor. A short body throws, unless the skip of the locale reader wraps around
      in 32 bits: then the first bytes of the buffer are read again. */
  method ReadInit(buffer: PacketBuffer) returns (r: Result<Init>)
    requires buffer.Valid()
    modifies buffer`startOffset
    ensures buffer.InRange()
    ensures InitSkipInside(old(buffer.View())) <==> buffer.Valid() && buffer.startOffset >= old(buffer.startOffset)
    ensures |old(buffer.View())| >= INIT_SIZE ==>
              r == Ok(DecInit(old(buffer.View()))) && buffer.View() == old(buffer.View())[INIT_SIZE..]
    ensures |old(buffer.View())| < INIT_SIZE ==>
              (r.Thrown? <==> InitSkipInside(old(buffer.View())) || old(buffer.startOffset) + 16 <= UINT32_MAX)
  {
    ghost var s := buffer.View();
    var version := ReadNameAndVersion(buffer);
    if version.Thrown? {
      return Thrown;
    }
    assert FromLE(version.value) < Pow256(4) == UINT32_MAX + 1;
    assert |s| >= INIT_SIZE ==> FromWire(s[12..]) == FromWire(s[12..16]) && s[12..][4] == s[16];
    var tail := ReadLocaleAndNext(buffer);
    assert |s| >= INIT_SIZE ==> s[12..][5..] == s[INIT_SIZE..];
    r := if tail.Ok? then Ok(Init(NO_NAME, FromLE(version.value), tail.value.0, tail.value.1)) else Thrown;
  }

  // ---- Ping -------------------------------------------------------------------------------------

  const PING_SIZE := 8

  type uint64 = x: int | 0 <= x <= 0xFFFF_FFFF_FFFF_FFFF

  function EncPing(payload: uint64): (s: seq<byte>)
    ensures |s| == PING_SIZE
  {
    assert Pow256(8) == 0x1_0000_0000_0000_0000;
    ToLE(8, payload)
  }

  lemma PingLayout(payload: uint64)
    ensures IsInteger(8, payload, EncPing(payload))
  {
    assert Pow256(8) == 0x1_0000_0000_0000_0000;
    ToLEIsInteger(8, payload, EncPing(payload));
  }

  /** The raw bytes of a body reinterpreted as a 64-bit integer on a little-endian host. */
  function RawPayload(body: seq<byte>): uint64
    requires |body| >= PING_SIZE
  {
    assert FromLE(body[..8]) < Pow256(8) == 0x1_0000_0000_0000_0000;
    FromLE(body[..8])
  }

  /** The reinterpretation the keep-alive relies on agrees with the encoder. */
  lemma RawPayloadOfPing(payload: uint64)
    ensures RawPayload(EncPing(payload)) == payload
  {
    assert Pow256(8) == 0x1_0000_0000_0000_0000;
    FromToLE(8, payload);
    assert EncPing(payload)[..8] == EncPing(payload);
  }

  lemma PingOfRawPayload(body: seq<byte>)
    requires |body| == PING_SIZE
    ensures EncPing(RawPayload(body)) == body
  {
    assert body[..8] == body;
    ToFromLE(body);
  }

  method WritePing(buffer: PacketBuffer, payload: uint64) returns (ok: bool)
    requires buffer.Valid()
    modifies buffer
    ensures buffer.Valid()
    ensures ok == (|old(buffer.View())| + PING_SIZE <= UINT32_MAX)
    ensures ok ==> buffer.View() == old(buffer.View()) + EncPing(payload)
  {
    ok := buffer.WriteEach(EncPing(payload));
  }

  method ReadPing(buffer: PacketBuffer) returns (r: Result<uint64>)
    requires buffer.Valid()
    modifies buffer`startOffset
    ensures buffer.Valid()
    ensures |old(buffer.View())| >= PING_SIZE ==>
              r == Ok(RawPayload(old(buffer.View()))) && buffer.View() == old(buffer.View())[PING_SIZE..]
    ensures |old(buffer.View())| < PING_SIZE ==> r == Thrown && buffer.View() == []
  {
    var b := buffer.ReadEach(8);
    if b.Thrown? {
      return Thrown;
    }
    assert FromLE(b.value) < Pow256(8) == 0x1_0000_0000_0000_0000;
    r := Ok(FromLE(b.value));
  }
}
