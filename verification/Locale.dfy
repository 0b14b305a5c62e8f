// LocaleDoubleChar and LocaleInfo: two two-character codes, their wire form and their text form.
// A `char` is its byte; every comparison below has the same outcome for signed and unsigned char.

module Locales {
  import opened Bytes
  import opened Buffers

  const UPPER_A: byte := 65
  const UPPER_Z: byte := 90
  const LOWER_A: byte := 97
  const LOWER_Z: byte := 122
  const SEPARATOR: byte := 45

  predicate IsUpper(c: byte) { UPPER_A <= c <= UPPER_Z }
  predicate IsLower(c: byte) { LOWER_A <= c <= LOWER_Z }

  datatype DoubleChar = DoubleChar(left: byte, right: byte) {

    predicate NonEmpty() {
      left != 0 || right != 0
    }

    predicate IsValid() {
      if left == 0 && right == 0 then true
      else (IsUpper(left) || IsLower(left)) && (IsUpper(right) || IsLower(right))
    }

    /** One case for both letters; empty for an empty or invalid code. */
    function ChangeCase(upperCase: bool): (r: DoubleChar)
      ensures r.IsValid()
      ensures r.NonEmpty() <==> IsValid() && NonEmpty()
      ensures r.NonEmpty() && upperCase ==> IsUpper(r.left) && IsUpper(r.right)
      ensures r.NonEmpty() && !upperCase ==> IsLower(r.left) && IsLower(r.right)
    {
      if !IsValid() || !NonEmpty() then EMPTY
      else if upperCase then
        DoubleChar(if left >= LOWER_A then left - 32 else left, if right >= LOWER_A then right - 32 else right)
      else
        DoubleChar(if left <= UPPER_Z then left + 32 else left, if right <= UPPER_Z then right + 32 else right)
    }

    /** Text form; throws on an invalid code. */
    method Write(upperCase: bool) returns (r: Result<seq<byte>>)
      ensures r == if IsValid() then Ok(Text(ChangeCase(upperCase))) else Thrown
    {
      if !IsValid() {
        return Thrown;
      }
      var correctCase := ChangeCase(upperCase);
      r := Ok(if correctCase.NonEmpty() then [correctCase.left, correctCase.right] else []);
    }
  }

  const EMPTY := DoubleChar(0, 0)

  function Text(c: DoubleChar): seq<byte> {
    if c.NonEmpty() then [c.left, c.right] else []
  }

  datatype Locale = Locale(language: DoubleChar, country: DoubleChar) {

    predicate NonEmpty() {
      language.NonEmpty()
    }

    predicate IsValid() {
      language.IsValid() && country.IsValid() && !(!language.NonEmpty() && country.NonEmpty())
    }
  }

  const NO_LOCALE := Locale(EMPTY, EMPTY)

  /** The same letters up to case. */
  predicate SameLetter(c: byte, d: byte) {
    c == d || (IsUpper(c) && d == c + 32) || (IsLower(c) && d == c - 32)
  }

  predicate SameLetters(c: DoubleChar, d: DoubleChar) {
    SameLetter(c.left, d.left) && SameLetter(c.right, d.right)
  }

  /** What a normal form is, without saying how it is computed: lower-case language, upper-case
      country, same letters, and a code that is empty exactly when nothing usable was given. */
  predicate IsNormalFormOf(n: Locale, l: Locale) {
    && (n.language.NonEmpty() ==>
          IsLower(n.language.left) && IsLower(n.language.right) && SameLetters(l.language, n.language))
    && (n.country.NonEmpty() ==>
          IsUpper(n.country.left) && IsUpper(n.country.right) && SameLetters(l.country, n.country))
    && (n.language.NonEmpty() <==> l.language.NonEmpty() && l.language.IsValid())
    && (n.country.NonEmpty() <==> n.language.NonEmpty() && l.country.NonEmpty() && l.country.IsValid())
  }

  function Normal(l: Locale): (n: Locale)
    ensures IsNormalFormOf(n, l)
  {
    var language := l.language.ChangeCase(false);
    if language.NonEmpty() then Locale(language, l.country.ChangeCase(true)) else NO_LOCALE
  }

  /** The normal form is the only locale that is one, it is valid, and it is its own normal form. */
  lemma NormalFormUnique(n: Locale, l: Locale)
    ensures IsNormalFormOf(n, l) <==> n == Normal(l)
    ensures Normal(l).IsValid() && Normal(Normal(l)) == Normal(l)
  {
  }

  /** A valid code is empty or two letters of the alphabet. */
  lemma IsValidIff(c: DoubleChar)
    ensures c.IsValid() <==>
              || (c.left == 0 && c.right == 0)
              || (('A' as int <= c.left <= 'Z' as int || 'a' as int <= c.left <= 'z' as int) &&
                  ('A' as int <= c.right <= 'Z' as int || 'a' as int <= c.right <= 'z' as int))
    ensures c.NonEmpty() <==> !(c.left == 0 && c.right == 0)
  {
  }

  // ---- Wire form --------------------------------------------------------------------------------

  function Wire(l: Locale): (s: seq<byte>)
    ensures |s| == 4
  {
    [l.language.left, l.language.right, l.country.left, l.country.right]
  }

  function FromWire(s: seq<byte>): Locale
    requires |s| >= 4
  {
    Locale(DoubleChar(s[0], s[1]), DoubleChar(s[2], s[3]))
  }

  function Lower(c: byte): byte {
    if IsUpper(c) then c + 32 else c
  }

  function Upper(c: byte): byte {
    if IsLower(c) then c - 32 else c
  }

  /** What goes over the wire, byte by byte: the language in lower case, then the country in upper case,
      each with its left letter first, and zeros for what is not usable. */
  lemma WireLayout(l: Locale)
    ensures var s := Wire(Normal(l));
            if l.language.NonEmpty() && l.language.IsValid() then
              && s[0] == Lower(l.language.left) && s[1] == Lower(l.language.right)
              && if l.country.NonEmpty() && l.country.IsValid() then
                   s[2] == Upper(l.country.left) && s[3] == Upper(l.country.right)
                 else
                   s[2] == s[3] == 0
            else s == [0, 0, 0, 0]
    ensures FromWire(Wire(l)) == l
  {
  }

  /** Always appends four bytes, those of the normal form (or as many as the buffer takes). */
  method WriteLocale(buffer: PacketBuffer, locale: Locale) returns (ok: bool)
    requires buffer.Valid()
    modifies buffer
    ensures buffer.Valid()
    ensures ok == (|old(buffer.View())| + 4 <= UINT32_MAX)
    ensures ok ==> buffer.View() == old(buffer.View()) + Wire(Normal(locale))
    ensures !ok ==> buffer.View() == old(buffer.View()) + Wire(Normal(locale))[..UINT32_MAX - |old(buffer.View())|]
  {
    var language, country := EMPTY, EMPTY;
    var languageCode := locale.language.ChangeCase(false);
    if languageCode.NonEmpty() && languageCode.IsValid() {
      language := languageCode;
      var countryCode := locale.country.ChangeCase(true);
      if countryCode.NonEmpty() && countryCode.IsValid() {
        country := countryCode;
      }
    }
    ok := buffer.WriteEach([language.left, language.right, country.left, country.right]);
  }

  /** The unchecked `Skip` of the reader stays inside the buffer. */
  predicate SkipInside(view: seq<byte>) {
    2 <= |view| < 4 ==> var c := DoubleChar(view[0], view[1]); c.NonEmpty() && c.IsValid()
  }

  /** Takes four bytes, or throws at the end of a shorter buffer, exactly when the skip stays inside.
      Otherwise, two or three bytes with no usable language, it returns no locale all the same and
      leaves the offset one or two past the end (in 32 bits). */
  method ReadLocale(buffer: PacketBuffer) returns (r: Result<Locale>)
    requires buffer.Valid()
    modifies buffer`startOffset
    ensures buffer.InRange()
    ensures SkipInside(old(buffer.View())) <==>
              buffer.Valid() && buffer.startOffset == old(buffer.startOffset) + Min(4, |old(buffer.View())|)
    ensures |old(buffer.View())| >= 4 ==>
              r == Ok(Normal(FromWire(old(buffer.View())))) && buffer.View() == old(buffer.View())[4..]
    ensures |old(buffer.View())| < 4 && SkipInside(old(buffer.View())) ==> r == Thrown && buffer.View() == []
    ensures !SkipInside(old(buffer.View())) ==>
              r == Ok(NO_LOCALE) && buffer.startOffset == (old(buffer.startOffset) + 4) % (UINT32_MAX + 1)
  {
    ghost var view := buffer.View();
    var codes := buffer.ReadEach(2);
    if codes.Thrown? {
      return Thrown;
    }
    assert codes.value == view[..2];
    var language := DoubleChar(codes.value[0], codes.value[1]);
    if !(language.NonEmpty() && language.IsValid()) {
      buffer.Skip(2);
      return Ok(NO_LOCALE);
    }
    language := language.ChangeCase(false);
    codes := buffer.ReadEach(2);
    if codes.Thrown? {
      return Thrown;
    }
    var country := DoubleChar(codes.value[0], codes.value[1]);
    country := if country.NonEmpty() && country.IsValid() then country.ChangeCase(true) else EMPTY;
    r := Ok(Locale(language, country));
  }

  /** Two bytes that are no language are enough to end up past the end. */
  lemma SkipFails(view: seq<byte>)
    requires view == [0, 0]
    ensures !SkipInside(view)
  {
  }

  /** Writing any locale and reading it back gives its normal form and leaves the rest alone. */
  method WireRoundTrip(locale: Locale, rest: seq<byte>) returns (r: Result<Locale>, left: seq<byte>)
    requires |rest| + 4 <= UINT32_MAX
    ensures r == Ok(Normal(locale)) && left == rest
  {
    var buffer := new PacketBuffer();
    var ok := WriteLocale(buffer, locale);
    ok := buffer.WriteBlock(rest);
    NormalFormUnique(Normal(locale), locale);
    r := ReadLocale(buffer);
    left := buffer.data[buffer.startOffset..];
  }

  // ---- Text form --------------------------------------------------------------------------------

  /** The constructor from text. */
  function Parse(str: seq<byte>): Locale {
    if |str| >= 2 then
      Locale(DoubleChar(str[0], str[1]),
             if |str| >= 5 && str[2] == SEPARATOR then DoubleChar(str[3], str[4]) else EMPTY)
    else NO_LOCALE
  }

  /** Where the text form has its letters. */
  lemma ParseLayout(str: seq<byte>)
    ensures |str| < 2 ==> Parse(str) == Locale(DoubleChar(0, 0), DoubleChar(0, 0))
    ensures |str| >= 2 ==> Parse(str).language.left == str[0] && Parse(str).language.right == str[1]
    ensures |str| >= 5 && str[2] == '-' as int ==>
              Parse(str).country.left == str[3] && Parse(str).country.right == str[4]
    ensures |str| < 5 || str[2] != '-' as int ==> !Parse(str).country.NonEmpty()
  {
  }

  /** Text output with the default upper-case country; throws on an invalid locale. */
  method Print(locale: Locale) returns (r: Result<seq<byte>>)
    ensures locale.IsValid() <==> r.Ok?
    ensures r.Ok? ==> Parse(r.value) == Normal(locale)
    ensures r.Ok? && locale.NonEmpty() ==>
              r.value[..2] == [Lower(locale.language.left), Lower(locale.language.right)]
    ensures r.Ok? && locale.country.NonEmpty() ==>
              r.value[2..] == ['-' as int, Upper(locale.country.left), Upper(locale.country.right)]
    ensures r.Ok? ==> |r.value| == if !locale.NonEmpty() then 0 else if locale.country.NonEmpty() then 5 else 2
  {
    if !locale.IsValid() {
      return Thrown;
    }
    if !locale.NonEmpty() {
      return Ok([]);
    }
    r := locale.language.Write(false);
    if r.Ok? && locale.country.NonEmpty() {
      var country := locale.country.Write(true);
      if country.Thrown? {
        return Thrown;
      }
      r := Ok(r.value + [SEPARATOR] + country.value);
    }
  }
}
