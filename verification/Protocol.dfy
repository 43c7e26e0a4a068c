/** Names, titles, hexadecimal identifiers and invite codes: the text forms both programs
    share (src/protocol.rs). */
module Protocol {
  import opened Prelude
  import Utf8

  const MAX_SIGNAL_LINE: nat := 512
  const MAX_DATAGRAM: nat := 1200
  const MAX_MESSAGE_CHARS: nat := 500
  const MAX_MESSAGE_BYTES: nat := 1024
  const MAX_PUBLIC_ROOM_TITLE_CHARS: nat := 40
  const MAX_PUBLIC_ROOM_TITLE_BYTES: nat := 120
  const MAX_NICKNAME_CHARS: nat := 20
  const MAX_NICKNAME_BYTES: nat := 80
  const INVITE_PREFIX := "P2P2-"

  // --- Normalised names ----------------------------------------------------------------

  /** `char::is_whitespace`: the Unicode White_Space property. */
  predicate IsWhitespace(c: char) {
    var n := c as int;
    || 0x09 <= n <= 0x0D
    || n in {0x20, 0x85, 0xA0, 0x1680, 0x2028, 0x2029, 0x202F, 0x205F, 0x3000}
    || 0x2000 <= n <= 0x200A
  }

  /** Control characters and the bidirectional formatting characters. */
  predicate IsUnsafe(c: char) {
    var n := c as int;
    || n <= 0x1F
    || 0x7F <= n <= 0x9F
    || n in {0x061C, 0x200E, 0x200F}
    || 0x202A <= n <= 0x202E
    || 0x2066 <= n <= 0x2069
  }

  function TrimStart(s: string): (r: string)
    ensures |r| <= |s| && r == s[|s| - |r|..]
    ensures r == [] || !IsWhitespace(r[0])
  {
    if s != [] && IsWhitespace(s[0]) then TrimStart(s[1..]) else s
  }

  function TrimEnd(s: string): (r: string)
    ensures r <= s
    ensures r == [] || !IsWhitespace(r[|r| - 1])
    ensures s != [] && !IsWhitespace(s[0]) ==> r != []
  {
    if s != [] && IsWhitespace(s[|s| - 1]) then TrimEnd(s[..|s| - 1]) else s
  }

  /** `str::trim`. */
  function Trim(s: string): string {
    TrimEnd(TrimStart(s))
  }

  predicate Trimmed(s: string) {
    s == [] || (!IsWhitespace(s[0]) && !IsWhitespace(s[|s| - 1]))
  }

  /** Trimming removes white space at both ends, and leaves alone exactly the texts
      that have none there. */
  lemma TrimIsFixpoint(s: string)
    ensures Trimmed(Trim(s))
    ensures Trim(s) == s <==> Trimmed(s)
  {
  }

  predicate IsBlank(s: string) {
    forall i | 0 <= i < |s| :: IsWhitespace(s[i])
  }

  lemma {:induction false} TrimStartCutsBlanks(s: string)
    ensures IsBlank(s[..|s| - |TrimStart(s)|])
  {
    if s != [] && IsWhitespace(s[0]) {
      TrimStartCutsBlanks(s[1..]);
      var k := |s| - |TrimStart(s)|;
      assert s[..k] == [s[0]] + s[1..][..k - 1];
    }
  }

  lemma {:induction false} TrimEndCutsBlanks(s: string)
    ensures IsBlank(s[|TrimEnd(s)|..])
  {
    if s != [] && IsWhitespace(s[|s| - 1]) {
      var front := s[..|s| - 1];
      TrimEndCutsBlanks(front);
      assert s[|TrimEnd(s)|..] == front[|TrimEnd(s)|..] + [s[|s| - 1]];
    }
  }

  /** Trimming cuts white space at either end and nothing else. */
  lemma TrimCutsBlanks(s: string) returns (before: string, after: string)
    ensures s == before + Trim(s) + after && IsBlank(before) && IsBlank(after)
  {
    hide TrimStart, TrimEnd, IsBlank, IsWhitespace;
    TrimStartCutsBlanks(s);
    TrimEndCutsBlanks(TrimStart(s));
    before, after := s[..|s| - |TrimStart(s)|], TrimStart(s)[|Trim(s)|..];
  }

  function Normalize(value: string, maxChars: nat, maxBytes: nat): Option<string> {
    var trimmed := Trim(value);
    if || trimmed == []
       || |trimmed| > maxChars
       || |Utf8.Encode(trimmed)| > maxBytes
       || exists i :: 0 <= i < |trimmed| && IsUnsafe(trimmed[i])
    then
      None
    else
      Some(trimmed)
  }

  function NormalizeTitle(value: string): Option<string> {
    Normalize(value, MAX_PUBLIC_ROOM_TITLE_CHARS, MAX_PUBLIC_ROOM_TITLE_BYTES)
  }

  function NormalizeNickname(value: string): Option<string> {
    Normalize(value, MAX_NICKNAME_CHARS, MAX_NICKNAME_BYTES)
  }

  predicate IsTitle(title: string) {
    NormalizeTitle(title) == Some(title)
  }

  predicate IsNickname(nickname: string) {
    NormalizeNickname(nickname) == Some(nickname)
  }

  /** What may be a title and what a nickname. */
  lemma TitlesAndNicknames(s: string)
    ensures IsTitle(s) <==>
            1 <= |s| <= 40 && |Utf8.Encode(s)| <= 120 && Trimmed(s) && forall i | 0 <= i < |s| :: !IsUnsafe(s[i])
    ensures IsNickname(s) <==>
            1 <= |s| <= 20 && |Utf8.Encode(s)| <= 80 && Trimmed(s) && forall i | 0 <= i < |s| :: !IsUnsafe(s[i])
  {
    hide Trim, Trimmed, Utf8.Encode, IsUnsafe;
    TrimIsFixpoint(s);
  }

  /** Whatever can be trimmed to a title, or nickname, is normalised to it. */
  lemma NormalizeTrims(value: string)
    ensures NormalizeTitle(value) == if IsTitle(Trim(value)) then Some(Trim(value)) else None
    ensures NormalizeNickname(value) == if IsNickname(Trim(value)) then Some(Trim(value)) else None
  {
    hide Trim, Trimmed, Utf8.Encode, IsUnsafe;
    TrimIsFixpoint(value);
    TrimIsFixpoint(Trim(value));
  }

  /** A normalised name is not empty, within its limits, trimmed, free of unsafe characters
      and left as it is by a second normalisation. */
  lemma NormalizeIsIdempotent(value: string, maxChars: nat, maxBytes: nat)
    requires Normalize(value, maxChars, maxBytes).Some?
    ensures
      var name := Normalize(value, maxChars, maxBytes).value;
      && 0 < |name| <= maxChars && |Utf8.Encode(name)| <= maxBytes
      && Trimmed(name) && (forall i | 0 <= i < |name| :: !IsUnsafe(name[i]))
      && Normalize(name, maxChars, maxBytes) == Some(name)
  {
    hide Trim, Utf8.Encode, IsUnsafe;
    TrimIsFixpoint(value);
    TrimIsFixpoint(Trim(value));
  }

  // --- Hexadecimal ---------------------------------------------------------------------

  predicate IsAscii(s: string) {
    forall i | 0 <= i < |s| :: s[i] as int < 0x80
  }

  function HexNibble(c: char): (r: Option<nat>)
    ensures r.Some? ==> r.value < 16
  {
    if '0' <= c <= '9' then Some(c as int - '0' as int)
    else if 'a' <= c <= 'f' then Some(c as int - 'a' as int + 10)
    else if 'A' <= c <= 'F' then Some(c as int - 'A' as int + 10)
    else None
  }

  function HexDigit(n: nat): (c: char)
    requires n < 16
    ensures HexNibble(c) == Some(n) && c as int < 0x80
  {
    if n < 10 then '0' + n as char else 'a' + (n - 10) as char
  }

  function Hex(bytes: seq<byte>): string {
    if bytes == [] then [] else Hex(bytes[..|bytes| - 1]) + HexPair(bytes[|bytes| - 1])
  }

  function HexPair(b: byte): string {
    [HexDigit(b / 16), HexDigit(b % 16)]
  }

  function UnhexPair(high: char, low: char): Option<byte> {
    match (HexNibble(high), HexNibble(low))
    case (Some(h), Some(l)) => Some(h * 16 + l)
    case _ => None
  }

  /** Reads pairs of digits; `None` as soon as one of them is not a digit. */
  function Unhex(value: string): (r: Option<seq<byte>>)
    ensures r.Some? ==> |value| == 2 * |r.value|
  {
    if value == [] then
      Some([])
    else if |value| == 1 then
      None
    else
      match (Unhex(value[..|value| - 2]), UnhexPair(value[|value| - 2], value[|value| - 1]))
      case (Some(front), Some(last)) => Some(front + [last])
      case _ => None
  }

  /** What `decode_hex::<N>` returns: `N` bytes written as `2 * N` digits of either case. */
  function DecodedHex(value: string, n: nat): Option<seq<byte>> {
    if |value| != 2 * n || !IsAscii(value) then None else Unhex(value)
  }

  method EncodeHex(bytes: seq<byte>) returns (result: string)
    ensures result == Hex(bytes)
  {
    result := "";
    for i := 0 to |bytes|
      invariant result == Hex(bytes[..i])
    {
      assert bytes[..i + 1][..i] == bytes[..i];
      result := result + [HexDigit(bytes[i] / 16)];
      result := result + [HexDigit(bytes[i] % 16)];
    }
    assert bytes[..|bytes|] == bytes;
  }

  method DecodeHex(value: string, n: nat) returns (result: Option<seq<byte>>)
    ensures result == DecodedHex(value, n)
  {
    if |value| != n * 2 || !IsAscii(value) {
      return None;
    }
    var bytes := [];
    for index := 0 to n
      invariant |bytes| == index
      invariant Unhex(value[..2 * index]) == Some(bytes)
    {
      var high, low := HexNibble(value[index * 2]), HexNibble(value[index * 2 + 1]);
      assert value[..2 * index + 2][..2 * index] == value[..2 * index];
      if high.None? || low.None? {
        UnhexPrefix(value, index + 1);
        return None;
      }
      bytes := bytes + [high.value * 16 + low.value];
    }
    assert value[..2 * n] == value;
    return Some(bytes);
  }

  lemma {:induction false} UnhexPrefix(value: string, k: nat)
    requires 2 * k <= |value| && |value| % 2 == 0
    requires Unhex(value[..2 * k]).None?
    ensures Unhex(value).None?
    decreases |value|
  {
    if 2 * k < |value| {
      var front := value[..|value| - 2];
      assert front[..2 * k] == value[..2 * k];
      UnhexPrefix(front, k);
    } else {
      assert value[..2 * k] == value;
    }
  }

  lemma {:induction false} HexShape(bytes: seq<byte>)
    ensures |Hex(bytes)| == 2 * |bytes| && IsAscii(Hex(bytes))
  {
    if bytes != [] {
      HexShape(bytes[..|bytes| - 1]);
      assert IsAscii(HexPair(bytes[|bytes| - 1]));
    }
  }

  lemma {:induction false} UnhexOfHex(bytes: seq<byte>)
    ensures Unhex(Hex(bytes)) == Some(bytes)
  {
    if bytes != [] {
      var front, last := bytes[..|bytes| - 1], bytes[|bytes| - 1];
      UnhexOfHex(front);
      UnhexOfHexPair(last);
      assert Hex(bytes) == Hex(front) + HexPair(last);
      hide Hex, HexPair, UnhexPair;
      UnhexAppend(Hex(front), HexPair(last));
      assert bytes == front + [last];
    }
  }

  lemma UnhexAppend(text: string, pair: string)
    requires |pair| == 2
    requires Unhex(text).Some? && UnhexPair(pair[0], pair[1]).Some?
    ensures Unhex(text + pair) == Some(Unhex(text).value + [UnhexPair(pair[0], pair[1]).value])
  {
    var whole := text + pair;
    assert whole[..|whole| - 2] == text;
  }

  lemma UnhexOfHexPair(b: byte)
    ensures UnhexPair(HexPair(b)[0], HexPair(b)[1]) == Some(b)
  {
  }

  /** Fixed-length hexadecimal round trip, at every length. */
  lemma HexRoundTrip(bytes: seq<byte>)
    ensures DecodedHex(Hex(bytes), |bytes|) == Some(bytes)
  {
    HexShape(bytes);
    UnhexOfHex(bytes);
  }

  lemma HexDigitsAreUsual(n: nat)
    requires n < 16
    ensures HexDigit(n) == "0123456789abcdef"[n]
  {
  }

  function LowerDigit(c: char): char {
    if 'A' <= c <= 'F' then 'a' + (c - 'A') else c
  }

  function Lower(value: string): string {
    seq(|value|, i requires 0 <= i < |value| => LowerDigit(value[i]))
  }

  lemma LowerPair(high: char, low: char)
    requires HexNibble(high).Some? && HexNibble(low).Some?
    ensures UnhexPair(high, low).Some?
    ensures HexPair(UnhexPair(high, low).value) == [LowerDigit(high), LowerDigit(low)]
  {
    hide HexNibble, HexDigit, LowerDigit;
    var h, l := HexNibble(high).value, HexNibble(low).value;
    assert (h * 16 + l) / 16 == h && (h * 16 + l) % 16 == l;
    LowerNibble(high);
    LowerNibble(low);
  }

  lemma LowerNibble(c: char)
    requires HexNibble(c).Some?
    ensures HexDigit(HexNibble(c).value) == LowerDigit(c)
  {
  }

  lemma {:induction false} HexOfUnhex(value: string)
    ensures Unhex(value).Some? <==> |value| % 2 == 0 && forall i | 0 <= i < |value| :: HexNibble(value[i]).Some?
    ensures Unhex(value).Some? ==> Hex(Unhex(value).value) == Lower(value)
  {
    hide HexNibble, HexPair, LowerDigit;
    if |value| >= 2 {
      var front, high, low := value[..|value| - 2], value[|value| - 2], value[|value| - 1];
      HexOfUnhex(front);
      assert forall i | 0 <= i < |front| :: front[i] == value[i];
      if HexNibble(high).Some? && HexNibble(low).Some? {
        LowerPair(high, low);
      }
      if Unhex(value).Some? {
        assert Unhex(value).value == Unhex(front).value + [UnhexPair(high, low).value];
        assert Lower(value) == Lower(front) + [LowerDigit(high), LowerDigit(low)];
      }
    }
  }

  /** Exactly the texts of `2 * n` digits, of either case, decode; encoding what they decode
      to gives them back in lower case. */
  lemma HexReads(value: string, n: nat)
    ensures DecodedHex(value, n).Some? <==> |value| == 2 * n && forall i | 0 <= i < |value| :: HexNibble(value[i]).Some?
    ensures DecodedHex(value, n).Some? ==> Hex(DecodedHex(value, n).value) == Lower(value)
  {
    hide Hex, Unhex, Lower;
    HexOfUnhex(value);
  }

  // --- base64url without padding (section 5 of RFC 4648) -------------------------------

  type sextet = n: int | 0 <= n < 64

  function Digit(n: sextet): (c: char)
    ensures Value(c) == Some(n)
    ensures !IsWhitespace(c) && c as int < 0x80
  {
    if n < 26 then 'A' + n as char
    else if n < 52 then 'a' + (n - 26) as char
    else if n < 62 then '0' + (n - 52) as char
    else if n == 62 then '-'
    else '_'
  }

  function Value(c: char): (r: Option<sextet>) {
    if 'A' <= c <= 'Z' then Some(c as int - 'A' as int)
    else if 'a' <= c <= 'z' then Some(c as int - 'a' as int + 26)
    else if '0' <= c <= '9' then Some(c as int - '0' as int + 52)
    else if c == '-' then Some(62)
    else if c == '_' then Some(63)
    else None
  }

  lemma DigitOfValue(c: char)
    requires Value(c).Some?
    ensures Digit(Value(c).value) == c
  {
  }

  function Digits(sextets: seq<sextet>): (s: string)
    ensures |s| == |sextets|
    ensures forall i | 0 <= i < |s| :: !IsWhitespace(s[i]) && s[i] as int < 0x80
  {
    if sextets == [] then [] else [Digit(sextets[0])] + Digits(sextets[1..])
  }

  function Values(s: string): Option<seq<sextet>> {
    if s == [] then
      Some([])
    else
      match (Value(s[0]), Values(s[1..]))
      case (Some(v), Some(rest)) => Some([v] + rest)
      case _ => None
  }

  lemma {:induction false} ValuesOfDigits(sextets: seq<sextet>)
    ensures Values(Digits(sextets)) == Some(sextets)
  {
    if sextets != [] {
      ValuesOfDigits(sextets[1..]);
      assert Digits(sextets)[1..] == Digits(sextets[1..]);
      assert Value(Digit(sextets[0])) == Some(sextets[0]);
      assert sextets == [sextets[0]] + sextets[1..];
    }
  }

  lemma {:induction false} DigitsOfValues(s: string)
    requires Values(s).Some?
    ensures Digits(Values(s).value) == s
  {
    if s != [] {
      DigitsOfValues(s[1..]);
      DigitOfValue(s[0]);
      assert Values(s).value[1..] == Values(s[1..]).value;
    }
  }

  function High6(x: byte): sextet { x / 4 }

  function Low2High4(x: byte, y: byte): (r: sextet)
    ensures r / 16 == x % 4 && r % 16 == y / 16
  {
    x as int % 4 * 16 + y as int / 16
  }

  function Low4High2(y: byte, z: byte): (r: sextet)
    ensures r / 4 == y % 16 && r % 4 == z / 64
  {
    y as int % 16 * 4 + z as int / 64
  }

  function Low6(z: byte): sextet { z % 64 }

  function FirstByte(p: sextet, q: sextet): (x: byte)
    ensures x / 4 == p && x % 4 == q / 16
  {
    p as int * 4 + q as int / 16
  }

  function SecondByte(q: sextet, r: sextet): (y: byte)
    ensures y / 16 == q % 16 && y % 16 == r / 4
  {
    q as int % 16 * 16 + r as int / 4
  }

  function ThirdByte(r: sextet, t: sextet): (z: byte)
    ensures z / 64 == r % 4 && z % 64 == t
  {
    r as int % 4 * 64 + t as int
  }

  lemma BytesOfSextets(x: byte, y: byte, z: byte)
    ensures FirstByte(High6(x), Low2High4(x, y)) == x
    ensures SecondByte(Low2High4(x, y), Low4High2(y, z)) == y
    ensures ThirdByte(Low4High2(y, z), Low6(z)) == z
  {
  }

  lemma SextetsOfBytes(p: sextet, q: sextet, r: sextet, t: sextet)
    ensures High6(FirstByte(p, q)) == p
    ensures Low2High4(FirstByte(p, q), SecondByte(q, r)) == q
    ensures Low4High2(SecondByte(q, r), ThirdByte(r, t)) == r
    ensures Low6(ThirdByte(r, t)) == t
  {
  }

  function LastSextets(b: seq<byte>): (s: seq<sextet>)
    requires |b| < 3
    ensures |s| == (4 * |b| + 2) / 3
  {
    if |b| == 0 then []
    else if |b| == 1 then [High6(b[0]), Low2High4(b[0], 0)]
    else [High6(b[0]), Low2High4(b[0], b[1]), Low4High2(b[1], 0)]
  }

  function Sextets(b: seq<byte>): (s: seq<sextet>)
    ensures |s| == (4 * |b| + 2) / 3
  {
    if |b| < 3 then
      LastSextets(b)
    else
      [High6(b[0]), Low2High4(b[0], b[1]), Low4High2(b[1], b[2]), Low6(b[2])] + Sextets(b[3..])
  }

  /** Refuses an impossible length and non-zero trailing bits. */
  function LastBytes(s: seq<sextet>): Option<seq<byte>>
    requires |s| < 4
  {
    if |s| == 0 then Some([])
    else if |s| == 1 then None
    else if |s| == 2 then
      if s[1] % 16 == 0 then Some([FirstByte(s[0], s[1])]) else None
    else
      if s[2] % 4 == 0 then Some([FirstByte(s[0], s[1]), SecondByte(s[1], s[2])]) else None
  }

  function Bytes(s: seq<sextet>): Option<seq<byte>> {
    if |s| < 4 then
      LastBytes(s)
    else
      match Bytes(s[4..])
      case None => None
      case Some(rest) => Some([FirstByte(s[0], s[1]), SecondByte(s[1], s[2]), ThirdByte(s[2], s[3])] + rest)
  }

  lemma LastBytesOfLastSextets(b: seq<byte>)
    requires |b| < 3
    ensures LastBytes(LastSextets(b)) == Some(b)
  {
    if |b| == 1 {
      assert [b[0]] == b;
    } else if |b| == 2 {
      assert [b[0], b[1]] == b;
    }
  }

  lemma LastSextetsOfLastBytes(s: seq<sextet>)
    requires |s| < 4 && LastBytes(s).Some?
    ensures |LastBytes(s).value| < 3 && LastSextets(LastBytes(s).value) == s
  {
    if |s| == 2 {
      SextetsOfBytes(s[0], s[1], 0, 0);
      assert [s[0], s[1]] == s;
    } else if |s| == 3 {
      SextetsOfBytes(s[0], s[1], s[2], 0);
      assert [s[0], s[1], s[2]] == s;
    }
  }

  lemma {:induction false} BytesOfAllSextets(b: seq<byte>)
    ensures Bytes(Sextets(b)) == Some(b)
  {
    if |b| < 3 {
      LastBytesOfLastSextets(b);
    } else {
      var s := Sextets(b);
      BytesOfAllSextets(b[3..]);
      BytesOfSextets(b[0], b[1], b[2]);
      assert s[4..] == Sextets(b[3..]);
      assert Bytes(s).value == [b[0], b[1], b[2]] + b[3..];
      assert b == [b[0], b[1], b[2]] + b[3..];
    }
  }

  lemma {:induction false} SextetsOfAllBytes(s: seq<sextet>)
    requires Bytes(s).Some?
    ensures Sextets(Bytes(s).value) == s
  {
    if |s| < 4 {
      LastSextetsOfLastBytes(s);
    } else {
      SextetsOfBytes(s[0], s[1], s[2], s[3]);
      SextetsOfAllBytes(s[4..]);
      assert Bytes(s).value[3..] == Bytes(s[4..]).value;
      assert s == [s[0], s[1], s[2], s[3]] + s[4..];
    }
  }

  function Base64(b: seq<byte>): string {
    Digits(Sextets(b))
  }

  function Unbase64(s: string): Option<seq<byte>> {
    match Values(s)
    case None => None
    case Some(sextets) => Bytes(sextets)
  }

  lemma Unbase64OfBase64(b: seq<byte>)
    ensures Unbase64(Base64(b)) == Some(b)
  {
    ValuesOfDigits(Sextets(b));
    BytesOfAllSextets(b);
  }

  lemma Base64OfUnbase64(s: string)
    requires Unbase64(s).Some?
    ensures Base64(Unbase64(s).value) == s
  {
    DigitsOfValues(s);
    SextetsOfAllBytes(Values(s).value);
  }

  /** The digits are those of table 2 of RFC 4648, written here in four rows. */
  lemma DigitsAreUrlSafe(n: sextet)
    ensures 0 <= n < 16 ==> Digit(n) == "ABCDEFGHIJKLMNOP"[n]
    ensures 16 <= n < 32 ==> Digit(n) == "QRSTUVWXYZabcdef"[n - 16]
    ensures 32 <= n < 48 ==> Digit(n) == "ghijklmnopqrstuv"[n - 32]
    ensures 48 <= n < 64 ==> Digit(n) == "wxyz0123456789-_"[n - 48]
  {
  }

  /** Three bytes and the four sextets they are written in are the same 24 bits. */
  lemma SameBits(x: byte, y: byte, z: byte)
    ensures
      var s := Sextets([x, y, z]);
      && |s| == 4
      && s[0] as int * 0x4_0000 + s[1] as int * 0x1000 + s[2] as int * 0x40 + s[3] as int ==
         x as int * 0x1_0000 + y as int * 0x100 + z as int
  {
  }

  // --- Public room titles --------------------------------------------------------------

  function EncodeTitle(value: string): Option<string> {
    match NormalizeTitle(value)
    case None => None
    case Some(title) => Some(Base64(Utf8.Encode(title)))
  }

  function DecodeTitle(value: string): Option<string> {
    match Unbase64(value)
    case None => None
    case Some(decoded) =>
      if Base64(decoded) != value then
        None
      else
        match Utf8.Decode(decoded)
        case None => None
        case Some(title) => if IsTitle(title) then Some(title) else None
  }

  /** A token decodes to a title exactly when it is the encoding of that title, and only
      normalised titles have one. */
  lemma TitleRoundTrip(token: string, title: string)
    ensures DecodeTitle(token) == Some(title) <==> IsTitle(title) && EncodeTitle(title) == Some(token)
  {
    if IsTitle(title) && EncodeTitle(title) == Some(token) {
      Unbase64OfBase64(Utf8.Encode(title));
      Utf8.DecodeOfEncode(title);
    }
    if DecodeTitle(token) == Some(title) {
      Utf8.EncodeOfDecode(Unbase64(token).value);
    }
  }

  /** Whatever the creator typed, the others read its normalised form, in a token without
      white space of at most 160 characters. */
  lemma EncodedTitleIsReadable(value: string)
    requires NormalizeTitle(value).Some?
    ensures
      var token := EncodeTitle(value).value;
      && DecodeTitle(token) == NormalizeTitle(value)
      && 0 < |token| <= 160
      && forall i | 0 <= i < |token| :: !IsWhitespace(token[i]) && token[i] as int < 0x80
  {
    var title := NormalizeTitle(value).value;
    NormalizeIsIdempotent(value, MAX_PUBLIC_ROOM_TITLE_CHARS, MAX_PUBLIC_ROOM_TITLE_BYTES);
    TitleRoundTrip(EncodeTitle(value).value, title);
    assert |Utf8.Encode(title)| >= 1;
  }

  // --- Invite codes --------------------------------------------------------------------

  function Expose(secret: seq<byte>): string {
    INVITE_PREFIX + Base64(secret)
  }

  function ParseInvite(value: string): Option<seq<byte>> {
    var text := Trim(value);
    if !(INVITE_PREFIX <= text) then
      None
    else
      var encoded := text[|INVITE_PREFIX|..];
      match Unbase64(encoded)
      case None => None
      case Some(secret) => if |secret| == 32 && Base64(secret) == encoded then Some(secret) else None
  }

  /** Each 32-byte secret has one accepted spelling, up to surrounding white space. */
  lemma InviteRoundTrip(value: string, secret: seq<byte>)
    ensures ParseInvite(value) == Some(secret) <==> |secret| == 32 && Trim(value) == "P2P2-" + Base64(secret)
  {
    hide Trim, Base64, Unbase64;
    var text := Trim(value);
    if |secret| == 32 && text == Expose(secret) {
      assert text[|INVITE_PREFIX|..] == Base64(secret);
      Unbase64OfBase64(secret);
    }
    if ParseInvite(value) == Some(secret) {
      assert text == text[..|INVITE_PREFIX|] + text[|INVITE_PREFIX|..];
    }
  }

  /** What `expose` prints is read back. */
  lemma ExposedInviteIsRead(secret: seq<byte>)
    requires |secret| == 32
    ensures ParseInvite(Expose(secret)) == Some(secret)
  {
    var text := Expose(secret);
    assert text[0] == 'P' && text[|text| - 1] == Base64(secret)[|Base64(secret)| - 1];
    TrimIsFixpoint(text);
    InviteRoundTrip(text, secret);
  }
}
