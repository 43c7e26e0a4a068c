/** Text as Rust keeps it: a `str` is a sequence of Unicode scalar values (Dafny's
    `string`) together with its UTF-8 bytes, in the sense of section 3 of RFC 3629. */
module Utf8 {
  import opened Prelude

  function Tail(n: nat): byte {
    0x80 + n % 64
  }

  predicate IsTail(b: byte) {
    0x80 <= b < 0xC0
  }

  /** Appends the six bits of a continuation byte. */
  function Join(high: nat, tail: byte): (r: nat)
    requires IsTail(tail)
    ensures r / 64 == high && r % 64 == tail - 0x80
  {
    high * 64 + (tail - 0x80) as int
  }

  predicate IsScalar(n: int) {
    0 <= n < 0xD800 || 0xE000 <= n < 0x11_0000
  }

  function EncodeChar(c: char): (r: seq<byte>)
    ensures 1 <= |r| <= 4
  {
    var n := c as int;
    if n < 0x80 then
      [n]
    else if n < 0x800 then
      [0xC0 + n / 64, Tail(n)]
    else if n < 0x1_0000 then
      [0xE0 + n / 4096, Tail(n / 64), Tail(n)]
    else
      [0xF0 + n / 262144, Tail(n / 4096), Tail(n / 64), Tail(n)]
  }

  /** `str::as_bytes`. */
  function Encode(s: string): seq<byte> {
    if s == [] then [] else EncodeChar(s[0]) + Encode(s[1..])
  }

  /** The first scalar value and its width; `None` for truncated, overlong, surrogate
      or out-of-range forms, all of which `String::from_utf8` refuses. */
  function DecodeFirst(b: seq<byte>): (r: Option<(char, nat)>)
    ensures r.Some? ==> 1 <= r.value.1 <= |b|
  {
    if |b| >= 1 && b[0] < 0x80 then
      Some((b[0] as char, 1))
    else if |b| >= 2 && 0xC0 <= b[0] < 0xE0 && IsTail(b[1]) then
      Checked(Join(b[0] - 0xC0, b[1]), 0x80, 2)
    else if |b| >= 3 && 0xE0 <= b[0] < 0xF0 && IsTail(b[1]) && IsTail(b[2]) then
      Checked(Join(Join(b[0] - 0xE0, b[1]), b[2]), 0x800, 3)
    else if |b| >= 4 && 0xF0 <= b[0] < 0xF8 && IsTail(b[1]) && IsTail(b[2]) && IsTail(b[3]) then
      Checked(Join(Join(Join(b[0] - 0xF0, b[1]), b[2]), b[3]), 0x1_0000, 4)
    else
      None
  }

  function Checked(n: int, least: int, width: nat): (r: Option<(char, nat)>)
    ensures r.Some? ==> r.value.1 == width
  {
    if least <= n && IsScalar(n) then Some((n as char, width)) else None
  }

  /** `String::from_utf8`. */
  function Decode(b: seq<byte>): Option<string> {
    if b == [] then
      Some([])
    else
      match DecodeFirst(b)
      case None => None
      case Some((c, width)) =>
        match Decode(b[width..])
        case None => None
        case Some(rest) => Some([c] + rest)
  }

  lemma DecodeEncodedChar(c: char, rest: seq<byte>)
    ensures DecodeFirst(EncodeChar(c) + rest) == Some((c, |EncodeChar(c)|))
  {
    var n := c as int;
    var e := EncodeChar(c);
    var b := e + rest;
    assert e <= b;
    assert IsScalar(n);
    if n < 0x80 {
    } else if n < 0x800 {
      assert b[0] == 0xC0 + n / 64 && b[1] == Tail(n);
      assert Join(b[0] - 0xC0, b[1]) == n;
    } else if n < 0x1_0000 {
      assert b[0] == 0xE0 + n / 4096 && b[1] == Tail(n / 64) && b[2] == Tail(n);
      assert n / 4096 == n / 64 / 64;
      JoinTail(n / 64);
      JoinTail(n);
    } else {
      assert b[0] == 0xF0 + n / 262144 && b[1] == Tail(n / 4096) && b[2] == Tail(n / 64) && b[3] == Tail(n);
      assert n / 262144 == n / 4096 / 64 && n / 4096 == n / 64 / 64;
      JoinTail(n / 4096);
      JoinTail(n / 64);
      JoinTail(n);
    }
  }

  lemma JoinTail(n: nat)
    ensures Join(n / 64, Tail(n)) == n
  {
  }

  lemma EncodeDecodedChar(b: seq<byte>)
    requires DecodeFirst(b).Some?
    ensures var (c, width) := DecodeFirst(b).value; EncodeChar(c) == b[..width]
  {
    var (c, width) := DecodeFirst(b).value;
    var n := c as int;
    var e := EncodeChar(c);
    if width == 2 {
      assert n == Join(b[0] - 0xC0, b[1]);
    } else if width == 3 {
      assert n / 64 == Join(b[0] - 0xE0, b[1]);
      assert n / 4096 == b[0] - 0xE0;
    } else if width == 4 {
      assert n / 64 == Join(Join(b[0] - 0xF0, b[1]), b[2]);
      assert n / 4096 == Join(b[0] - 0xF0, b[1]);
      assert n / 262144 == b[0] - 0xF0;
    }
    assert |e| == width;
    assert forall i | 0 <= i < width :: e[i] == b[i];
  }

  /** Reading back the bytes of any text gives the text. */
  lemma {:induction false} DecodeOfEncode(s: string)
    ensures Decode(Encode(s)) == Some(s)
  {
    if s != [] {
      var head, rest := EncodeChar(s[0]), Encode(s[1..]);
      DecodeEncodedChar(s[0], rest);
      assert (head + rest)[|head|..] == rest;
      DecodeOfEncode(s[1..]);
      assert [s[0]] + s[1..] == s;
    }
  }

  /** Only the bytes of a text are read back as that text. */
  lemma {:induction false} EncodeOfDecode(b: seq<byte>)
    requires Decode(b).Some?
    ensures Encode(Decode(b).value) == b
  {
    if b != [] {
      var (c, width) := DecodeFirst(b).value;
      EncodeDecodedChar(b);
      EncodeOfDecode(b[width..]);
      var s := Decode(b).value;
      assert s[1..] == Decode(b[width..]).value;
      assert b == b[..width] + b[width..];
    }
  }

  lemma {:induction false} EncodeAscii(s: string)
    requires forall i | 0 <= i < |s| :: s[i] as int < 0x80
    ensures |Encode(s)| == |s|
    ensures forall i | 0 <= i < |s| :: Encode(s)[i] == s[i] as int
  {
    if s != [] {
      EncodeAscii(s[1..]);
    }
  }
}
