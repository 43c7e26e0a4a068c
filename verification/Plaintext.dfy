/** What a transport packet carries once decrypted: one tag byte and a body. */
module Plaintext {
  import opened Prelude
  import opened Protocol
  import Utf8

  const READY: byte := 1
  const READY_ACK: byte := 2
  const MESSAGE: byte := 3
  const MESSAGE_ACK: byte := 4
  const HEARTBEAT: byte := 5

  datatype Plain =
    | Ready(nickname: string)
    | ReadyAck
    | Message(id: u64, text: string)
    | MessageAck(id: u64)
    | Heartbeat

  // --- Big-endian integers -------------------------------------------------------------

  function Pow256(k: nat): (r: nat)
    ensures r > 0
  {
    if k == 0 then 1 else 256 * Pow256(k - 1)
  }

  function BigEndian(n: nat, width: nat): (b: seq<byte>)
    ensures |b| == width
  {
    if width == 0 then [] else BigEndian(n / 256, width - 1) + [n % 256]
  }

  function FromBigEndian(b: seq<byte>): (n: nat)
    ensures n < Pow256(|b|)
  {
    if b == [] then 0 else FromBigEndian(b[..|b| - 1]) * 256 + b[|b| - 1] as int
  }

  lemma {:induction false} FromBigEndianOf(n: nat, width: nat)
    requires n < Pow256(width)
    ensures FromBigEndian(BigEndian(n, width)) == n
  {
    if width > 0 {
      var b := BigEndian(n, width);
      assert b[..width - 1] == BigEndian(n / 256, width - 1);
      FromBigEndianOf(n / 256, width - 1);
    }
  }

  lemma {:induction false} BigEndianOfFrom(b: seq<byte>)
    ensures BigEndian(FromBigEndian(b), |b|) == b
  {
    if b != [] {
      BigEndianOfFrom(b[..|b| - 1]);
      assert b == b[..|b| - 1] + [b[|b| - 1]];
    }
  }

  lemma EightBytes()
    ensures Pow256(8) == MAX_U64 + 1
  {
    assert Pow256(2) == 0x1_0000;
    assert Pow256(4) == 256 * (256 * Pow256(2));
    assert Pow256(6) == 256 * (256 * Pow256(4));
    assert Pow256(8) == 256 * (256 * Pow256(6));
  }

  /** `u64::to_be_bytes`. */
  function IdBytes(id: u64): (b: seq<byte>)
    ensures |b| == 8
  {
    BigEndian(id, 8)
  }

  /** `u64::from_be_bytes`. */
  function IdOf(b: seq<byte>): u64
    requires |b| == 8
  {
    EightBytes();
    FromBigEndian(b)
  }

  // --- Tagged plaintexts ---------------------------------------------------------------

  predicate IsMessageText(text: string) {
    |text| <= MAX_MESSAGE_CHARS && |Utf8.Encode(text)| <= MAX_MESSAGE_BYTES
  }

  /** What an honest peer is willing to send. */
  predicate Sendable(plain: Plain) {
    match plain
    case Ready(nickname) => IsNickname(nickname)
    case Message(_, text) => IsMessageText(text)
    case _ => true
  }

  function Encode(plain: Plain): seq<byte> {
    match plain
    case Ready(nickname) => [READY] + Utf8.Encode(nickname)
    case ReadyAck => [READY_ACK]
    case Message(id, text) => [MESSAGE] + IdBytes(id) + Utf8.Encode(text)
    case MessageAck(id) => [MESSAGE_ACK] + IdBytes(id)
    case Heartbeat => [HEARTBEAT]
  }

  /** How a decrypted plaintext is understood; `None` is an authentication failure. */
  function Parse(b: seq<byte>): Option<Plain> {
    if b == [] then
      None
    else if b[0] == READY then
      match Utf8.Decode(b[1..])
      case Some(nickname) => if IsNickname(nickname) then Some(Ready(nickname)) else None
      case None => None
    else if b[0] == READY_ACK then
      Some(ReadyAck)
    else if b[0] == MESSAGE && |b| >= 9 then
      match Utf8.Decode(b[9..])
      case Some(text) => if IsMessageText(text) then Some(Message(IdOf(b[1..9]), text)) else None
      case None => None
    else if b[0] == MESSAGE_ACK && |b| == 9 then
      Some(MessageAck(IdOf(b[1..9])))
    else if b[0] == HEARTBEAT then
      Some(Heartbeat)
    else
      None
  }

  /** The receiver understands exactly what an honest sender meant. */
  lemma PlainRoundTrip(plain: Plain)
    requires Sendable(plain)
    ensures Parse(Encode(plain)) == Some(plain)
  {
    var b := Encode(plain);
    match plain
    case Ready(nickname) =>
      assert b[1..] == Utf8.Encode(nickname);
      Utf8.DecodeOfEncode(nickname);
    case ReadyAck =>
    case Message(id, text) =>
      assert b[1..9] == IdBytes(id);
      assert b[9..] == Utf8.Encode(text);
      Utf8.DecodeOfEncode(text);
      EightBytes();
      FromBigEndianOf(id, 8);
    case MessageAck(id) =>
      assert b[1..9] == IdBytes(id);
      EightBytes();
      FromBigEndianOf(id, 8);
    case Heartbeat =>
  }

  /** Nothing is understood but what an honest sender would have sent; only the tag of READY_ACK
      and of a heartbeat is looked at. */
  lemma ParseIsStrict(b: seq<byte>)
    ensures Parse(b).Some? ==> Sendable(Parse(b).value)
    ensures Parse(b) == Some(ReadyAck) <==> b != [] && b[0] == 2
    ensures Parse(b) == Some(Heartbeat) <==> b != [] && b[0] == 5
    ensures
      Parse(b).Some? && !Parse(b).value.ReadyAck? && !Parse(b).value.Heartbeat? ==> b == Encode(Parse(b).value)
  {
    hide IsNickname, Utf8.Decode, Utf8.Encode, BigEndian, FromBigEndian, Pow256;
    if Parse(b).Some? {
      match Parse(b).value
      case Ready(_) =>
        Utf8.EncodeOfDecode(b[1..]);
      case Message(_, _) =>
        Utf8.EncodeOfDecode(b[9..]);
        BigEndianOfFrom(b[1..9]);
        assert b == [b[0]] + b[1..9] + b[9..];
      case MessageAck(_) =>
        BigEndianOfFrom(b[1..9]);
        assert b == [b[0]] + b[1..9];
      case _ =>
    }
  }

  /** The tags on the wire. */
  lemma TagsOnTheWire(plain: Plain)
    ensures
      var b := Encode(plain);
      match plain
      case Ready(nickname) => b == [1] + Utf8.Encode(nickname)
      case ReadyAck => b == [2]
      case Message(id, text) => |b| >= 9 && b[0] == 3 && FromBigEndian(b[1..9]) == id && b[9..] == Utf8.Encode(text)
      case MessageAck(id) => |b| == 9 && b[0] == 4 && FromBigEndian(b[1..]) == id
      case Heartbeat => b == [5]
  {
    var b := Encode(plain);
    match plain
    case Message(id, text) =>
      assert b[1..9] == IdBytes(id) && b[9..] == Utf8.Encode(text);
      EightBytes();
      FromBigEndianOf(id, 8);
    case MessageAck(id) =>
      assert b[1..] == IdBytes(id);
      EightBytes();
      FromBigEndianOf(id, 8);
    case _ =>
  }

  /** What may be sent as a message. */
  lemma MessageLimits(text: string)
    ensures IsMessageText(text) <==> |text| <= 500 && |Utf8.Encode(text)| <= 1024
  {
  }

  /** No honest plaintext is longer than a full message. */
  lemma SendableLength(plain: Plain)
    requires Sendable(plain)
    ensures |Encode(plain)| <= 9 + MAX_MESSAGE_BYTES
  {
  }
}
