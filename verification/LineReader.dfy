/** Reading signaling lines byte by byte. The server's reader can be cut off by a time-out
    between any two bytes and then continues with the buffer it kept (src/bin/server.rs,
    `read_bounded_line` and its call in `handle_client`); the client's starts each line
    anew (src/network/client.rs, `read_bounded_line`). */
module LineReader {
  import opened Prelude
  import opened Protocol
  import Utf8

  const LF: byte := 10
  const CR: byte := 13

  /** `Waiting`: the bytes ran out before the line did. The last four end the session. */
  datatype Outcome = Line(text: string) | Waiting | End | Partial | TooLong | NotUtf8

  /** One call with these bytes at hand: its outcome, the buffer and the bytes not read. */
  datatype Scan = Scan(outcome: Outcome, buffer: seq<byte>, rest: seq<byte>)

  function Finished(line: seq<byte>): (r: Outcome)
    ensures r.Line? || r.NotUtf8?
  {
    match Utf8.Decode(line)
    case Some(text) => Line(text)
    case None => NotUtf8
  }

  function AtEnd(buffer: seq<byte>, closed: bool): Outcome {
    if !closed then Waiting else if buffer == [] then End else Partial
  }

  function ScanLine(buffer: seq<byte>, input: seq<byte>, closed: bool): Scan
    decreases |input|
  {
    if input == [] then
      Scan(AtEnd(buffer, closed), buffer, [])
    else if input[0] == LF then
      Scan(Finished(buffer), [], input[1..])
    else
      var next := if input[0] == CR then buffer else buffer + [input[0]];
      if |next| > MAX_SIGNAL_LINE then Scan(TooLong, next, input[1..]) else ScanLine(next, input[1..], closed)
  }

  /** The server's reader. */
  class ResumableReader {
    var bytes: seq<byte>

    constructor ()
      ensures bytes == []
    {
      bytes := [];
    }

    /** Reads from `input`, after which the connection is `closed` or, if it is not, nothing
        more comes until the time-out. */
    method ReadBoundedLine(input: seq<byte>, closed: bool) returns (outcome: Outcome, rest: seq<byte>)
      modifies this
      ensures Scan(outcome, bytes, rest) == ScanLine(old(bytes), input, closed)
    {
      var i := 0;
      while true
        invariant i <= |input|
        invariant ScanLine(old(bytes), input, closed) == ScanLine(bytes, input[i..], closed)
        decreases |input| - i
      {
        if i == |input| {
          if !closed {
            return Waiting, [];
          }
          return if bytes == [] then End else Partial, [];
        }
        var byte := input[i];
        i := i + 1;
        if byte == LF {
          break;
        }
        if byte != CR {
          bytes := bytes + [byte];
        }
        if |bytes| > MAX_SIGNAL_LINE {
          return TooLong, input[i..];
        }
      }
      var line := bytes;
      bytes := [];
      return Finished(line), input[i..];
    }
  }

  /** The client's reader: the buffer lives as long as the call. */
  method ReadBoundedLine(input: seq<byte>) returns (outcome: Outcome, rest: seq<byte>)
    ensures
      var scan := ScanLine([], input, true);
      outcome == scan.outcome && rest == scan.rest
  {
    var bytes: seq<byte> := [];
    var i := 0;
    while true
      invariant i <= |input|
      invariant ScanLine([], input, true) == ScanLine(bytes, input[i..], true)
      decreases |input| - i
    {
      if i == |input| {
        return if bytes == [] then End else Partial, [];
      }
      var byte := input[i];
      i := i + 1;
      if byte == LF {
        break;
      }
      if byte != CR {
        bytes := bytes + [byte];
      }
      if |bytes| > MAX_SIGNAL_LINE {
        return TooLong, input[i..];
      }
    }
    return Finished(bytes), input[i..];
  }

  // --- Sessions ------------------------------------------------------------------------

  lemma {:induction false} ScanConsumes(buffer: seq<byte>, input: seq<byte>, closed: bool)
    ensures
      var scan := ScanLine(buffer, input, closed);
      && |scan.rest| <= |input|
      && (scan.outcome.Line? ==> |scan.rest| < |input| && scan.buffer == [])
      && (scan.outcome.Waiting? ==> scan.rest == [] && !closed)
    decreases |input|
  {
    if input != [] && input[0] != LF {
      var next := if input[0] == CR then buffer else buffer + [input[0]];
      if |next| <= MAX_SIGNAL_LINE {
        ScanConsumes(next, input[1..], closed);
      }
    }
  }

  /** The outcomes of the calls made while the bytes last, and the buffer then kept; the
      buffer is `None` once the session has ended. */
  function Drain(buffer: seq<byte>, input: seq<byte>, closed: bool): (seq<Outcome>, Option<seq<byte>>)
    decreases |input|
  {
    ScanConsumes(buffer, input, closed);
    var scan := ScanLine(buffer, input, closed);
    if scan.outcome.Line? then
      var (outcomes, kept) := Drain(scan.buffer, scan.rest, closed);
      ([scan.outcome] + outcomes, kept)
    else if scan.outcome.Waiting? then
      ([], Some(scan.buffer))
    else
      ([scan.outcome], None)
  }

  /** A session of the server's reader: the bytes of each element of `chunks` arrive before
      a time-out; after the last one the connection closes, if `closed`. */
  function Session(buffer: seq<byte>, chunks: seq<seq<byte>>, closed: bool): seq<Outcome>
    decreases |chunks|
  {
    if chunks == [] then
      Drain(buffer, [], closed).0
    else
      var (outcomes, kept) := Drain(buffer, chunks[0], false);
      outcomes + (if kept.Some? then Session(kept.value, chunks[1..], closed) else [])
  }

  /** A session of the client's reader, which is never cut off. */
  function ClientSession(stream: seq<byte>): seq<Outcome>
    decreases |stream|
  {
    ScanConsumes([], stream, true);
    var scan := ScanLine([], stream, true);
    [scan.outcome] + (if scan.outcome.Line? then ClientSession(scan.rest) else [])
  }

  // --- What the lines of a stream are --------------------------------------------------

  function FirstLf(stream: seq<byte>): (r: Option<nat>)
    ensures r.Some? ==> r.value < |stream| && stream[r.value] == LF
  {
    if stream == [] then None
    else if stream[0] == LF then Some(0)
    else match FirstLf(stream[1..])
      case Some(i) => Some(i + 1)
      case None => None
  }

  function WithoutCr(bytes: seq<byte>): seq<byte> {
    if bytes == [] then [] else (if bytes[0] == CR then [] else [bytes[0]]) + WithoutCr(bytes[1..])
  }

  /** The stream split at line feeds, carriage returns dropped, up to its first fault. */
  function Lines(stream: seq<byte>, closed: bool): seq<Outcome>
    decreases |stream|
  {
    match FirstLf(stream)
    case None =>
      var content := WithoutCr(stream);
      if |content| > MAX_SIGNAL_LINE then [TooLong]
      else if !closed then []
      else if content == [] then [End]
      else [Partial]
    case Some(i) =>
      var content := WithoutCr(stream[..i]);
      if |content| > MAX_SIGNAL_LINE then [TooLong]
      else match Utf8.Decode(content)
        case Some(text) => [Line(text)] + Lines(stream[i + 1..], closed)
        case None => [NotUtf8]
  }

  function Concat(chunks: seq<seq<byte>>): seq<byte> {
    if chunks == [] then [] else chunks[0] + Concat(chunks[1..])
  }

  /** The content of the line in progress: what the buffer holds and what comes before the
      first line feed, or before the end. */
  function Content(buffer: seq<byte>, stream: seq<byte>): seq<byte> {
    buffer + WithoutCr(match FirstLf(stream) case Some(i) => stream[..i] case None => stream)
  }

  lemma ContentStep(buffer: seq<byte>, stream: seq<byte>)
    requires stream != [] && stream[0] != LF
    ensures
      var next := if stream[0] == CR then buffer else buffer + [stream[0]];
      Content(buffer, stream) == Content(next, stream[1..])
  {
    var rest := stream[1..];
    if FirstLf(rest).Some? {
      var i := FirstLf(rest).value;
      assert stream[..i + 1][1..] == rest[..i];
    }
  }

  lemma {:induction false} ScanFindsTheLine(buffer: seq<byte>, stream: seq<byte>, closed: bool)
    requires |buffer| <= MAX_SIGNAL_LINE
    ensures
      var scan, content := ScanLine(buffer, stream, closed), Content(buffer, stream);
      if |content| > MAX_SIGNAL_LINE then scan.outcome == TooLong
      else match FirstLf(stream)
           case None => scan.outcome == AtEnd(content, closed)
           case Some(i) => scan == Scan(Finished(content), [], stream[i + 1..])
    decreases |stream|
  {
    hide Finished;
    if stream == [] || stream[0] == LF {
      assert stream[..0] == [] && buffer + [] == buffer;
    } else {
      var next := if stream[0] == CR then buffer else buffer + [stream[0]];
      var rest := stream[1..];
      ContentStep(buffer, stream);
      if |next| <= MAX_SIGNAL_LINE {
        ScanFindsTheLine(next, rest, closed);
        assert FirstLf(rest).Some? ==> stream[FirstLf(rest).value + 2..] == rest[FirstLf(rest).value + 1..];
      } else {
        assert |Content(next, rest)| > MAX_SIGNAL_LINE;
      }
    }
  }

  /** Draining all the bytes at once yields the lines of the stream. */
  lemma {:induction false} DrainYieldsTheLines(stream: seq<byte>, closed: bool)
    ensures Drain([], stream, closed).0 == Lines(stream, closed)
    decreases |stream|
  {
    ScanFindsTheLine([], stream, closed);
    ScanConsumes([], stream, closed);
    hide Finished;
    assert Content([], stream) == WithoutCr(match FirstLf(stream) case Some(i) => stream[..i] case None => stream);
    var scan := ScanLine([], stream, closed);
    if scan.outcome.Line? {
      DrainYieldsTheLines(scan.rest, closed);
    }
  }

  lemma {:induction false} ScanResumes(buffer: seq<byte>, a: seq<byte>, b: seq<byte>, closed: bool)
    ensures
      var first := ScanLine(buffer, a, false);
      ScanLine(buffer, a + b, closed) ==
      if first.outcome.Waiting? then ScanLine(first.buffer, b, closed) else first.(rest := first.rest + b)
    decreases |a|
  {
    hide Finished;
    if a == [] {
      assert a + b == b;
    } else {
      assert (a + b)[1..] == a[1..] + b;
      var next := if a[0] == CR then buffer else buffer + [a[0]];
      if a[0] != LF && |next| <= MAX_SIGNAL_LINE {
        ScanResumes(next, a[1..], b, closed);
      }
    }
  }

  /** Cutting the bytes in two changes nothing. */
  lemma {:induction false} DrainResumes(buffer: seq<byte>, a: seq<byte>, b: seq<byte>, closed: bool)
    ensures
      var (outcomes, kept) := Drain(buffer, a, false);
      Drain(buffer, a + b, closed).0 == outcomes + (if kept.Some? then Drain(kept.value, b, closed).0 else [])
    decreases |a|
  {
    var first := ScanLine(buffer, a, false);
    ScanResumes(buffer, a, b, closed);
    ScanConsumes(buffer, a, false);
    if first.outcome.Line? {
      DrainResumes(first.buffer, first.rest, b, closed);
    }
  }

  lemma {:induction false} SessionDrains(buffer: seq<byte>, chunks: seq<seq<byte>>, closed: bool)
    ensures Session(buffer, chunks, closed) == Drain(buffer, Concat(chunks), closed).0
    decreases |chunks|
  {
    hide Drain;
    if chunks != [] {
      var (outcomes, kept) := Drain(buffer, chunks[0], false);
      DrainResumes(buffer, chunks[0], Concat(chunks[1..]), closed);
      if kept.Some? {
        SessionDrains(kept.value, chunks[1..], closed);
      }
    }
  }

  /** However time-outs cut the stream, the server reads the lines of the whole stream, up
      to the same first fault. */
  lemma CutsDoNotMatter(chunks: seq<seq<byte>>, closed: bool)
    ensures Session([], chunks, closed) == Lines(Concat(chunks), closed)
  {
    SessionDrains([], chunks, closed);
    DrainYieldsTheLines(Concat(chunks), closed);
  }

  /** The client's reader reads the same. */
  lemma {:induction false} ClientAgrees(stream: seq<byte>)
    ensures ClientSession(stream) == Lines(stream, true)
    decreases |stream|
  {
    ScanConsumes([], stream, true);
    DrainYieldsTheLines(stream, true);
    var scan := ScanLine([], stream, true);
    if scan.outcome.Line? {
      ClientAgrees(scan.rest);
      DrainYieldsTheLines(scan.rest, true);
    }
  }

  /** No line is longer than 512 bytes or contains a line feed or carriage return. */
  lemma {:induction false} LinesAreBounded(stream: seq<byte>, closed: bool, k: nat)
    requires k < |Lines(stream, closed)| && Lines(stream, closed)[k].Line?
    ensures
      var line := Utf8.Encode(Lines(stream, closed)[k].text);
      |line| <= 512 && LF !in line && CR !in line
    decreases |stream|
  {
    hide Finished, Utf8.Encode, WithoutCr, FirstLf;
    var i := FirstLf(stream);
    if i.Some? {
      if k == 0 {
        FirstLineIsBounded(stream, i.value);
      } else {
        var rest := stream[i.value + 1..];
        assert Lines(stream, closed)[k] == Lines(rest, closed)[k - 1];
        LinesAreBounded(rest, closed, k - 1);
      }
    }
  }

  lemma FirstLineIsBounded(stream: seq<byte>, n: nat)
    requires FirstLf(stream) == Some(n)
    ensures
      var content := WithoutCr(stream[..n]);
      Utf8.Decode(content).Some? ==>
        var line := Utf8.Encode(Utf8.Decode(content).value);
        line == content && LF !in line && CR !in line
  {
    hide Utf8.Decode, Utf8.Encode;
    ContentIsClean(stream, n);
    if Utf8.Decode(WithoutCr(stream[..n])).Some? {
      Utf8.EncodeOfDecode(WithoutCr(stream[..n]));
    }
  }

  lemma {:induction false} ContentIsClean(stream: seq<byte>, n: nat)
    requires n <= |stream| && (FirstLf(stream).Some? ==> n <= FirstLf(stream).value)
    ensures LF !in WithoutCr(stream[..n]) && CR !in WithoutCr(stream[..n])
  {
    if n > 0 {
      ContentIsClean(stream[1..], n - 1);
      assert stream[..n][1..] == stream[1..][..n - 1];
    }
  }

  // --- What is accepted ----------------------------------------------------------------

  lemma {:induction false} FirstLfAfter(bytes: seq<byte>, rest: seq<byte>)
    requires LF !in bytes
    ensures FirstLf(bytes + [LF] + rest) == Some(|bytes|)
  {
    var stream := bytes + [LF] + rest;
    if bytes != [] {
      assert stream[0] == bytes[0] && bytes[0] in bytes;
      assert stream[1..] == bytes[1..] + [LF] + rest;
      FirstLfAfter(bytes[1..], rest);
    }
  }

  lemma {:induction false} NothingToDrop(bytes: seq<byte>)
    requires CR !in bytes
    ensures WithoutCr(bytes) == bytes
  {
    if bytes != [] {
      assert bytes[0] in bytes;
      NothingToDrop(bytes[1..]);
    }
  }

  lemma {:induction false} LineBreaksAreChars(text: string)
    requires '\n' !in text && '\r' !in text
    ensures LF !in Utf8.Encode(text) && CR !in Utf8.Encode(text)
  {
    if text != [] {
      assert text[0] in text;
      LineBreaksAreChars(text[1..]);
      assert LF !in Utf8.EncodeChar(text[0]) && CR !in Utf8.EncodeChar(text[0]);
    }
  }

  /** Every line of up to 512 bytes is read as the text it is, however time-outs cut the bytes
      and wherever there are carriage returns in it; then the rest is read. */
  lemma EveryLineIsAccepted(text: string, bytes: seq<byte>, rest: seq<byte>, chunks: seq<seq<byte>>, closed: bool)
    requires LF !in bytes && WithoutCr(bytes) == Utf8.Encode(text) && |Utf8.Encode(text)| <= 512
    requires Concat(chunks) == bytes + [LF] + rest
    ensures Session([], chunks, closed) == [Line(text)] + Session([], [rest], closed)
    ensures ClientSession(bytes + [LF] + rest) == [Line(text)] + ClientSession(rest)
  {
    hide Session, ClientSession, Utf8.Encode, Utf8.Decode;
    LineThenRest(text, bytes, rest, closed);
    LineThenRest(text, bytes, rest, true);
    CutsDoNotMatter(chunks, closed);
    CutsDoNotMatter([rest], closed);
    assert Concat([rest]) == rest by {
      assert rest + [] == rest;
    }
    ClientAgrees(bytes + [LF] + rest);
    ClientAgrees(rest);
  }

  lemma LineThenRest(text: string, bytes: seq<byte>, rest: seq<byte>, closed: bool)
    requires LF !in bytes && WithoutCr(bytes) == Utf8.Encode(text) && |Utf8.Encode(text)| <= 512
    ensures Lines(bytes + [LF] + rest, closed) == [Line(text)] + Lines(rest, closed)
  {
    hide Utf8.Encode, Utf8.Decode, WithoutCr;
    var stream := bytes + [LF] + rest;
    FirstLfAfter(bytes, rest);
    assert stream[..|bytes|] == bytes && stream[|bytes| + 1..] == rest;
    Utf8.DecodeOfEncode(text);
  }

  /** A text without line breaks, as it is sent. */
  lemma SentTextIsAccepted(text: string, rest: seq<byte>, chunks: seq<seq<byte>>, closed: bool)
    requires '\n' !in text && '\r' !in text && |Utf8.Encode(text)| <= 512
    requires Concat(chunks) == Utf8.Encode(text) + [LF] + rest
    ensures Session([], chunks, closed) == [Line(text)] + Session([], [rest], closed)
  {
    hide Session, Utf8.Encode, WithoutCr;
    LineBreaksAreChars(text);
    NothingToDrop(Utf8.Encode(text));
    EveryLineIsAccepted(text, Utf8.Encode(text), rest, chunks, closed);
  }

  /** When the first outcome is a fault, and which. */
  lemma FirstFault(chunks: seq<seq<byte>>, closed: bool)
    ensures
      var stream, outcomes := Concat(chunks), Session([], chunks, closed);
      match FirstLf(stream)
      case Some(i) =>
        var content := WithoutCr(stream[..i]);
        && outcomes != []
        && (outcomes[0] == TooLong <==> |content| > 512)
        && (outcomes[0] == NotUtf8 <==> |content| <= 512 && Utf8.Decode(content).None?)
        && outcomes[0] != End && outcomes[0] != Partial
      case None =>
        var content := WithoutCr(stream);
        && (outcomes == [] <==> |content| <= 512 && !closed)
        && (outcomes == [TooLong] <==> |content| > 512)
        && (outcomes == [End] <==> content == [] && closed)
        && (outcomes == [Partial] <==> 0 < |content| <= 512 && closed)
  {
    hide Session, Utf8.Decode, WithoutCr;
    CutsDoNotMatter(chunks, closed);
  }
}
