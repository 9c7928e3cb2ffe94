/**
 * Length-prefixed frames over a byte stream: four bytes of body length, most significant
 * first (Appendix B of RFC 791), then a body of at most 1 MiB. Both ends decode
 * incrementally from whatever chunks TCP delivers.
 */
module Framing {
  import opened Protocol

  type Byte = b: int | 0 <= b < 256
  type Bytes = seq<Byte>

  const MAX_BODY := 1024 * 1024
  const HEADER := 4

  function Header(n: nat): Bytes
    requires n < 0x1_0000_0000
  {
    [n / 0x100_0000, n / 0x1_0000 % 0x100, n / 0x100 % 0x100, n % 0x100]
  }

  /** The number a sequence of bytes denotes, most significant byte first. */
  function Value(b: Bytes): nat {
    if |b| == 0 then 0 else Value(b[..|b|-1]) * 0x100 + b[|b|-1] as nat
  }

  function BodyLength(buf: Bytes): nat
    requires |buf| >= HEADER
  {
    Value(buf[..HEADER])
  }

  predicate Sendable(body: Bytes) {
    1 <= |body| <= MAX_BODY
  }

  /** What sendJson writes for one body. */
  function Frame(body: Bytes): Bytes
    requires Sendable(body)
  {
    Header(|body|) + body
  }

  function Stream(bodies: seq<Bytes>): Bytes
    requires forall k :: 0 <= k < |bodies| ==> Sendable(bodies[k])
  {
    if |bodies| == 0 then [] else Frame(bodies[0]) + Stream(bodies[1..])
  }

  /** Bodies taken from a buffer, what stays in it, and whether an impossible length was met. */
  datatype Decoded = Decoded(bodies: seq<Bytes>, rest: Bytes, bad: bool)

  predicate BadLength(n: nat) {
    n == 0 || n > MAX_BODY
  }

  /** What the front of a buffer holds: too little, an impossible length, or a whole body. */
  datatype Front = Partial | Bad | Whole(body: Bytes, rest: Bytes)

  function Peek(buf: Bytes): Front {
    if |buf| < HEADER then Partial
    else if BadLength(BodyLength(buf)) then Bad
    else if |buf| < HEADER + BodyLength(buf) then Partial
    else Whole(buf[HEADER..HEADER + BodyLength(buf)], buf[HEADER + BodyLength(buf)..])
  }

  /** d with the bodies already taken in front. */
  function Onto(done: seq<Bytes>, d: Decoded): Decoded {
    d.(bodies := done + d.bodies)
  }

  /** The decode loop; an impossible length empties the buffer. */
  function Decode(buf: Bytes): Decoded
    decreases |buf|
  {
    match Peek(buf)
    case Partial => Decoded([], buf, false)
    case Bad => Decoded([], [], true)
    case Whole(body, rest) => Onto([body], Decode(rest))
  }

  /** Bodies decoded from a sequence of chunks, each appended to what the one before left over. */
  function Feed(chunks: seq<Bytes>): Decoded {
    if |chunks| == 0 then Decoded([], [], false)
    else
      var before := Feed(chunks[..|chunks|-1]);
      var d := Decode(before.rest + chunks[|chunks|-1]);
      Decoded(before.bodies + d.bodies, d.rest, before.bad || d.bad)
  }

  function Concat(chunks: seq<Bytes>): Bytes {
    if |chunks| == 0 then [] else Concat(chunks[..|chunks|-1]) + chunks[|chunks|-1]
  }

  /** The messages among bodies that parse; the others are skipped. */
  function Parsed(bodies: seq<Bytes>, parse: Bytes -> Option<Json>): seq<Json> {
    if |bodies| == 0 then []
    else
      var front := Parsed(bodies[..|bodies|-1], parse);
      match parse(bodies[|bodies|-1])
      case Some(js) => front + [js]
      case None => front
  }

  // ---------- properties ----------

  lemma {:induction false} HeaderValue(n: nat)
    requires n < 0x1_0000_0000
    ensures Value(Header(n)) == n
  {
    var h := Header(n);
    var a, b, c := n / 0x100, n / 0x1_0000, n / 0x100_0000;
    assert b == a / 0x100 && c == b / 0x100;
    assert h[..3][..2] == h[..2] && h[..2][..1] == h[..1] && h[..1][..0] == [];
    assert Value(h[..1]) == c;
    assert Value(h[..2]) == b;
    assert Value(h[..3]) == a;
  }

  /** The length is read most significant byte first, and a body is between 1 byte and 1 MiB long. */
  lemma {:induction false} PeekFour(buf: Bytes)
    requires |buf| >= 4
    ensures var n := buf[0] as int * 0x100_0000 + buf[1] as int * 0x1_0000 + buf[2] as int * 0x100 + buf[3];
            Peek(buf) == if n == 0 || n > 1_048_576 then Bad
                         else if |buf| < 4 + n then Partial else Whole(buf[4..4 + n], buf[4 + n..])
  {
    var h := buf[..4];
    assert h[..3][..2] == h[..2] && h[..2][..1] == h[..1] && h[..1][..0] == [];
    assert Value(h[..1]) == buf[0];
    assert Value(h[..2]) == buf[0] as int * 0x100 + buf[1];
    assert Value(h[..3]) == buf[0] as int * 0x1_0000 + buf[1] as int * 0x100 + buf[2];
  }

  lemma {:induction false} HeaderRoundTrip(n: nat, tail: Bytes)
    requires n < 0x1_0000_0000
    ensures BodyLength(Header(n) + tail) == n
  {
    HeaderValue(n);
    assert (Header(n) + tail)[..HEADER] == Header(n);
  }

  /** More bytes behind a buffer change nothing about what its front holds, unless it is partial. */
  lemma {:induction false} PeekMore(a: Bytes, b: Bytes)
    ensures Peek(a).Bad? ==> Peek(a + b).Bad?
    ensures Peek(a).Whole? ==> Peek(a + b) == Whole(Peek(a).body, Peek(a).rest + b)
  {
    if |a| >= HEADER {
      assert (a + b)[..HEADER] == a[..HEADER];
      if Peek(a).Whole? {
        var n := HEADER + BodyLength(a);
        assert (a + b)[HEADER..n] == a[HEADER..n];
        assert (a + b)[n..] == a[n..] + b;
      }
    }
  }

  lemma {:induction false} OntoTwice(a: seq<Bytes>, b: seq<Bytes>, d: Decoded)
    ensures Onto(a, Onto(b, d)) == Onto(a + b, d)
  {
    assert a + (b + d.bodies) == (a + b) + d.bodies;
  }

  /** Decoding can stop after any part of the input and resume with the leftover in front of the rest. */
  lemma {:induction false} Resume(a: Bytes, b: Bytes)
    requires !Decode(a).bad
    ensures Decode(a + b) == Onto(Decode(a).bodies, Decode(Decode(a).rest + b))
    decreases |a|
  {
    PeekMore(a, b);
    match Peek(a)
    case Partial => assert [] + Decode(a + b).bodies == Decode(a + b).bodies;
    case Whole(body, rest) =>
      Resume(rest, b);
      OntoTwice([body], Decode(rest).bodies, Decode(Decode(rest).rest + b));
  }

  lemma {:induction false} GoodPrefix(a: Bytes, b: Bytes)
    requires !Decode(a + b).bad
    ensures !Decode(a).bad
    decreases |a|
  {
    PeekMore(a, b);
    if Peek(a).Whole? {
      GoodPrefix(Peek(a).rest, b);
    }
  }

  /** Up to the first impossible length, only the bytes matter, not how they were cut into chunks. */
  lemma {:induction false} ChunksDoNotMatter(chunks: seq<Bytes>)
    requires !Decode(Concat(chunks)).bad
    ensures Feed(chunks) == Decode(Concat(chunks))
  {
    if |chunks| > 0 {
      var front, last := chunks[..|chunks|-1], chunks[|chunks|-1];
      GoodPrefix(Concat(front), last);
      ChunksDoNotMatter(front);
      Resume(Concat(front), last);
    }
  }

  /** a is a proper beginning of frame. */
  predicate StrictPrefix(a: Bytes, frame: Bytes) {
    |a| < |frame| && a == frame[..|a|]
  }

  lemma {:induction false} PeekFrame(body: Bytes, more: Bytes)
    requires Sendable(body)
    ensures Peek(Frame(body) + more) == Whole(body, more)
  {
    HeaderRoundTrip(|body|, body + more);
    assert Frame(body) + more == Header(|body|) + (body + more);
    assert (Frame(body) + more)[HEADER..HEADER + |body|] == body;
    assert (Frame(body) + more)[HEADER + |body|..] == more;
  }

  lemma {:induction false} PeekCut(body: Bytes, cut: nat)
    requires Sendable(body) && cut < |Frame(body)|
    ensures Peek(Frame(body)[..cut]) == Partial
  {
    if cut >= HEADER {
      HeaderValue(|body|);
      assert Frame(body)[..cut][..HEADER] == Header(|body|);
    }
  }

  /** Decoding any beginning of a stream yields the complete frames in order and keeps the incomplete one. */
  lemma {:induction false} DecodePrefix(bodies: seq<Bytes>, cut: nat)
    requires forall k :: 0 <= k < |bodies| ==> Sendable(bodies[k])
    requires cut <= |Stream(bodies)|
    ensures var d := Decode(Stream(bodies)[..cut]);
            var k := |d.bodies|;
            && !d.bad && k <= |bodies| && d.bodies == bodies[..k]
            && (if k < |bodies| then StrictPrefix(d.rest, Frame(bodies[k])) else d.rest == [])
            && (cut == |Stream(bodies)| ==> k == |bodies|)
  {
    if |bodies| > 0 {
      var body, tail := bodies[0], Stream(bodies[1..]);
      var buf := Stream(bodies)[..cut];
      if cut < |Frame(body)| {
        assert buf == Frame(body)[..cut];
        PeekCut(body, cut);
      } else {
        var more := tail[..cut - |Frame(body)|];
        assert buf == Frame(body) + more;
        PeekFrame(body, more);
        DecodePrefix(bodies[1..], cut - |Frame(body)|);
        var d := Decode(more);
        assert bodies[..1 + |d.bodies|] == [body] + d.bodies;
      }
    }
  }

  lemma {:induction false} ConcatPrefix(chunks: seq<Bytes>, i: nat)
    requires i <= |chunks|
    ensures |Concat(chunks[..i])| <= |Concat(chunks)| && Concat(chunks[..i]) == Concat(chunks)[..|Concat(chunks[..i])|]
  {
    if i < |chunks| {
      var front := chunks[..|chunks|-1];
      ConcatPrefix(front, i);
      assert front[..i] == chunks[..i];
    } else {
      assert chunks[..i] == chunks;
    }
  }

  lemma {:induction false} FeedOfPrefix(bodies: seq<Bytes>, chunks: seq<Bytes>, i: nat)
    requires forall k :: 0 <= k < |bodies| ==> Sendable(bodies[k])
    requires Concat(chunks) == Stream(bodies) && i <= |chunks|
    ensures var d := Feed(chunks[..i]);
            var k := |d.bodies|;
            && !d.bad && k <= |bodies| && d.bodies == bodies[..k]
            && (if k < |bodies| then StrictPrefix(d.rest, Frame(bodies[k])) else d.rest == [])
            && (i == |chunks| ==> k == |bodies|)
  {
    ConcatPrefix(chunks, i);
    var cut := |Concat(chunks[..i])|;
    assert i == |chunks| ==> chunks[..i] == chunks;
    DecodePrefix(bodies, cut);
    ChunksDoNotMatter(chunks[..i]);
  }

  /**
   * However a stream of frames is cut into chunks, the bodies come out whole, in order and
   * nothing else; and after every chunk what is kept is a strict beginning of the next frame.
   */
  lemma {:induction false} FragmentedRoundTrip(bodies: seq<Bytes>, chunks: seq<Bytes>, i: nat)
    requires forall k :: 0 <= k < |bodies| ==> Sendable(bodies[k])
    requires Concat(chunks) == Stream(bodies) && i <= |chunks|
    ensures Feed(chunks) == Decoded(bodies, [], false)
    ensures var d := Feed(chunks[..i]);
            var k := |d.bodies|;
            && !d.bad && k <= |bodies| && d.bodies == bodies[..k]
            && (if k < |bodies| then StrictPrefix(d.rest, Frame(bodies[k])) else d.rest == [])
            && |d.rest| < HEADER + MAX_BODY
  {
    FeedOfPrefix(bodies, chunks, i);
    FeedOfPrefix(bodies, chunks, |chunks|);
    assert chunks[..|chunks|] == chunks;
  }

  lemma {:induction false} ParsedConcat(a: seq<Bytes>, b: seq<Bytes>, parse: Bytes -> Option<Json>)
    ensures Parsed(a + b, parse) == Parsed(a, parse) + Parsed(b, parse)
  {
    if |b| == 0 {
      assert a + b == a;
    } else {
      assert (a + b)[..|a + b|-1] == a + b[..|b|-1];
      ParsedConcat(a, b[..|b|-1], parse);
    }
  }

  // ---------- the two decoders ----------

  lemma {:induction false} ParsedLast(done: seq<Bytes>, msg: Bytes, parse: Bytes -> Option<Json>)
    ensures Parsed(done + [msg], parse) ==
            Parsed(done, parse) + match parse(msg) case Some(js) => [js] case None => []
  {
    assert (done + [msg])[..|done|] == done;
  }

  /** The invariant of both decode loops: the bodies in done and what the buffer still holds make up the input. */
  predicate Progress(input: Bytes, done: seq<Bytes>, buf: Bytes) {
    Decode(input) == Onto(done, Decode(buf))
  }

  lemma {:induction false} Start(input: Bytes)
    ensures Progress(input, [], input)
  {
    assert [] + Decode(input).bodies == Decode(input).bodies;
  }

  lemma {:induction false} Round(input: Bytes, done: seq<Bytes>, buf: Bytes)
    requires Progress(input, done, buf)
    ensures match Peek(buf)
            case Partial => Decode(input) == Decoded(done, buf, false)
            case Bad => Decode(input) == Decoded(done, [], true)
            case Whole(body, rest) => Progress(input, done + [body], rest)
  {
    assert done + [] == done;
    if Peek(buf).Whole? {
      OntoTwice(done, [Peek(buf).body], Decode(Peek(buf).rest));
    }
  }

  /** One server-side connection: its input buffer and the messages handed to the service. */
  class ServerConnection {
    var buffer: Bytes
    var dispatched: seq<Json>

    constructor ()
      ensures buffer == [] && dispatched == []
    {
      buffer, dispatched := [], [];
    }

    method OnMessage(chunk: Bytes, parse: Bytes -> Option<Json>)
      modifies this
      ensures var d := Decode(old(buffer) + chunk);
              buffer == d.rest && dispatched == old(dispatched) + Parsed(d.bodies, parse)
    {
      buffer := buffer + chunk;
      ghost var input := buffer;
      ghost var done: seq<Bytes> := [];
      Start(input);
      while |buffer| >= HEADER
        invariant Progress(input, done, buffer)
        invariant dispatched == old(dispatched) + Parsed(done, parse)
        decreases |buffer|
      {
        Round(input, done, buffer);
        var totalLen := BodyLength(buffer);
        if totalLen > MAX_BODY || totalLen == 0 {
          assert Peek(buffer) == Bad;
          buffer := [];
          return;
        }
        if |buffer| < HEADER + totalLen {
          assert Peek(buffer) == Partial;
          return;
        }
        var msg := buffer[HEADER..HEADER + totalLen];
        assert Peek(buffer) == Whole(msg, buffer[HEADER + totalLen..]);
        buffer := buffer[HEADER + totalLen..];
        ParsedLast(done, msg, parse);
        match parse(msg) {
          case Some(js) => dispatched := dispatched + [js];
          case None =>
        }
        done := done + [msg];
      }
      Round(input, done, buffer);
    }
  }

  /** The client's receive path: an impossible length also aborts the socket. */
  class ClientReceiver {
    var recvBuf: Bytes
    var handled: seq<Json>
    var aborted: bool

    constructor ()
      ensures recvBuf == [] && handled == [] && !aborted
    {
      recvBuf, handled, aborted := [], [], false;
    }

    method OnReadyRead(chunk: Bytes, parse: Bytes -> Option<Json>)
      modifies this
      ensures var d := Decode(old(recvBuf) + chunk);
              && recvBuf == d.rest && handled == old(handled) + Parsed(d.bodies, parse)
              && aborted == (old(aborted) || d.bad)
    {
      recvBuf := recvBuf + chunk;
      ghost var input := recvBuf;
      ghost var done: seq<Bytes> := [];
      Start(input);
      while |recvBuf| >= HEADER
        invariant Progress(input, done, recvBuf)
        invariant handled == old(handled) + Parsed(done, parse)
        invariant aborted == old(aborted)
        decreases |recvBuf|
      {
        Round(input, done, recvBuf);
        var len := BodyLength(recvBuf);
        if len == 0 || len > MAX_BODY {
          assert Peek(recvBuf) == Bad;
          recvBuf := [];
          aborted := true;
          return;
        }
        if |recvBuf| < HEADER + len {
          assert Peek(recvBuf) == Partial;
          return;
        }
        var jsonBytes := recvBuf[HEADER..HEADER + len];
        assert Peek(recvBuf) == Whole(jsonBytes, recvBuf[HEADER + len..]);
        recvBuf := recvBuf[HEADER + len..];
        ParsedLast(done, jsonBytes, parse);
        done := done + [jsonBytes];
        var parsed := parse(jsonBytes);
        if parsed == None {
          continue;
        }
        handled := handled + [parsed.value];
      }
      Round(input, done, recvBuf);
    }
  }

  /** A server connection fed a stream of frames in any chunks dispatches exactly the bodies that parse. */
  method ServerReceives(conn: ServerConnection, ghost bodies: seq<Bytes>, chunks: seq<Bytes>, parse: Bytes -> Option<Json>)
    requires conn.buffer == [] && conn.dispatched == []
    requires forall k :: 0 <= k < |bodies| ==> Sendable(bodies[k])
    requires Concat(chunks) == Stream(bodies)
    modifies conn
    ensures conn.buffer == [] && conn.dispatched == Parsed(bodies, parse)
  {
    for i := 0 to |chunks|
      invariant conn.buffer == Feed(chunks[..i]).rest
      invariant conn.dispatched == Parsed(Feed(chunks[..i]).bodies, parse)
    {
      assert chunks[..i+1][..i] == chunks[..i];
      ParsedConcat(Feed(chunks[..i]).bodies, Decode(conn.buffer + chunks[i]).bodies, parse);
      conn.OnMessage(chunks[i], parse);
    }
    assert chunks[..|chunks|] == chunks;
    FragmentedRoundTrip(bodies, chunks, 0);
  }

  /** The same for the client, which moreover never aborts on such a stream. */
  method ClientReceives(client: ClientReceiver, ghost bodies: seq<Bytes>, chunks: seq<Bytes>, parse: Bytes -> Option<Json>)
    requires client.recvBuf == [] && client.handled == [] && !client.aborted
    requires forall k :: 0 <= k < |bodies| ==> Sendable(bodies[k])
    requires Concat(chunks) == Stream(bodies)
    modifies client
    ensures client.recvBuf == [] && client.handled == Parsed(bodies, parse) && !client.aborted
  {
    for i := 0 to |chunks|
      invariant client.recvBuf == Feed(chunks[..i]).rest && client.aborted == Feed(chunks[..i]).bad
      invariant client.handled == Parsed(Feed(chunks[..i]).bodies, parse)
    {
      assert chunks[..i+1][..i] == chunks[..i];
      ParsedConcat(Feed(chunks[..i]).bodies, Decode(client.recvBuf + chunks[i]).bodies, parse);
      client.OnReadyRead(chunks[i], parse);
    }
    assert chunks[..|chunks|] == chunks;
    FragmentedRoundTrip(bodies, chunks, 0);
  }
}
