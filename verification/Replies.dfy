/**
 * A login reply on the wire: the server puts all offline mail into one body without asking how long it
 * gets, and deletes the rows; the client gives up on a body of more than 1 MiB.
 */
module Replies {
  import opened Protocol
  import opened Routing
  import opened Delivery
  import Presences
  import opened Framing

  /** What sendJson writes for any body whose length fits the header. */
  function Wire(body: Bytes): Bytes
    requires |body| < 0x1_0000_0000
  {
    Header(|body|) + body
  }

  /** What a client makes of chunks, nothing more being read after it has aborted. */
  function Heard(chunks: seq<Bytes>): Decoded {
    if |chunks| == 0 then Decoded([], [], false)
    else
      var before := Heard(chunks[..|chunks|-1]);
      if before.bad then before
      else
        var d := Decode(before.rest + chunks[|chunks|-1]);
        Decoded(before.bodies + d.bodies, d.rest, d.bad)
  }

  lemma {:induction false} HeardIsFeed(chunks: seq<Bytes>)
    requires !Feed(chunks).bad
    ensures Heard(chunks) == Feed(chunks)
  {
    if |chunks| > 0 {
      HeardIsFeed(chunks[..|chunks|-1]);
    }
  }

  /** The beginning of a body that is too long: four bytes are enough to give up. */
  lemma {:induction false} PeekLong(body: Bytes, cut: nat)
    requires MAX_BODY < |body| < 0x1_0000_0000 && cut <= |Wire(body)|
    ensures Peek(Wire(body)[..cut]) == if cut < HEADER then Partial else Bad
  {
    if cut >= HEADER {
      assert Wire(body)[..cut] == Header(|body|) + body[..cut - HEADER];
      HeaderRoundTrip(|body|, body[..cut - HEADER]);
    }
  }

  lemma {:induction false} FrontOf(all: Bytes, cut: nat, front: Bytes, last: Bytes)
    requires cut <= |all| && front + last == all[..cut]
    ensures 0 <= cut - |last| == |front| && front == all[..cut - |last|]
  {
    assert |front + last| == cut;
    assert front == (front + last)[..|front|];
  }

  lemma {:induction false} HeardLong(body: Bytes, chunks: seq<Bytes>, cut: nat)
    requires MAX_BODY < |body| < 0x1_0000_0000 && cut <= |Wire(body)| && Concat(chunks) == Wire(body)[..cut]
    ensures Heard(chunks) == if cut < HEADER then Decoded([], Wire(body)[..cut], false) else Decoded([], [], true)
  {
    if |chunks| > 0 {
      var front, last := chunks[..|chunks|-1], chunks[|chunks|-1];
      var done := cut - |last|;
      FrontOf(Wire(body), cut, Concat(front), last);
      HeardLong(body, front, done);
      PeekLong(body, cut);
    }
  }

  /** In whatever chunks it comes, a body is heard if and only if it is not too long; a longer one makes the client abort. */
  lemma {:induction false} BodyHeard(body: Bytes, chunks: seq<Bytes>)
    requires 1 <= |body| < 0x1_0000_0000 && Concat(chunks) == Wire(body)
    ensures Heard(chunks) == if |body| <= 1_048_576 then Decoded([body], [], false) else Decoded([], [], true)
  {
    if |body| <= MAX_BODY {
      assert Stream([body]) == Wire(body) by {
        assert [body][1..] == [];
        assert Frame(body) + [] == Frame(body);
      }
      FragmentedRoundTrip([body], chunks, 0);
      HeardIsFeed(chunks);
    } else {
      assert Wire(body)[..|Wire(body)|] == Wire(body);
      HeardLong(body, chunks, |Wire(body)|);
    }
  }

  /**
   * The mail of an accepted login is out of the table whatever happens; it reaches the client if and only if
   * the reply that carries it is at most 1 MiB long. A longer one makes the client abort, and the mail is gone.
   */
  lemma {:induction false} MailReachesClientIff(server: nat, l: Local, conn: Conn, js: Json, encode: Packet -> Bytes, chunks: seq<Bytes>)
    requires server < |l.back.subs| && LoginAccepted(l.back, js)
    requires var reply := encode(LoginAck(0, OfflineOf(l.back.offline, js.id.value)));
             1 <= |reply| < 0x1_0000_0000 && Concat(chunks) == Wire(reply)
    ensures var id, r := js.id.value, Login(server, l, conn, js).back;
            var ack := LoginAck(0, OfflineOf(l.back.offline, id));
            && (forall p :: p in r.offline ==> p.user != id)
            && l.back.out + [Sent(server, conn, id, ack)] <= r.out
            && (Heard(chunks).bodies == [encode(ack)] <==> |encode(ack)| <= 1_048_576)
            && (|encode(ack)| > 1_048_576 ==> Heard(chunks) == Decoded([], [], true))
  {
    Presences.LoginOutcome(server, l, conn, js);
    BodyHeard(encode(LoginAck(0, OfflineOf(l.back.offline, js.id.value))), chunks);
  }
}
