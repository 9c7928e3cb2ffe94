/**
 * Counting parcels. A parcel is held when it has been written to a connection
 * registered for its user, is queued at a subscribed server, or is a row of the
 * offline table. The results say how held and accepted parcels relate over every run.
 */
module Accounting {
  import opened Protocol
  import opened Routing
  import opened Delivery

  // ---------- what is held ----------

  /** How often x occurs in a list of parcels. */
  function Count(ps: seq<Parcel>, x: Parcel): nat {
    if |ps| == 0 then 0 else Count(ps[..|ps|-1], x) + (if ps[|ps|-1] == x then 1 else 0)
  }

  function MailCount(owner: int, msgs: seq<Json>, x: Parcel): nat {
    if |msgs| == 0 then 0
    else MailCount(owner, msgs[..|msgs|-1], x) + (if Parcel(owner, msgs[|msgs|-1]) == x then 1 else 0)
  }

  /** How many copies of x one packet carries to its owner. */
  function Carried(s: Sent, x: Parcel): nat {
    match s.packet
    case Chat(js) => if Parcel(s.owner, js) == x then 1 else 0
    case LoginAck(_, mail) => MailCount(s.owner, mail, x)
    case Pong => 0
  }

  function Delivered(out: seq<Sent>, x: Parcel): nat {
    if |out| == 0 then 0 else Delivered(out[..|out|-1], x) + Carried(out[|out|-1], x)
  }

  function Queued(q: seq<Flight>, x: Parcel): nat {
    if |q| == 0 then 0 else Queued(q[..|q|-1], x) + (if q[|q|-1].parcel == x then 1 else 0)
  }

  function Held(b: Back, x: Parcel): nat {
    Delivered(b.out, x) + Queued(b.inflight, x) + Count(b.offline, x)
  }

  // ---------- what is accepted ----------

  /** The parcels a received body asks the cluster to deliver: one per addressee with an account. */
  function Accepted(b: Back, js: Json): seq<Parcel> {
    if js.id == None then []
    else if js.msgid == Some(ONE_CHAT_MSG) then
      if js.toid.Some? && js.toid.value in b.users then [Parcel(js.toid.value, js)] else []
    else if js.msgid == Some(GROUP_CHAT_MSG) then
      if js.groupid.Some?
      then Parcels(Keep(Audience(b, js.id.value, js.groupid.value), b.users.Keys), js)
      else []
    else []
  }

  function AcceptedBy(c: Cluster, s: Step): seq<Parcel> {
    if s.Receive? then Accepted(c.back, s.js) else []
  }

  function Subscribers(subs: seq<set<int>>, user: int): nat {
    if |subs| == 0 then 0
    else Subscribers(subs[..|subs|-1], user) + (if user in subs[|subs|-1] then 1 else 0)
  }

  /** How many copies of a parcel for user a server makes: one, unless it has to publish. */
  function Copies(server: nat, c: Cluster, user: int): nat
    requires server < |c.services|
  {
    if user in c.services[server].conns then 1
    else if user in OnlineUsers(c.back) then Subscribers(c.back.subs, user)
    else 1
  }

  // ---------- counting lists ----------

  lemma {:induction false} CountLast(ps: seq<Parcel>, p: Parcel, x: Parcel)
    ensures Count(ps + [p], x) == Count(ps, x) + if p == x then 1 else 0
  {
    assert (ps + [p])[..|ps|] == ps;
  }

  lemma {:induction false} HeldSend(b: Back, server: nat, conn: Conn, owner: int, packet: Packet, x: Parcel)
    ensures Held(Send(b, server, conn, owner, packet), x) == Held(b, x) + Carried(Sent(server, conn, owner, packet), x)
  {
    assert Send(b, server, conn, owner, packet).out[..|b.out|] == b.out;
  }

  lemma {:induction false} QueuedConcat(a: seq<Flight>, b: seq<Flight>, x: Parcel)
    ensures Queued(a + b, x) == Queued(a, x) + Queued(b, x)
  {
    if |b| == 0 {
      assert a + b == a;
    } else {
      assert (a + b)[..|a+b|-1] == a + b[..|b|-1];
      QueuedConcat(a, b[..|b|-1], x);
    }
  }

  lemma {:induction false} FanoutCount(subs: seq<set<int>>, p: Parcel, x: Parcel)
    ensures Queued(Fanout(subs, p), x) == if x == p then Subscribers(subs, p.user) else 0
  {
    if |subs| > 0 {
      var front := Fanout(subs[..|subs|-1], p);
      FanoutCount(subs[..|subs|-1], p, x);
      if p.user in subs[|subs|-1] {
        assert Fanout(subs, p)[..|front|] == front;
      } else {
        assert Fanout(subs, p) == front;
      }
    }
  }

  lemma {:induction false} HeldPublish(b: Back, p: Parcel, x: Parcel)
    ensures Held(Publish(b, p), x) == Held(b, x) + if x == p then Subscribers(b.subs, p.user) else 0
  {
    QueuedConcat(b.inflight, Fanout(b.subs, p), x);
    FanoutCount(b.subs, p, x);
  }

  lemma {:induction false} OneMore(n: nat, k: nat)
    ensures (n + 1) * k == n * k + k
  {
  }

  lemma {:induction false} HeldPublishAll(b: Back, ids: seq<int>, js: Json, x: Parcel)
    ensures Held(PublishAll(b, ids, js), x) == Held(b, x) + Count(Parcels(ids, js), x) * Subscribers(b.subs, x.user)
  {
    if |ids| > 0 {
      var front := ids[..|ids|-1];
      var p := Parcel(ids[|ids|-1], js);
      HeldPublishAll(b, front, js, x);
      PublishAllFrame(b, front, js);
      HeldPublish(PublishAll(b, front, js), p, x);
      CountLast(Parcels(front, js), p, x);
      OneMore(Count(Parcels(front, js), x), Subscribers(b.subs, x.user));
    }
  }

  lemma {:induction false} HeldSendAll(b: Back, server: nat, conns: map<int, Conn>, ids: seq<int>, js: Json, x: Parcel)
    requires forall k :: 0 <= k < |ids| ==> ids[k] in conns
    ensures Held(SendAll(b, server, conns, ids, js), x) == Held(b, x) + Count(Parcels(ids, js), x)
  {
    if |ids| > 0 {
      var front := ids[..|ids|-1];
      var id := ids[|ids|-1];
      HeldSendAll(b, server, conns, front, js, x);
      HeldSend(SendAll(b, server, conns, front, js), server, conns[id], id, Chat(js), x);
      CountLast(Parcels(front, js), Parcel(id, js), x);
    }
  }

  lemma {:induction false} HeldStore(b: Back, p: Parcel, x: Parcel)
    ensures Held(StoreOffline(b, p), x) == Held(b, x) + if p == x && x.user in b.users then 1 else 0
  {
    CountLast(b.offline, p, x);
  }

  lemma {:induction false} HeldStoreAll(b: Back, ids: seq<int>, js: Json, x: Parcel)
    ensures Held(StoreAll(b, ids, js), x) ==
            Held(b, x) + if x.user in b.users then Count(Parcels(ids, js), x) else 0
  {
    if |ids| > 0 {
      var front := ids[..|ids|-1];
      var p := Parcel(ids[|ids|-1], js);
      HeldStoreAll(b, front, js, x);
      StoreAllFrame(b, front, js);
      HeldStore(StoreAll(b, front, js), p, x);
      CountLast(Parcels(front, js), p, x);
    }
  }

  lemma {:induction false} ParcelsLast(ids: seq<int>, id: int, js: Json)
    ensures Parcels(ids + [id], js) == Parcels(ids, js) + [Parcel(id, js)]
  {
    assert (ids + [id])[..|ids|] == ids;
  }

  lemma {:induction false} KeepCount(ids: seq<int>, s: set<int>, js: Json, x: Parcel)
    ensures Count(Parcels(Keep(ids, s), js), x) == if x.user in s then Count(Parcels(ids, js), x) else 0
    ensures Count(Parcels(Drop(ids, s), js), x) == if x.user in s then 0 else Count(Parcels(ids, js), x)
  {
    if |ids| > 0 {
      var front := ids[..|ids|-1];
      var id := ids[|ids|-1];
      KeepCount(front, s, js, x);
      CountLast(Parcels(front, js), Parcel(id, js), x);
      if id in s {
        assert Drop(ids, s) == Drop(front, s);
        ParcelsLast(Keep(front, s), id, js);
        CountLast(Parcels(Keep(front, s), js), Parcel(id, js), x);
      } else {
        assert Keep(ids, s) == Keep(front, s);
        ParcelsLast(Drop(front, s), id, js);
        CountLast(Parcels(Drop(front, s), js), Parcel(id, js), x);
      }
    }
  }

  /** Lists of presence notices carry no chat. */
  lemma {:induction false} NoChatIn(ids: seq<int>, js: Json, x: Parcel)
    requires x.msg != js
    ensures Count(Parcels(ids, js), x) == 0
  {
    if |ids| > 0 {
      NoChatIn(ids[..|ids|-1], js, x);
      CountLast(Parcels(ids[..|ids|-1], js), Parcel(ids[|ids|-1], js), x);
    }
  }

  /** Draining a user's rows moves exactly those rows. */
  lemma {:induction false} OfflineSplit(rows: seq<Parcel>, id: int, x: Parcel)
    ensures MailCount(id, OfflineOf(rows, id), x) + Count(OfflineWithout(rows, id), x) == Count(rows, x)
  {
    if |rows| > 0 {
      var front := rows[..|rows|-1];
      var last := rows[|rows|-1];
      OfflineSplit(front, id, x);
      if last.user == id {
        assert OfflineWithout(rows, id) == OfflineWithout(front, id);
        assert OfflineOf(rows, id)[..|OfflineOf(front, id)|] == OfflineOf(front, id);
      } else {
        assert OfflineOf(rows, id) == OfflineOf(front, id);
        CountLast(OfflineWithout(front, id), last, x);
      }
    }
  }

  // ---------- counting handlers ----------

  lemma {:induction false} HeldNotify(server: nat, sv: Service, b: Back, userid: int, online: bool, x: Parcel)
    requires IsChat(x.msg)
    ensures Held(Notify(server, sv, b, userid, online), x) == Held(b, x)
  {
    var ids := Listed(b.friends, userid);
    var js := Presence(userid, online);
    KeepInside(ids, sv.conns.Keys);
    var here, away := Keep(ids, sv.conns.Keys), Drop(ids, sv.conns.Keys);
    HeldSendAll(b, server, sv.conns, here, js, x);
    HeldPublishAll(SendAll(b, server, sv.conns, here, js), away, js, x);
    NoChatIn(here, js, x);
    NoChatIn(away, js, x);
  }

  lemma {:induction false} HeldFinishLogin(server: nat, l: Local, conn: Conn, id: int, x: Parcel)
    requires IsChat(x.msg)
    ensures Held(FinishLogin(server, l, conn, id).back, x) == Held(l.back, x)
  {
    var b := SetState(l.back, id, true);
    var mail := OfflineOf(b.offline, id);
    HeldSend(b, server, conn, id, LoginAck(0, mail), x);
    var acked := Send(b, server, conn, id, LoginAck(0, mail));
    OfflineSplit(b.offline, id, x);
    var drained := if mail == [] then acked else acked.(offline := OfflineWithout(acked.offline, id));
    HeldNotify(server, l.sv, drained, id, true, x);
  }

  /** Login moves the offline rows into the acknowledgement and loses none. */
  lemma {:induction false} HeldLogin(server: nat, l: Local, conn: Conn, js: Json, x: Parcel)
    requires LocalInv(server, l) && IsChat(x.msg)
    ensures Held(Login(server, l, conn, js).back, x) == Held(l.back, x)
  {
    if LoginAccepted(l.back, js) {
      var id := js.id.value;
      AdmitKeeps(server, l, conn, id);
      HeldFinishLogin(server, Local(l.sv.(conns := l.sv.conns[id := conn]), Admit(server, l, id)), conn, id, x);
    } else {
      HeldSend(l.back, server, conn, -1, LoginAck(1, []), x);
    }
  }

  /** What n parcels for user add: n, or n for every subscriber when they have to be published. */
  function Gain(conns: map<int, Conn>, b: Back, user: int, n: nat): nat {
    if user !in conns && user in OnlineUsers(b) then n * Subscribers(b.subs, user) else n
  }

  lemma {:induction false} Shares(here: bool, online: bool, known: bool, n: nat, k: nat, published: nat)
    requires (here || online) ==> known
    requires published == if here || !online then 0 else n
    ensures (if here then n else 0) + (if known && !here && !online then n else 0) + published * k
            == if !here && online then n * k else if known then n else 0
  {
  }

  /** The three shares of a group message add up to what its audience is owed. */
  lemma {:induction false} GroupGain(conns: map<int, Conn>, b: Back, ids: seq<int>, js: Json, x: Parcel)
    requires x.user in conns ==> x.user in b.users
    ensures
      var here, away, online := Keep(ids, conns.Keys), Drop(ids, conns.Keys), OnlineUsers(b);
      Count(Parcels(here, js), x)
      + (if x.user in b.users then Count(Parcels(Drop(away, online), js), x) else 0)
      + Count(Parcels(Keep(away, online), js), x) * Subscribers(b.subs, x.user)
      == Gain(conns, b, x.user, Count(Parcels(Keep(ids, b.users.Keys), js), x))
  {
    var away := Drop(ids, conns.Keys);
    var n, k := Count(Parcels(ids, js), x), Subscribers(b.subs, x.user);
    assert Count(Parcels(Keep(ids, conns.Keys), js), x) == (if x.user in conns then n else 0)
        && Count(Parcels(away, js), x) == (if x.user in conns then 0 else n) by {
      KeepCount(ids, conns.Keys, js, x);
    }
    assert Count(Parcels(Keep(ids, b.users.Keys), js), x) == (if x.user in b.users then n else 0) by {
      KeepCount(ids, b.users.Keys, js, x);
    }
    KeepCount(away, OnlineUsers(b), js, x);
    Shares(x.user in conns, x.user in OnlineUsers(b), x.user in b.users, n, k,
           Count(Parcels(Keep(away, OnlineUsers(b)), js), x));
  }

  /** The three loops of a group message, counted one after the other. */
  lemma {:induction false} GroupParts(server: nat, conns: map<int, Conn>, b: Back, ids: seq<int>, js: Json, x: Parcel)
    requires forall k :: 0 <= k < |Keep(ids, conns.Keys)| ==> Keep(ids, conns.Keys)[k] in conns
    ensures
      var here, away, online := Keep(ids, conns.Keys), Drop(ids, conns.Keys), OnlineUsers(b);
      Held(PublishAll(StoreAll(SendAll(b, server, conns, here, js), Drop(away, online), js), Keep(away, online), js), x) ==
      Held(b, x) + Count(Parcels(here, js), x)
      + (if x.user in b.users then Count(Parcels(Drop(away, online), js), x) else 0)
      + Count(Parcels(Keep(away, online), js), x) * Subscribers(b.subs, x.user)
  {
    var here, away, online := Keep(ids, conns.Keys), Drop(ids, conns.Keys), OnlineUsers(b);
    var sent := SendAll(b, server, conns, here, js);
    HeldSendAll(b, server, conns, here, js, x);
    SendAllFrame(b, server, conns, here, js);
    HeldStoreAll(sent, Drop(away, online), js, x);
    StoreAllFrame(sent, Drop(away, online), js);
    HeldPublishAll(StoreAll(sent, Drop(away, online), js), Keep(away, online), js, x);
  }

  lemma {:induction false} HeldGroupChat(server: nat, l: Local, js: Json, x: Parcel)
    requires js.msgid == Some(GROUP_CHAT_MSG) && x.user != -1
    requires forall u :: u in l.sv.conns ==> u in l.back.users || u == -1
    ensures Held(GroupChat(server, l, js).back, x) ==
            Held(l.back, x) + Gain(l.sv.conns, l.back, x.user, Count(Accepted(l.back, js), x))
  {
    if js.id.Some? && js.groupid.Some? {
      var ids := Audience(l.back, js.id.value, js.groupid.value);
      KeepInside(ids, l.sv.conns.Keys);
      GroupParts(server, l.sv.conns, l.back, ids, js, x);
      GroupGain(l.sv.conns, l.back, ids, js, x);
    }
  }

  lemma {:induction false} CountOne(p: Parcel, x: Parcel)
    ensures Count([p], x) == if p == x then 1 else 0
  {
    assert [p][..0] == [];
  }

  lemma {:induction false} HeldOneChat(server: nat, l: Local, js: Json, x: Parcel)
    requires js.msgid == Some(ONE_CHAT_MSG) && x.user != -1
    requires forall u :: u in l.sv.conns ==> u in l.back.users || u == -1
    ensures Held(OneChat(server, l, js).back, x) ==
            Held(l.back, x) + Gain(l.sv.conns, l.back, x.user, Count(Accepted(l.back, js), x))
  {
    if js.id.Some? && js.toid.Some? {
      var p := Parcel(js.toid.value, js);
      CountOne(p, x);
      if x != p {
        assert Count(Accepted(l.back, js), x) == 0;
      }
      if p.user in l.sv.conns {
        HeldSend(l.back, server, l.sv.conns[p.user], p.user, Chat(js), x);
      } else if QueryUser(l.back, p.user).online {
        HeldPublish(l.back, p, x);
      } else {
        HeldStore(l.back, p, x);
      }
    }
  }

  lemma {:induction false} HeldLogout(server: nat, l: Local, conn: Conn, js: Json, x: Parcel)
    requires server < |l.back.subs| && IsChat(x.msg)
    ensures Held(Logout(server, l, conn, js).back, x) == Held(l.back, x)
  {
    if js.id.Some? {
      HeldNotify(server, Logout(server, l, conn, js).sv,
                 SetState(Unsubscribe(l.back, server, js.id.value), js.id.value, false), js.id.value, false, x);
    }
  }

  lemma {:induction false} HeldDispatch(server: nat, c: Cluster, conn: Conn, js: Json, now: int, x: Parcel)
    requires Inv(c) && server < |c.services| && IsChat(x.msg) && x.user != -1
    ensures Held(Dispatch(server, At(c, server), conn, js, now).back, x) ==
            Held(c.back, x) + Count(Accepted(c.back, js), x) * Copies(server, c, x.user)
  {
    var t := Touch(At(c, server), conn, now);
    var n := Count(Accepted(c.back, js), x);
    assert Gain(t.sv.conns, t.back, x.user, n) == n * Copies(server, c, x.user);
    assert t.sv.conns == c.services[server].conns && Registered(c.back.users, t.sv.conns, c.back.subs[server]);
    if js.msgid == Some(LOGIN_MSG) {
      HeldLogin(server, t, conn, js, x);
    } else if js.msgid == Some(LOGINOUT_MSG) {
      HeldLogout(server, t, conn, js, x);
    } else if js.msgid == Some(ONE_CHAT_MSG) {
      HeldOneChat(server, t, js, x);
    } else if js.msgid == Some(GROUP_CHAT_MSG) {
      HeldGroupChat(server, t, js, x);
    } else if js.msgid == Some(HEARTBEAT_MSG) {
      HeldSend(t.back, server, conn, -1, Pong, x);
    }
  }

  lemma {:induction false} QueuedWithout(q: seq<Flight>, at: nat, x: Parcel)
    requires at < |q|
    ensures Queued(q, x) == Queued(q[..at] + q[at+1..], x) + if q[at].parcel == x then 1 else 0
  {
    assert q == q[..at+1] + q[at+1..];
    QueuedConcat(q[..at+1], q[at+1..], x);
    QueuedConcat(q[..at], q[at+1..], x);
    assert q[..at+1][..at] == q[..at];
  }

  /** Taking a flight off the queue and handling it keeps the parcel held, whoever logged out meanwhile. */
  lemma {:induction false} HeldDeliver(c: Cluster, at: nat, x: Parcel)
    requires Inv(c) && Enabled(c, Deliver(at)) && IsChat(x.msg)
    ensures Held(Next(c, Deliver(at)).back, x) == Held(c.back, x)
  {
    var f := c.back.inflight[at];
    assert FlightOk(c.back, f);
    QueuedWithout(c.back.inflight, at, x);
    var b := Unqueue(c.back, at);
    if f.parcel.user in c.services[f.server].conns {
      HeldSend(b, f.server, c.services[f.server].conns[f.parcel.user], f.parcel.user, Chat(f.parcel.msg), x);
    } else {
      HeldStore(b, f.parcel, x);
    }
  }

  /**
   * Exact accounting of one step: every accepted chat parcel is held once per copy made,
   * and nothing held before is lost.
   */
  lemma {:induction false} StepAccounting(c: Cluster, s: Step, x: Parcel)
    requires Inv(c) && Enabled(c, s) && IsChat(x.msg) && x.user != -1
    ensures s.Receive? ==>
              Held(Next(c, s).back, x) == Held(c.back, x) + Count(AcceptedBy(c, s), x) * Copies(s.server, c, x.user)
    ensures !s.Receive? ==> Held(Next(c, s).back, x) == Held(c.back, x)
  {
    match s
    case Receive(server, conn, js, now) => HeldDispatch(server, c, conn, js, now, x);
    case Hangup(server, conn, victim) =>
      if victim.Some? && victim.value != -1 {
        HeldNotify(server, Close(server, At(c, server), conn, victim).sv,
                   SetState(Unsubscribe(c.back, server, victim.value), victim.value, false), victim.value, false, x);
      }
    case Deliver(at) => HeldDeliver(c, at, x);
    case Tick(server, now) =>
    case Admin(friends, groups, joined) =>
  }

  // ---------- publish never reaches nobody ----------

  lemma {:induction false} SubscribersPositive(subs: seq<set<int>>, user: int, i: nat)
    requires i < |subs| && user in subs[i]
    ensures Subscribers(subs, user) >= 1
  {
    if i < |subs| - 1 {
      SubscribersPositive(subs[..|subs|-1], user, i);
    }
  }

  /** Whatever server an accepted parcel arrives at, at least one copy of it is made. */
  lemma {:induction false} AtLeastOneCopy(c: Cluster, server: nat, user: int)
    requires Inv(c) && server < |c.services|
    ensures Copies(server, c, user) >= 1
  {
    if user in OnlineUsers(c.back) {
      var i :| 0 <= i < |c.back.subs| && user in c.back.subs[i];
      SubscribersPositive(c.back.subs, user, i);
    }
  }

  /** No user other than -1 is registered on two servers. */
  ghost predicate OnOneServer(c: Cluster) {
    forall u, i, j | u != -1 && 0 <= i < |c.services| && 0 <= j < |c.services| ::
      u in c.services[i].conns && u in c.services[j].conns ==> i == j
  }

  lemma {:induction false} SubscribersAtMostOne(subs: seq<set<int>>, user: int)
    requires forall i, j :: 0 <= i < |subs| && 0 <= j < |subs| && user in subs[i] && user in subs[j] ==> i == j
    ensures Subscribers(subs, user) <= 1
    ensures Subscribers(subs, user) == 1 ==> exists i :: 0 <= i < |subs| && user in subs[i]
  {
    if |subs| > 0 {
      var front := subs[..|subs|-1];
      SubscribersAtMostOne(front, user);
      if Subscribers(front, user) == 1 {
        var i :| 0 <= i < |front| && user in front[i];
        assert user in subs[i];
      }
    }
  }

  lemma {:induction false} OneCopyOnOneServer(c: Cluster, server: nat, user: int)
    requires Inv(c) && OnOneServer(c) && server < |c.services| && user != -1
    ensures Copies(server, c, user) == 1
  {
    AtLeastOneCopy(c, server, user);
    assert forall i :: 0 <= i < |c.services| ==> Registered(c.back.users, c.services[i].conns, c.back.subs[i]);
    SubscribersAtMostOne(c.back.subs, user);
  }

  // ---------- runs ----------

  ghost predicate Legal(c: Cluster, steps: seq<Step>)
    requires Inv(c)
    decreases |steps|
  {
    |steps| == 0 || (Enabled(c, steps[0]) && (InvStep(c, steps[0]); Legal(Next(c, steps[0]), steps[1..])))
  }

  ghost function Final(c: Cluster, steps: seq<Step>): Cluster
    requires Inv(c) && Legal(c, steps)
    decreases |steps|
  {
    if |steps| == 0 then c else (InvStep(c, steps[0]); Final(Next(c, steps[0]), steps[1..]))
  }

  /** How often x was accepted along the run. */
  ghost function TotalAccepted(c: Cluster, steps: seq<Step>, x: Parcel): nat
    requires Inv(c) && Legal(c, steps)
    decreases |steps|
  {
    if |steps| == 0 then 0
    else (InvStep(c, steps[0]); Count(AcceptedBy(c, steps[0]), x) + TotalAccepted(Next(c, steps[0]), steps[1..], x))
  }

  /** At every step of the run, a parcel accepted for x is copied exactly once. */
  ghost predicate NeverDuplicated(c: Cluster, steps: seq<Step>, x: Parcel)
    requires Inv(c) && Legal(c, steps)
    decreases |steps|
  {
    |steps| == 0 || (
      InvStep(c, steps[0]);
      && (Count(AcceptedBy(c, steps[0]), x) > 0 ==> Copies(steps[0].server, c, x.user) == 1)
      && NeverDuplicated(Next(c, steps[0]), steps[1..], x))
  }

  ghost predicate AlwaysOnOneServer(c: Cluster, steps: seq<Step>)
    requires Inv(c) && Legal(c, steps)
    decreases |steps|
  {
    OnOneServer(c) && (|steps| == 0 || (InvStep(c, steps[0]); AlwaysOnOneServer(Next(c, steps[0]), steps[1..])))
  }

  /** The invariant holds in every state of every run: in particular no publish goes into the void. */
  lemma {:induction false} RunInvariant(c: Cluster, steps: seq<Step>)
    requires Inv(c) && Legal(c, steps)
    ensures Inv(Final(c, steps))
    decreases |steps|
  {
    if |steps| > 0 {
      InvStep(c, steps[0]);
      RunInvariant(Next(c, steps[0]), steps[1..]);
    }
  }

  lemma {:induction false} RunKeepsServers(c: Cluster, steps: seq<Step>)
    requires Inv(c) && Legal(c, steps)
    ensures |Final(c, steps).services| == |c.services|
    decreases |steps|
  {
    if |steps| > 0 {
      InvStep(c, steps[0]);
      RunKeepsServers(Next(c, steps[0]), steps[1..]);
    }
  }

  lemma {:induction false} TimesCopies(n: nat, k: nat)
    requires k >= 1
    ensures n * k >= n
    ensures n * k == n <==> n == 0 || k == 1
  {
    assert n * k == n + n * (k - 1);
  }

  /**
   * At-least-once over every run, and exactly-once precisely when no accepted copy
   * of the parcel was ever published to more than one server.
   */
  lemma {:induction false} RunAccounting(c: Cluster, steps: seq<Step>, x: Parcel)
    requires Inv(c) && Legal(c, steps) && IsChat(x.msg) && x.user != -1
    ensures Held(Final(c, steps).back, x) >= Held(c.back, x) + TotalAccepted(c, steps, x)
    ensures Held(Final(c, steps).back, x) == Held(c.back, x) + TotalAccepted(c, steps, x)
            <==> NeverDuplicated(c, steps, x)
    decreases |steps|
  {
    if |steps| > 0 {
      var s := steps[0];
      InvStep(c, s);
      StepAccounting(c, s, x);
      RunAccounting(Next(c, s), steps[1..], x);
      if s.Receive? {
        AtLeastOneCopy(c, s.server, x.user);
        TimesCopies(Count(AcceptedBy(c, s), x), Copies(s.server, c, x.user));
      }
    }
  }

  /** On one server at a time, nothing is ever copied twice. */
  lemma {:induction false} OneServerNeverDuplicates(c: Cluster, steps: seq<Step>, x: Parcel)
    requires Inv(c) && Legal(c, steps) && x.user != -1
    requires AlwaysOnOneServer(c, steps)
    ensures NeverDuplicated(c, steps, x)
    decreases |steps|
  {
    if |steps| > 0 {
      InvStep(c, steps[0]);
      if steps[0].Receive? {
        OneCopyOnOneServer(c, steps[0].server, x.user);
      }
      OneServerNeverDuplicates(Next(c, steps[0]), steps[1..], x);
    }
  }

  /** Exact conservation when no user is ever registered on two servers at once. */
  lemma {:induction false} Conservation(c: Cluster, steps: seq<Step>, x: Parcel)
    requires Inv(c) && Legal(c, steps) && IsChat(x.msg) && x.user != -1
    requires AlwaysOnOneServer(c, steps)
    ensures Held(Final(c, steps).back, x) == Held(c.back, x) + TotalAccepted(c, steps, x)
  {
    OneServerNeverDuplicates(c, steps, x);
    RunAccounting(c, steps, x);
  }

  // ---------- who is written to ----------

  predicate Addressed(server: nat, conns: map<int, Conn>, s: Sent) {
    s.packet.Chat? || (s.packet.LoginAck? && s.packet.errno == 0) ==>
      s.server == server && s.owner in conns && conns[s.owner] == s.conn
  }

  predicate NewAddressed(server: nat, l: Local, b: Back) {
    b.out <= l.back.out && forall k :: |b.out| <= k < |l.back.out| ==> Addressed(server, l.sv.conns, l.back.out[k])
  }

  /** The server whose handler a step runs. */
  function Acting(c: Cluster, s: Step): nat
    requires Enabled(c, s) && !s.Admin?
  {
    if s.Deliver? then c.back.inflight[s.at].server else s.server
  }

  lemma {:induction false} LoginAddressed(server: nat, l: Local, conn: Conn, js: Json)
    requires LocalInv(server, l)
    ensures NewAddressed(server, Login(server, l, conn, js), l.back)
  {
    if LoginAccepted(l.back, js) {
      var id := js.id.value;
      LoginIsFinish(server, l, conn, js);
      AdmitFrame(server, l, id);
      FinishLoginFrame(server, Local(l.sv.(conns := l.sv.conns[id := conn]), Admit(server, l, id)), conn, id);
    }
  }

  lemma {:induction false} DispatchAddressed(server: nat, l: Local, conn: Conn, js: Json, now: int)
    requires LocalInv(server, l)
    ensures NewAddressed(server, Dispatch(server, l, conn, js, now), l.back)
  {
    var t := Touch(l, conn, now);
    if js.msgid == Some(LOGIN_MSG) {
      LoginAddressed(server, t, conn, js);
    } else if js.msgid == Some(LOGINOUT_MSG) {
      if js.id.Some? {
        NotifyFrame(server, Logout(server, t, conn, js).sv,
                        SetState(Unsubscribe(t.back, server, js.id.value), js.id.value, false), js.id.value, false);
      }
    } else if js.msgid == Some(GROUP_CHAT_MSG) {
      GroupChatFrame(server, t, js);
    }
  }

  lemma {:induction false} CloseAddressed(server: nat, l: Local, conn: Conn, victim: Option<int>)
    requires server < |l.back.subs|
    ensures NewAddressed(server, Close(server, l, conn, victim), l.back)
  {
    if victim.Some? && victim.value != -1 {
      NotifyFrame(server, Close(server, l, conn, victim).sv,
                      SetState(Unsubscribe(l.back, server, victim.value), victim.value, false), victim.value, false);
    }
  }

  /** Each chat packet or mail-carrying login reply of a step goes to the connection registered for its owner. */
  lemma {:induction false} WrittenToRegistered(c: Cluster, s: Step)
    requires Inv(c) && Enabled(c, s) && !s.Admin?
    ensures |Next(c, s).services| == |c.services|
    ensures var i := Acting(c, s);
            i < |c.services| && NewAddressed(i, At(Next(c, s), i), c.back)
  {
    match s
    case Receive(server, conn, js, now) => DispatchAddressed(server, At(c, server), conn, js, now);
    case Hangup(server, conn, victim) => CloseAddressed(server, At(c, server), conn, victim);
    case Deliver(at) => assert FlightOk(c.back, c.back.inflight[at]);
    case Tick(server, now) =>
  }
}
