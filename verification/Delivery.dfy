/**
 * Runs of a cluster of any number of servers. Each step is one handler on one
 * server; publishing a message and receiving it from the broker are separate steps.
 */
module Delivery {
  import opened Protocol
  import opened Routing

  datatype Cluster = Cluster(services: seq<Service>, back: Back)

  datatype Step =
    | Receive(server: nat, conn: Conn, js: Json, now: int)
    | Hangup(server: nat, conn: Conn, victim: Option<int>)
    | Deliver(at: nat)
    | Tick(server: nat, now: int)
    | Admin(friends: map<int, seq<int>>, groups: map<int, seq<int>>, joined: map<int, Row>)

  function At(c: Cluster, server: nat): Local
    requires server < |c.services|
  {
    Local(c.services[server], c.back)
  }

  function Put(c: Cluster, server: nat, l: Local): Cluster
    requires server < |c.services|
  {
    Cluster(c.services[server := l.sv], l.back)
  }

  predicate Enabled(c: Cluster, s: Step) {
    match s
    case Receive(server, _, _, _) => server < |c.services|
    case Hangup(server, conn, victim) => server < |c.services| && IsVictim(c.services[server].conns, conn, victim)
    case Deliver(at) =>
      // each server reads its own subscription stream in order
      && at < |c.back.inflight|
      && forall j :: 0 <= j < at ==> c.back.inflight[j].server != c.back.inflight[at].server
    case Tick(server, _) => server < |c.services|
    case Admin(_, _, joined) =>
      // new accounts get positive, unused ids and start offline
      joined.Keys !! c.back.users.Keys && -1 !in joined && forall u :: u in joined ==> !joined[u].online
  }

  function Unqueue(b: Back, at: nat): Back
    requires at < |b.inflight|
  {
    b.(inflight := b.inflight[..at] + b.inflight[at+1..])
  }

  // ---------- the invariant, and the steps it makes possible ----------

  predicate FlightOk(b: Back, f: Flight) {
    && f.server < |b.subs|
    && (IsChat(f.parcel.msg) || f.parcel.msg.msgid == Some(FRIEND_STATE_CHANGE_MSG))
    && (IsChat(f.parcel.msg) ==> f.parcel.user in b.users)
  }

  /** A user whose table state is online is subscribed by some server. */
  predicate Reachable(b: Back) {
    forall u :: u in b.users && b.users[u].online ==> exists i :: 0 <= i < |b.subs| && u in b.subs[i]
  }

  /** Every row of the offline table is a chat message for an existing user. */
  predicate RowOk(b: Back, p: Parcel) {
    IsChat(p.msg) && p.user in b.users
  }

  predicate BackInv(b: Back) {
    && -1 !in b.users
    && Reachable(b)
    && (forall f :: f in b.inflight ==> FlightOk(b, f))
    && (forall p :: p in b.offline ==> RowOk(b, p))
  }

  /** Registered users have rows and, apart from -1, are exactly the channels subscribed. */
  ghost predicate Registered(users: map<int, Row>, conns: map<int, Conn>, subs: set<int>) {
    && (forall u :: u in conns ==> u in users || u == -1)
    && (forall u :: u != -1 ==> (u in conns <==> u in subs))
  }

  ghost predicate Inv(c: Cluster) {
    && |c.services| == |c.back.subs|
    && BackInv(c.back)
    && forall i :: 0 <= i < |c.services| ==> Registered(c.back.users, c.services[i].conns, c.back.subs[i])
  }

  function Next(c: Cluster, s: Step): Cluster
    requires Inv(c) && Enabled(c, s)
  {
    match s
    case Receive(server, conn, js, now) => Put(c, server, Dispatch(server, At(c, server), conn, js, now))
    case Hangup(server, conn, victim) => Put(c, server, Close(server, At(c, server), conn, victim))
    case Deliver(at) =>
      var f := c.back.inflight[at];
      assert FlightOk(c.back, f);
      Put(c, f.server, Redeliver(f.server, Local(c.services[f.server], Unqueue(c.back, at)), f.parcel))
    case Tick(server, now) => Put(c, server, CheckHeartbeat(server, At(c, server), now))
    case Admin(friends, groups, joined) =>
      c.(back := c.back.(friends := friends, groups := groups, users := c.back.users + joined))
  }

  ghost predicate LocalInv(server: nat, l: Local) {
    server < |l.back.subs| && BackInv(l.back) && Registered(l.back.users, l.sv.conns, l.back.subs[server])
  }

  /** A handler on one server leaves the other servers' subscriptions and the set of accounts alone. */
  predicate OthersUntouched(server: nat, b: Back, b': Back) {
    && |b'.subs| == |b.subs|
    && b'.users.Keys == b.users.Keys
    && forall i :: 0 <= i < |b.subs| && i != server ==> b'.subs[i] == b.subs[i]
  }

  // ---------- what the list operations change ----------

  lemma {:induction false} KeepIn(ids: seq<int>, s: set<int>, x: int)
    ensures x in Keep(ids, s) <==> x in ids && x in s
  {
    if |ids| > 0 {
      KeepIn(ids[..|ids|-1], s, x);
      assert ids == ids[..|ids|-1] + [ids[|ids|-1]];
    }
  }

  lemma {:induction false} FanoutFlights(subs: seq<set<int>>, p: Parcel)
    ensures forall f :: f in Fanout(subs, p) ==> f.parcel == p && f.server < |subs| && p.user in subs[f.server]
  {
    if |subs| > 0 {
      FanoutFlights(subs[..|subs|-1], p);
    }
  }

  lemma {:induction false} PublishAllFrame(b: Back, ids: seq<int>, js: Json)
    ensures PublishAll(b, ids, js) == b.(inflight := PublishAll(b, ids, js).inflight)
    ensures forall f :: f in PublishAll(b, ids, js).inflight ==>
              f in b.inflight || (f.server < |b.subs| && f.parcel.msg == js && f.parcel.user in ids)
  {
    if |ids| > 0 {
      PublishAllFrame(b, ids[..|ids|-1], js);
      FanoutFlights(b.subs, Parcel(ids[|ids|-1], js));
    }
  }

  lemma {:induction false} StoreAllFrame(b: Back, ids: seq<int>, js: Json)
    ensures StoreAll(b, ids, js) == b.(offline := StoreAll(b, ids, js).offline)
    ensures forall p :: p in StoreAll(b, ids, js).offline ==> p in b.offline || (p.msg == js && p.user in b.users)
  {
    if |ids| > 0 {
      StoreAllFrame(b, ids[..|ids|-1], js);
    }
  }

  lemma {:induction false} SendAllFrame(b: Back, server: nat, conns: map<int, Conn>, ids: seq<int>, js: Json)
    requires forall k :: 0 <= k < |ids| ==> ids[k] in conns
    ensures SendAll(b, server, conns, ids, js) == b.(out := SendAll(b, server, conns, ids, js).out)
    ensures b.out <= SendAll(b, server, conns, ids, js).out
    ensures forall k :: |b.out| <= k < |SendAll(b, server, conns, ids, js).out| ==>
              var s := SendAll(b, server, conns, ids, js).out[k];
              s.server == server && s.owner in conns && conns[s.owner] == s.conn && s.packet == Chat(js)
  {
    if |ids| > 0 {
      SendAllFrame(b, server, conns, ids[..|ids|-1], js);
    }
  }

  lemma {:induction false} OfflineWithoutRows(rows: seq<Parcel>, id: int)
    ensures forall p :: p in OfflineWithout(rows, id) ==> p in rows
  {
    if |rows| > 0 {
      OfflineWithoutRows(rows[..|rows|-1], id);
      assert rows == rows[..|rows|-1] + [rows[|rows|-1]];
    }
  }

  // ---------- what the loops over friends and members change ----------

  /** The packets between two outputs, all of them this one body, written to the connections registered for their owners. */
  predicate WrittenTo(server: nat, conns: map<int, Conn>, before: seq<Sent>, after: seq<Sent>, js: Json) {
    && before <= after
    && forall k :: |before| <= k < |after| ==>
         var s := after[k];
         s.server == server && s.owner in conns && conns[s.owner] == s.conn && s.packet == Chat(js)
  }

  /** Presence notices only add to the queue and to the output. */
  lemma {:induction false} NotifyFrame(server: nat, sv: Service, b: Back, userid: int, online: bool)
    ensures var r, js := Notify(server, sv, b, userid, online), Presence(userid, online);
            && r == b.(inflight := r.inflight, out := r.out)
            && WrittenTo(server, sv.conns, b.out, r.out, js)
            && forall f :: f in r.inflight ==> f in b.inflight || (f.server < |b.subs| && f.parcel.msg == js)
  {
    var ids := Listed(b.friends, userid);
    var js := Presence(userid, online);
    KeepInside(ids, sv.conns.Keys);
    var sent := SendAll(b, server, sv.conns, Keep(ids, sv.conns.Keys), js);
    SendAllFrame(b, server, sv.conns, Keep(ids, sv.conns.Keys), js);
    PublishAllFrame(sent, Drop(ids, sv.conns.Keys), js);
  }

  lemma {:induction false} PublishOnline(b: Back, ids: seq<int>, online: set<int>, js: Json)
    requires forall u :: u in online ==> u in b.users
    ensures var r := PublishAll(b, Keep(ids, online), js);
            && r == b.(inflight := r.inflight)
            && forall f :: f in r.inflight ==>
                 f in b.inflight || (f.server < |b.subs| && f.parcel.msg == js && f.parcel.user in b.users)
  {
    PublishAllFrame(b, Keep(ids, online), js);
    forall f | f in PublishAll(b, Keep(ids, online), js).inflight && f !in b.inflight ensures f.parcel.user in b.users {
      KeepIn(ids, online, f.parcel.user);
    }
  }

  /** A group message only adds to the queue, for online users, to the offline table, for existing ones, and to the output. */
  lemma {:induction false} GroupChatFrame(server: nat, l: Local, js: Json)
    ensures var b, r := l.back, GroupChat(server, l, js);
            && r == l.(back := b.(inflight := r.back.inflight, offline := r.back.offline, out := r.back.out))
            && WrittenTo(server, l.sv.conns, b.out, r.back.out, js)
            && (forall f :: f in r.back.inflight ==>
                  f in b.inflight || (f.server < |b.subs| && f.parcel.msg == js && f.parcel.user in b.users))
            && (forall p :: p in r.back.offline ==> p in b.offline || (p.msg == js && p.user in b.users))
  {
    if js.id.Some? && js.groupid.Some? {
      var ids := Audience(l.back, js.id.value, js.groupid.value);
      var keys, online := l.sv.conns.Keys, OnlineUsers(l.back);
      KeepInside(ids, keys);
      var away := Drop(ids, keys);
      var sent := SendAll(l.back, server, l.sv.conns, Keep(ids, keys), js);
      var stored := StoreAll(sent, Drop(away, online), js);
      SendAllFrame(l.back, server, l.sv.conns, Keep(ids, keys), js);
      StoreAllFrame(sent, Drop(away, online), js);
      PublishOnline(stored, away, online, js);
    }
  }

  // ---------- what an accepted login changes ----------

  predicate LoginAccepted(b: Back, js: Json) {
    && js.id.Some? && js.password.Some?
    && QueryUser(b, js.id.value).id == js.id.value && QueryUser(b, js.id.value).pwd == js.password.value
  }

  /** The shared state as an accepted login hands it on: kick recorded, channel subscribed. */
  function Admit(server: nat, l: Local, id: int): Back
    requires server < |l.back.subs|
  {
    var online := QueryUser(l.back, id).online;
    var kicked := if online && id in l.sv.conns
                  then l.back.(shut := l.back.shut + {(server, l.sv.conns[id])}) else l.back;
    if online then Subscribe(Unsubscribe(kicked, server, id), server, id) else Subscribe(kicked, server, id)
  }

  /** Admitting a user changes one channel of this server, and shuts the user's previous connection here if the row said online. */
  lemma {:induction false} AdmitFrame(server: nat, l: Local, id: int)
    requires server < |l.back.subs|
    ensures var b, r := l.back, Admit(server, l, id);
            && r == b.(subs := b.subs[server := b.subs[server] + {id}], shut := r.shut)
            && r.shut == b.shut + (if QueryUser(b, id).online && id in l.sv.conns then {(server, l.sv.conns[id])} else {})
  {
    assert l.back.subs[server] - {id} + {id} == l.back.subs[server] + {id};
  }

  /** No row is left of the user whose mail was handed over. */
  lemma {:induction false} Drained(rows: seq<Parcel>, id: int)
    ensures forall p :: p in OfflineWithout(rows, id) ==> p.user != id
    ensures OfflineOf(rows, id) == [] ==> OfflineWithout(rows, id) == rows
  {
    if rows != [] {
      Drained(rows[..|rows| - 1], id);
      assert rows == rows[..|rows| - 1] + [rows[|rows| - 1]];
    }
  }

  /** The row goes online, the mail goes out in the reply and leaves the table, and the friends are told. */
  lemma {:induction false} FinishLoginFrame(server: nat, l: Local, conn: Conn, id: int)
    ensures var b, r := l.back, FinishLogin(server, l, conn, id).back;
            && r == b.(users := SetState(b, id, true).users, offline := OfflineWithout(b.offline, id),
                       inflight := r.inflight, out := r.out)
            && WrittenTo(server, l.sv.conns, b.out + [Sent(server, conn, id, LoginAck(0, OfflineOf(b.offline, id)))],
                         r.out, Presence(id, true))
    ensures FinishLogin(server, l, conn, id).sv == l.sv
    ensures forall f :: f in FinishLogin(server, l, conn, id).back.inflight ==>
              f in l.back.inflight || (f.server < |l.back.subs| && f.parcel.msg == Presence(id, true))
  {
    var b := SetState(l.back, id, true);
    var mail := OfflineOf(b.offline, id);
    var acked := Send(b, server, conn, id, LoginAck(0, mail));
    var drained := if mail == [] then acked else acked.(offline := OfflineWithout(acked.offline, id));
    Drained(b.offline, id);
    NotifyFrame(server, l.sv, drained, id, true);
  }

  lemma {:induction false} LoginIsFinish(server: nat, l: Local, conn: Conn, js: Json)
    requires server < |l.back.subs| && LoginAccepted(l.back, js)
    ensures var id := js.id.value;
            Login(server, l, conn, js) ==
            FinishLogin(server, Local(l.sv.(conns := l.sv.conns[id := conn]), Admit(server, l, id)), conn, id)
  {
  }

  // ---------- every handler keeps the invariant ----------

  lemma {:induction false} NotifyKeeps(server: nat, sv: Service, b: Back, userid: int, online: bool)
    requires BackInv(b)
    ensures BackInv(Notify(server, sv, b, userid, online))
    ensures var r := Notify(server, sv, b, userid, online);
            r == b.(inflight := r.inflight, out := r.out)
  {
    NotifyFrame(server, sv, b, userid, online);
    var r := Notify(server, sv, b, userid, online);
    assert forall f :: f in r.inflight ==> FlightOk(b, f);
    assert forall f :: f in r.inflight ==> FlightOk(r, f);
  }

  lemma {:induction false} GoOfflineKeeps(server: nat, l: Local, id: int)
    requires server < |l.back.subs|
    requires -1 !in l.back.users
    requires forall f :: f in l.back.inflight ==> FlightOk(l.back, f)
    requires forall p :: p in l.back.offline ==> RowOk(l.back, p)
    requires Registered(l.back.users, l.sv.conns, l.back.subs[server])
    requires forall u :: u in l.back.users && l.back.users[u].online && u != id ==>
               exists i :: 0 <= i < |l.back.subs| && u in l.back.subs[i]
    ensures LocalInv(server, GoOffline(server, l, id))
    ensures OthersUntouched(server, l.back, GoOffline(server, l, id).back)
    ensures GoOffline(server, l, id).sv == l.sv
  {
    var b := SetState(l.back, id, false);
    assert forall f :: f in b.inflight ==> FlightOk(b, f) by {
      forall f | f in b.inflight ensures FlightOk(b, f) {
        assert FlightOk(l.back, f);
      }
    }
    assert forall p :: p in b.offline ==> RowOk(b, p) by {
      forall p | p in b.offline ensures RowOk(b, p) {
        assert RowOk(l.back, p);
      }
    }
    NotifyKeeps(server, l.sv, b, id, false);
  }

  lemma {:induction false} UnsubscribeKeeps(server: nat, b: Back, id: int)
    requires server < |b.subs| && BackInv(b)
    ensures var b' := Unsubscribe(b, server, id);
            && (forall f :: f in b'.inflight ==> FlightOk(b', f))
            && (forall p :: p in b'.offline ==> RowOk(b', p))
            && (forall u :: u in b'.users && b'.users[u].online && u != id ==>
                  exists i :: 0 <= i < |b'.subs| && u in b'.subs[i])
  {
    var b' := Unsubscribe(b, server, id);
    forall f | f in b'.inflight ensures FlightOk(b', f) {
      assert FlightOk(b, f);
    }
    forall p | p in b'.offline ensures RowOk(b', p) {
      assert RowOk(b, p);
    }
    forall u | u in b'.users && b'.users[u].online && u != id
      ensures exists i :: 0 <= i < |b'.subs| && u in b'.subs[i]
    {
      var i :| 0 <= i < |b.subs| && u in b.subs[i];
      assert u in b'.subs[i];
    }
  }

  lemma {:induction false} LogoutKeeps(server: nat, l: Local, conn: Conn, js: Json)
    requires LocalInv(server, l)
    ensures LocalInv(server, Logout(server, l, conn, js))
    ensures OthersUntouched(server, l.back, Logout(server, l, conn, js).back)
  {
    if js.id.Some? {
      var id := js.id.value;
      var sv := l.sv.(conns := l.sv.conns - {id}, lastTime := l.sv.lastTime - {conn});
      var b := Unsubscribe(l.back, server, id);
      UnsubscribeKeeps(server, l.back, id);
      GoOfflineKeeps(server, Local(sv, b), id);
    }
  }

  lemma {:induction false} CloseKeeps(server: nat, l: Local, conn: Conn, victim: Option<int>)
    requires LocalInv(server, l) && IsVictim(l.sv.conns, conn, victim)
    ensures LocalInv(server, Close(server, l, conn, victim))
    ensures OthersUntouched(server, l.back, Close(server, l, conn, victim).back)
  {
    var id := if victim.Some? then victim.value else -1;
    UnsubscribeKeeps(server, l.back, id);
    if id != -1 {
      var sv := l.sv.(conns := l.sv.conns - {id}, lastTime := l.sv.lastTime - {conn});
      GoOfflineKeeps(server, Local(sv, Unsubscribe(l.back, server, id)), id);
    } else {
      assert -1 !in l.back.users;
    }
  }

  lemma {:induction false} FinishLoginKeeps(server: nat, l: Local, conn: Conn, id: int)
    requires server < |l.back.subs| && id in l.back.subs[server]
    requires BackInv(l.back) && Registered(l.back.users, l.sv.conns, l.back.subs[server])
    ensures LocalInv(server, FinishLogin(server, l, conn, id))
    ensures OthersUntouched(server, l.back, FinishLogin(server, l, conn, id).back)
    ensures FinishLogin(server, l, conn, id).sv == l.sv
  {
    var r := FinishLogin(server, l, conn, id).back;
    FinishLoginFrame(server, l, conn, id);
    OfflineWithoutRows(l.back.offline, id);
    forall f | f in r.inflight ensures FlightOk(r, f) {
      assert f in l.back.inflight ==> FlightOk(l.back, f);
    }
    forall p | p in r.offline ensures RowOk(r, p) {
      assert RowOk(l.back, p);
    }
    forall u | u in r.users && r.users[u].online ensures exists i :: 0 <= i < |r.subs| && u in r.subs[i] {
      assert u == id ==> u in r.subs[server];
    }
  }

  lemma {:induction false} SubscribeKeeps(server: nat, b: Back, id: int)
    requires server < |b.subs|
    requires -1 !in b.users
    requires forall f :: f in b.inflight ==> FlightOk(b, f)
    requires forall p :: p in b.offline ==> RowOk(b, p)
    requires forall u :: u in b.users && b.users[u].online && u != id ==> exists i :: 0 <= i < |b.subs| && u in b.subs[i]
    ensures BackInv(Subscribe(b, server, id))
  {
    var b' := Subscribe(b, server, id);
    forall f | f in b'.inflight ensures FlightOk(b', f) {
      assert FlightOk(b, f);
    }
    forall p | p in b'.offline ensures RowOk(b', p) {
      assert RowOk(b, p);
    }
    forall u | u in b'.users && b'.users[u].online
      ensures exists i :: 0 <= i < |b'.subs| && u in b'.subs[i]
    {
      if u == id {
        assert u in b'.subs[server];
      } else {
        var i :| 0 <= i < |b.subs| && u in b.subs[i];
        assert u in b'.subs[i];
      }
    }
  }

  lemma {:induction false} AdmitKeeps(server: nat, l: Local, conn: Conn, id: int)
    requires LocalInv(server, l) && QueryUser(l.back, id).id == id
    ensures LocalInv(server, Local(l.sv.(conns := l.sv.conns[id := conn]), Admit(server, l, id)))
    ensures Admit(server, l, id) == l.back.(subs := Admit(server, l, id).subs, shut := Admit(server, l, id).shut)
    ensures OthersUntouched(server, l.back, Admit(server, l, id))
    ensures id in Admit(server, l, id).subs[server]
    ensures forall u :: u != id ==> (u in Admit(server, l, id).subs[server] <==> u in l.back.subs[server])
  {
    var online := QueryUser(l.back, id).online;
    var kicked := if online && id in l.sv.conns
                  then l.back.(shut := l.back.shut + {(server, l.sv.conns[id])}) else l.back;
    assert BackInv(kicked) by {
      assert forall f :: f in kicked.inflight ==> FlightOk(l.back, f);
      assert forall p :: p in kicked.offline ==> RowOk(l.back, p);
    }
    if online {
      UnsubscribeKeeps(server, kicked, id);
      SubscribeKeeps(server, Unsubscribe(kicked, server, id), id);
    } else {
      SubscribeKeeps(server, kicked, id);
    }
  }

  lemma {:induction false} SendKeeps(server: nat, l: Local, conn: Conn, owner: int, packet: Packet)
    requires LocalInv(server, l)
    ensures LocalInv(server, l.(back := Send(l.back, server, conn, owner, packet)))
  {
    assert forall f :: f in l.back.inflight ==> FlightOk(l.back, f);
    assert forall p :: p in l.back.offline ==> RowOk(l.back, p);
  }

  lemma {:induction false} LoginKeeps(server: nat, l: Local, conn: Conn, js: Json)
    requires LocalInv(server, l)
    ensures LocalInv(server, Login(server, l, conn, js))
    ensures OthersUntouched(server, l.back, Login(server, l, conn, js).back)
  {
    if LoginAccepted(l.back, js) {
      var id := js.id.value;
      AdmitKeeps(server, l, conn, id);
      FinishLoginKeeps(server, Local(l.sv.(conns := l.sv.conns[id := conn]), Admit(server, l, id)), conn, id);
    } else {
      SendKeeps(server, l, conn, -1, LoginAck(1, []));
    }
  }

  lemma {:induction false} OneChatKeeps(server: nat, l: Local, js: Json)
    requires LocalInv(server, l) && IsChat(js)
    ensures LocalInv(server, OneChat(server, l, js))
    ensures OthersUntouched(server, l.back, OneChat(server, l, js).back)
  {
    if js.id.Some? && js.toid.Some? {
      var p := Parcel(js.toid.value, js);
      FanoutFlights(l.back.subs, p);
      var b := OneChat(server, l, js).back;
      forall f | f in b.inflight ensures FlightOk(b, f) {
        assert f in l.back.inflight ==> FlightOk(l.back, f);
      }
      forall r | r in b.offline ensures RowOk(b, r) {
        assert r in l.back.offline ==> RowOk(l.back, r);
      }
    }
  }

  lemma {:induction false} GroupChatKeeps(server: nat, l: Local, js: Json)
    requires LocalInv(server, l) && IsChat(js)
    ensures LocalInv(server, GroupChat(server, l, js))
    ensures OthersUntouched(server, l.back, GroupChat(server, l, js).back)
  {
    GroupChatFrame(server, l, js);
    var b := GroupChat(server, l, js).back;
    forall f | f in b.inflight ensures FlightOk(b, f) {
      assert f in l.back.inflight ==> FlightOk(l.back, f);
    }
    forall r | r in b.offline ensures RowOk(b, r) {
      assert r in l.back.offline ==> RowOk(l.back, r);
    }
  }

  lemma {:induction false} DispatchKeeps(server: nat, l: Local, conn: Conn, js: Json, now: int)
    requires LocalInv(server, l)
    ensures LocalInv(server, Dispatch(server, l, conn, js, now))
    ensures OthersUntouched(server, l.back, Dispatch(server, l, conn, js, now).back)
  {
    var t := Touch(l, conn, now);
    if js.msgid == Some(LOGIN_MSG) {
      LoginKeeps(server, t, conn, js);
    } else if js.msgid == Some(LOGINOUT_MSG) {
      LogoutKeeps(server, t, conn, js);
    } else if js.msgid == Some(ONE_CHAT_MSG) {
      OneChatKeeps(server, t, js);
    } else if js.msgid == Some(GROUP_CHAT_MSG) {
      GroupChatKeeps(server, t, js);
    } else if js.msgid == Some(HEARTBEAT_MSG) {
      SendKeeps(server, t, conn, -1, Pong);
    }
  }

  lemma {:induction false} RedeliverKeeps(server: nat, l: Local, f: Flight)
    requires LocalInv(server, l) && FlightOk(l.back, f)
    ensures LocalInv(server, Redeliver(server, l, f.parcel))
    ensures OthersUntouched(server, l.back, Redeliver(server, l, f.parcel).back)
  {
    var b := Redeliver(server, l, f.parcel).back;
    forall g | g in b.inflight ensures FlightOk(b, g) {
      assert FlightOk(l.back, g);
    }
    forall r | r in b.offline ensures RowOk(b, r) {
      assert r in l.back.offline ==> RowOk(l.back, r);
    }
  }

  lemma {:induction false} UnqueueKeeps(b: Back, at: nat)
    requires BackInv(b) && at < |b.inflight|
    ensures BackInv(Unqueue(b, at))
  {
    var b' := Unqueue(b, at);
    forall f | f in b'.inflight ensures FlightOk(b', f) {
      assert f in b.inflight && FlightOk(b, f);
    }
    forall p | p in b'.offline ensures RowOk(b', p) {
      assert RowOk(b, p);
    }
  }

  /** New offline accounts change nothing for what is queued, stored and subscribed. */
  lemma {:induction false} MoreAccounts(b: Back, r: Back)
    requires BackInv(b) && r.inflight == b.inflight && r.offline == b.offline && r.subs == b.subs
    requires -1 !in r.users && forall u :: u in b.users ==> u in r.users
    requires forall u :: u in r.users && r.users[u].online ==> u in b.users && b.users[u].online
    ensures BackInv(r)
  {
    forall f | f in r.inflight ensures FlightOk(r, f) {
      assert FlightOk(b, f);
    }
    forall p | p in r.offline ensures RowOk(r, p) {
      assert RowOk(b, p);
    }
  }

  /** The cluster invariant survives every step of every server. */
  lemma {:induction false} InvStep(c: Cluster, s: Step)
    requires Inv(c) && Enabled(c, s)
    ensures Inv(Next(c, s))
  {
    match s
    case Receive(server, conn, js, now) => DispatchKeeps(server, At(c, server), conn, js, now);
    case Hangup(server, conn, victim) => CloseKeeps(server, At(c, server), conn, victim);
    case Deliver(at) =>
      var f := c.back.inflight[at];
      assert FlightOk(c.back, f);
      UnqueueKeeps(c.back, at);
      RedeliverKeeps(f.server, Local(c.services[f.server], Unqueue(c.back, at)), f);
    case Tick(server, now) => MoreAccounts(c.back, Next(c, s).back);
    case Admin(friends, groups, joined) => MoreAccounts(c.back, Next(c, s).back);
  }
}
