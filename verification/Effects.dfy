/**
 * Where everything a handler does ends up, said of the tables themselves: for each parcel how many copies are
 * written, queued and stored, in which order, and what else is answered. Message kinds are written as their numbers.
 */
module Effects {
  import opened Protocol
  import opened Routing
  import opened Delivery
  import opened Accounting
  import opened Sessions
  import Presences

  // ---------- the three places a copy can be ----------

  datatype Places = Places(written: nat, queued: nat, stored: nat)

  function At3(b: Back, x: Parcel): Places {
    Places(Delivered(b.out, x), Queued(b.inflight, x), Count(b.offline, x))
  }

  function Plus(p: Places, written: nat, queued: nat, stored: nat): Places {
    Places(p.written + written, p.queued + queued, p.stored + stored)
  }

  lemma {:induction false} ParcelsCount(ids: seq<int>, js: Json, u: int)
    ensures Count(Parcels(ids, js), Parcel(u, js)) == multiset(ids)[u]
  {
    if |ids| > 0 {
      var front, last := ids[..|ids|-1], ids[|ids|-1];
      ParcelsCount(front, js, u);
      CountLast(Parcels(front, js), Parcel(last, js), Parcel(u, js));
      assert ids == front + [last];
    }
  }

  lemma {:induction false} SendPlaces(b: Back, server: nat, conn: Conn, owner: int, packet: Packet, x: Parcel)
    ensures At3(Send(b, server, conn, owner, packet), x) == Plus(At3(b, x), Carried(Sent(server, conn, owner, packet), x), 0, 0)
  {
    HeldSend(b, server, conn, owner, packet, x);
  }

  lemma {:induction false} PublishPlaces(b: Back, p: Parcel, x: Parcel)
    ensures At3(Publish(b, p), x) == Plus(At3(b, x), 0, if x == p then Subscribers(b.subs, p.user) else 0, 0)
  {
    HeldPublish(b, p, x);
  }

  lemma {:induction false} StorePlaces(b: Back, p: Parcel, x: Parcel)
    ensures At3(StoreOffline(b, p), x) == Plus(At3(b, x), 0, 0, if x == p && x.user in b.users then 1 else 0)
  {
    HeldStore(b, p, x);
  }

  lemma {:induction false} SendAllPlaces(b: Back, server: nat, conns: map<int, Conn>, ids: seq<int>, js: Json, x: Parcel)
    requires forall k :: 0 <= k < |ids| ==> ids[k] in conns
    ensures At3(SendAll(b, server, conns, ids, js), x) == Plus(At3(b, x), Count(Parcels(ids, js), x), 0, 0)
  {
    HeldSendAll(b, server, conns, ids, js, x);
    SendAllFrame(b, server, conns, ids, js);
  }

  lemma {:induction false} PublishAllPlaces(b: Back, ids: seq<int>, js: Json, x: Parcel)
    ensures At3(PublishAll(b, ids, js), x) == Plus(At3(b, x), 0, Count(Parcels(ids, js), x) * Subscribers(b.subs, x.user), 0)
  {
    HeldPublishAll(b, ids, js, x);
    PublishAllFrame(b, ids, js);
  }

  lemma {:induction false} StoreAllPlaces(b: Back, ids: seq<int>, js: Json, x: Parcel)
    ensures At3(StoreAll(b, ids, js), x) == Plus(At3(b, x), 0, 0, if x.user in b.users then Count(Parcels(ids, js), x) else 0)
  {
    HeldStoreAll(b, ids, js, x);
    StoreAllFrame(b, ids, js);
  }

  // ---------- who a chat message is for ----------

  lemma {:induction false} AcceptedOne(b: Back, js: Json, x: Parcel)
    requires js.msgid == Some(6) && js.id.Some? && js.toid.Some?
    ensures Count(Accepted(b, js), x) == if x == Parcel(js.toid.value, js) && x.user in b.users then 1 else 0
  {
    CountOne(Parcel(js.toid.value, js), x);
  }

  /** A one-to-one message is for its addressee, once, if that is an account. */
  lemma {:induction false} AddressedToOne(b: Back, js: Json, u: int)
    requires js.msgid == Some(6) && js.id.Some?
    ensures Count(Accepted(b, js), Parcel(u, js)) == if js.toid == Some(u) && u in b.users then 1 else 0
  {
    if js.toid.Some? {
      AcceptedOne(b, js, Parcel(u, js));
    }
  }

  /** A group message is for each account among the members of its group, as often as listed, but not for its sender. */
  lemma {:induction false} AddressedToGroup(b: Back, js: Json, u: int)
    requires js.msgid == Some(10) && js.id.Some? && js.groupid.Some?
    ensures var sender, group := js.id.value, js.groupid.value;
            Count(Accepted(b, js), Parcel(u, js)) ==
            if u == sender || u !in b.users || group !in b.groups then 0 else multiset(b.groups[group])[u]
  {
    var sender, group := js.id.value, js.groupid.value;
    var members := if group in b.groups then b.groups[group] else [];
    KeepCount(members, {sender}, js, Parcel(u, js));
    KeepCount(Drop(members, {sender}), b.users.Keys, js, Parcel(u, js));
    ParcelsCount(members, js, u);
  }

  // ---------- where a chat message goes ----------

  /**
   * Where n copies for a user go: written if registered on the server they came to, else published to
   * every subscribed server if the table calls the user online, else stored; never to two of these places.
   */
  function Routed(p: Places, b: Back, conns: map<int, Conn>, user: int, n: nat): Places {
    if user in conns then Plus(p, n, 0, 0)
    else if user in b.users && b.users[user].online then Plus(p, 0, n * Subscribers(b.subs, user), 0)
    else Plus(p, 0, 0, n)
  }

  lemma {:induction false} OneChatGoes(server: nat, l: Local, js: Json, x: Parcel)
    requires js.msgid == Some(6) && x.user != -1
    requires forall u :: u in l.sv.conns ==> u in l.back.users || u == -1
    ensures At3(OneChat(server, l, js).back, x) ==
            Routed(At3(l.back, x), l.back, l.sv.conns, x.user, Count(Accepted(l.back, js), x))
  {
    if js.id.Some? && js.toid.Some? {
      var b, p := l.back, Parcel(js.toid.value, js);
      AcceptedOne(b, js, x);
      if p.user in l.sv.conns {
        SendPlaces(b, server, l.sv.conns[p.user], p.user, Chat(js), x);
      } else if QueryUser(b, p.user).online {
        PublishPlaces(b, p, x);
      } else {
        StorePlaces(b, p, x);
      }
    }
  }

  /** The three loops of a group message, place by place. */
  lemma {:induction false} GroupPlaces(server: nat, conns: map<int, Conn>, b: Back, here: seq<int>, off: seq<int>,
                                       on: seq<int>, js: Json, x: Parcel)
    requires forall k :: 0 <= k < |here| ==> here[k] in conns
    ensures At3(PublishAll(StoreAll(SendAll(b, server, conns, here, js), off, js), on, js), x) ==
            Plus(At3(b, x), Count(Parcels(here, js), x), Count(Parcels(on, js), x) * Subscribers(b.subs, x.user),
                 if x.user in b.users then Count(Parcels(off, js), x) else 0)
  {
    var sent := SendAll(b, server, conns, here, js);
    SendAllPlaces(b, server, conns, here, js, x);
    SendAllFrame(b, server, conns, here, js);
    StoreAllPlaces(sent, off, js, x);
    StoreAllFrame(sent, off, js);
    PublishAllPlaces(StoreAll(sent, off, js), on, js, x);
  }

  /** How the audience is divided among the three loops. */
  lemma {:induction false} GroupShares(conns: map<int, Conn>, b: Back, ids: seq<int>, js: Json, x: Parcel)
    ensures var away, n := Drop(ids, conns.Keys), Count(Parcels(ids, js), x);
            var on := x.user in b.users && b.users[x.user].online;
            && Count(Parcels(Keep(ids, conns.Keys), js), x) == (if x.user in conns then n else 0)
            && Count(Parcels(Keep(away, OnlineUsers(b)), js), x) == (if x.user !in conns && on then n else 0)
            && Count(Parcels(Drop(away, OnlineUsers(b)), js), x) == (if x.user !in conns && !on then n else 0)
            && Count(Parcels(Keep(ids, b.users.Keys), js), x) == (if x.user in b.users then n else 0)
  {
    KeepCount(ids, conns.Keys, js, x);
    KeepCount(Drop(ids, conns.Keys), OnlineUsers(b), js, x);
    KeepCount(ids, b.users.Keys, js, x);
  }

  /** Divided so, the audience is served as its members' registrations and rows call for. */
  lemma {:induction false} LoopsRouted(server: nat, conns: map<int, Conn>, b: Back, ids: seq<int>, js: Json, x: Parcel)
    requires forall k :: 0 <= k < |Keep(ids, conns.Keys)| ==> Keep(ids, conns.Keys)[k] in conns
    requires x.user in conns ==> x.user in b.users
    ensures var away, online := Drop(ids, conns.Keys), OnlineUsers(b);
            At3(PublishAll(StoreAll(SendAll(b, server, conns, Keep(ids, conns.Keys), js), Drop(away, online), js),
                           Keep(away, online), js), x) ==
            Routed(At3(b, x), b, conns, x.user, Count(Parcels(Keep(ids, b.users.Keys), js), x))
  {
    var away, online := Drop(ids, conns.Keys), OnlineUsers(b);
    GroupPlaces(server, conns, b, Keep(ids, conns.Keys), Drop(away, online), Keep(away, online), js, x);
    GroupShares(conns, b, ids, js, x);
  }

  lemma {:induction false} GroupChatGoes(server: nat, l: Local, js: Json, x: Parcel)
    requires js.msgid == Some(10) && x.user != -1
    requires forall u :: u in l.sv.conns ==> u in l.back.users || u == -1
    ensures At3(GroupChat(server, l, js).back, x) ==
            Routed(At3(l.back, x), l.back, l.sv.conns, x.user, Count(Accepted(l.back, js), x))
  {
    if js.id.Some? && js.groupid.Some? {
      var ids := Audience(l.back, js.id.value, js.groupid.value);
      KeepInside(ids, l.sv.conns.Keys);
      LoopsRouted(server, l.sv.conns, l.back, ids, js, x);
    }
  }

  /** An accepted chat parcel goes to the one place its user's registration and row call for. */
  lemma {:induction false} ChatGoes(c: Cluster, s: Step, x: Parcel)
    requires Inv(c) && Enabled(c, s) && s.Receive? && (s.js.msgid == Some(6) || s.js.msgid == Some(10)) && x.user != -1
    ensures At3(Next(c, s).back, x) ==
            Routed(At3(c.back, x), c.back, c.services[s.server].conns, x.user, Count(AcceptedBy(c, s), x))
  {
    var t := Touch(At(c, s.server), s.conn, s.now);
    if s.js.msgid == Some(6) {
      OneChatGoes(s.server, t, s.js, x);
    } else {
      GroupChatGoes(s.server, t, s.js, x);
    }
  }

  // ---------- where a delivered message goes ----------

  lemma {:induction false} UnqueuePlaces(b: Back, at: nat, x: Parcel)
    requires at < |b.inflight|
    ensures At3(b, x) == Plus(At3(Unqueue(b, at), x), 0, if b.inflight[at].parcel == x then 1 else 0, 0)
  {
    QueuedWithout(b.inflight, at, x);
  }

  lemma {:induction false} RedeliverPlaces(server: nat, l: Local, p: Parcel, x: Parcel)
    requires p.msg.msgid != Some(11) ==> p.user in l.back.users
    ensures At3(Redeliver(server, l, p).back, x) ==
            if x != p then At3(l.back, x)
            else if x.user in l.sv.conns then Plus(At3(l.back, x), 1, 0, 0)
            else if x.msg.msgid == Some(11) then At3(l.back, x)
            else Plus(At3(l.back, x), 0, 0, 1)
  {
    if p.user in l.sv.conns {
      SendPlaces(l.back, server, l.sv.conns[p.user], p.user, Chat(p.msg), x);
    } else {
      StorePlaces(l.back, p, x);
    }
  }

  /** What taking a flight off the queue and handling it does to one parcel. */
  predicate Taken(conns: map<int, Conn>, p: Parcel, x: Parcel, before: Places, after: Places) {
    if x != p then after == before
    else if x.user in conns then Plus(after, 0, 1, 0) == Plus(before, 1, 0, 0)
    else if x.msg.msgid == Some(11) then Plus(after, 0, 1, 0) == before
    else Plus(after, 0, 1, 0) == Plus(before, 0, 0, 1)
  }

  lemma {:induction false} TakeOff(b: Back, at: nat, server: nat, sv: Service, x: Parcel)
    requires at < |b.inflight| && (b.inflight[at].parcel.msg.msgid != Some(11) ==> b.inflight[at].parcel.user in b.users)
    ensures var p := b.inflight[at].parcel;
            Taken(sv.conns, p, x, At3(b, x), At3(Redeliver(server, Local(sv, Unqueue(b, at)), p).back, x))
  {
    UnqueuePlaces(b, at, x);
    RedeliverPlaces(server, Local(sv, Unqueue(b, at)), b.inflight[at].parcel, x);
  }

  /**
   * A delivery takes its parcel off the queue, and writes it if its user is registered there, drops it if it is a
   * presence notice, and stores it otherwise. No other parcel moves.
   */
  lemma {:induction false} DeliverGoes(c: Cluster, at: nat, x: Parcel)
    requires Inv(c) && Enabled(c, Deliver(at))
    ensures var f := c.back.inflight[at];
            && f.server < |c.services|
            && Taken(c.services[f.server].conns, f.parcel, x, At3(c.back, x), At3(Next(c, Deliver(at)).back, x))
  {
    var f := c.back.inflight[at];
    assert FlightOk(c.back, f);
    TakeOff(c.back, at, f.server, c.services[f.server], x);
  }

  // ---------- who hears that a friend comes or goes ----------

  /** The notice, field by field. */
  function Notice(id: int, online: bool): Json {
    Json(Some(11), None, None, None, None, Some(id), Some(online), "")
  }

  /** How often a user is listed among the friends of another. */
  function Listing(b: Back, id: int, friend: int): nat {
    if id in b.friends then multiset(b.friends[id])[friend] else 0
  }

  /** Where the notices for one friend go: written if registered here, else queued for every subscribed server. */
  function Told(p: Places, conns: map<int, Conn>, subs: seq<set<int>>, friend: int, n: nat): Places {
    if friend in conns then Plus(p, n, 0, 0) else Plus(p, 0, n * Subscribers(subs, friend), 0)
  }

  lemma {:induction false} SendOrPublishPlaces(server: nat, sv: Service, b: Back, ids: seq<int>, js: Json, x: Parcel)
    ensures At3(SendOrPublish(server, sv, b, ids, js), x) ==
            Plus(At3(b, x), Count(Parcels(Keep(ids, sv.conns.Keys), js), x),
                 Count(Parcels(Drop(ids, sv.conns.Keys), js), x) * Subscribers(b.subs, x.user), 0)
  {
    var keys := sv.conns.Keys;
    KeepInside(ids, keys);
    SendAllPlaces(b, server, sv.conns, Keep(ids, keys), js, x);
    SendAllFrame(b, server, sv.conns, Keep(ids, keys), js);
    PublishAllPlaces(SendAll(b, server, sv.conns, Keep(ids, keys), js), Drop(ids, keys), js, x);
  }

  lemma {:induction false} NotifyPlaces(server: nat, sv: Service, b: Back, id: int, online: bool, friend: int)
    ensures var x := Parcel(friend, Notice(id, online));
            At3(Notify(server, sv, b, id, online), x) == Told(At3(b, x), sv.conns, b.subs, friend, Listing(b, id, friend))
  {
    var ids, js := Listed(b.friends, id), Notice(id, online);
    SendOrPublishPlaces(server, sv, b, ids, js, Parcel(friend, js));
    KeepCount(ids, sv.conns.Keys, js, Parcel(friend, js));
    ParcelsCount(ids, js, friend);
  }

  lemma {:induction false} NoSuchRow(b: Back, rows: seq<Parcel>, x: Parcel)
    requires x.msg.msgid == Some(11) && forall k :: 0 <= k < |rows| ==> RowOk(b, rows[k])
    ensures Count(rows, x) == 0
  {
    if |rows| > 0 {
      NoSuchRow(b, rows[..|rows|-1], x);
    }
  }

  /** What the friends are told after: the row online, the mail out. */
  function HandedOver(server: nat, b: Back, conn: Conn, id: int): Back {
    var acked := Send(SetState(b, id, true), server, conn, id, LoginAck(0, OfflineOf(b.offline, id)));
    if OfflineOf(b.offline, id) == [] then acked else acked.(offline := OfflineWithout(b.offline, id))
  }

  /** Offline mail holds no notice. */
  lemma {:induction false} NoNoticeMail(b: Back, id: int, x: Parcel)
    requires BackInv(b) && x.msg.msgid == Some(11)
    ensures MailCount(id, OfflineOf(b.offline, id), x) == 0
    ensures Count(b.offline, x) == 0 && Count(OfflineWithout(b.offline, id), x) == 0
  {
    OfflineSplit(b.offline, id, x);
    NoSuchRow(b, b.offline, x);
  }

  lemma {:induction false} HandedOverPlaces(server: nat, b: Back, conn: Conn, id: int, x: Parcel)
    requires MailCount(id, OfflineOf(b.offline, id), x) == 0
    requires Count(b.offline, x) == 0 && Count(OfflineWithout(b.offline, id), x) == 0
    ensures At3(HandedOver(server, b, conn, id), x) == At3(b, x)
  {
    SendPlaces(SetState(b, id, true), server, conn, id, LoginAck(0, OfflineOf(b.offline, id)), x);
  }

  lemma {:induction false} FinishLoginNotices(server: nat, l: Local, conn: Conn, id: int, friend: int)
    requires BackInv(l.back)
    ensures var x := Parcel(friend, Notice(id, true));
            At3(FinishLogin(server, l, conn, id).back, x) ==
            Told(At3(l.back, x), l.sv.conns, l.back.subs, friend, Listing(l.back, id, friend))
  {
    NoNoticeMail(l.back, id, Parcel(friend, Notice(id, true)));
    HandedOverPlaces(server, l.back, conn, id, Parcel(friend, Notice(id, true)));
    NotifyPlaces(server, l.sv, HandedOver(server, l.back, conn, id), id, true, friend);
  }

  lemma {:induction false} LoginNotices(server: nat, l: Local, conn: Conn, js: Json, friend: int)
    requires LocalInv(server, l) && LoginAccepted(l.back, js)
    ensures var id, r := js.id.value, Login(server, l, conn, js);
            var x := Parcel(friend, Notice(id, true));
            At3(r.back, x) == Told(At3(l.back, x), r.sv.conns, r.back.subs, friend, Listing(l.back, id, friend))
  {
    var id := js.id.value;
    var admitted := Local(l.sv.(conns := l.sv.conns[id := conn]), Admit(server, l, id));
    LoginIsFinish(server, l, conn, js);
    AdmitFrame(server, l, id);
    AdmitKeeps(server, l, conn, id);
    FinishLoginFrame(server, admitted, conn, id);
    FinishLoginNotices(server, admitted, conn, id, friend);
  }

  lemma {:induction false} SignOffNotices(server: nat, l: Local, id: int, friend: int)
    ensures var x, r := Parcel(friend, Notice(id, false)), GoOffline(server, l, id);
            At3(r.back, x) == Told(At3(l.back, x), r.sv.conns, r.back.subs, friend, Listing(l.back, id, friend))
  {
    NotifyPlaces(server, l.sv, SetState(l.back, id, false), id, false, friend);
    NotifyFrame(server, l.sv, SetState(l.back, id, false), id, false);
  }

  datatype News = Silence | News(id: int, online: bool)

  /** The account that a step brings online or takes offline at its server, if any. */
  function Announced(c: Cluster, s: Step): News {
    match s
    case Receive(_, _, js, _) =>
      if js.msgid == Some(1) && LoginAccepted(c.back, js) then News(js.id.value, true)
      else if js.msgid == Some(3) && js.id.Some? then News(js.id.value, false)
      else Silence
    case Hangup(_, _, victim) => if victim.Some? && victim != Some(-1) then News(victim.value, false) else Silence
    case _ => Silence
  }

  lemma {:induction false} DispatchNotices(c: Cluster, s: Step, friend: int)
    requires Inv(c) && Enabled(c, s) && s.Receive? && Announced(c, s).News?
    ensures var a, r := Announced(c, s), Dispatch(s.server, At(c, s.server), s.conn, s.js, s.now);
            var x := Parcel(friend, Notice(a.id, a.online));
            At3(r.back, x) == Told(At3(c.back, x), r.sv.conns, r.back.subs, friend, Listing(c.back, a.id, friend))
  {
    var server, t := s.server, Touch(At(c, s.server), s.conn, s.now);
    if s.js.msgid == Some(1) {
      LoginNotices(server, t, s.conn, s.js, friend);
    } else {
      var id := s.js.id.value;
      var sv := t.sv.(conns := t.sv.conns - {id}, lastTime := t.sv.lastTime - {s.conn});
      SignOffNotices(server, Local(sv, Unsubscribe(t.back, server, id)), id, friend);
    }
  }

  /**
   * When an account logs in, logs out or is lost with its connection, every friend's notice is written as often as the
   * friend is listed, if registered on that server afterwards, and otherwise queued for each server then subscribed.
   */
  lemma {:induction false} FriendsAreTold(c: Cluster, s: Step, friend: int)
    requires Inv(c) && Enabled(c, s) && Announced(c, s).News?
    ensures s.server < |Next(c, s).services|
    ensures var a, d := Announced(c, s), Next(c, s);
            var x := Parcel(friend, Notice(a.id, a.online));
            At3(d.back, x) ==
            Told(At3(c.back, x), d.services[s.server].conns, d.back.subs, friend, Listing(c.back, a.id, friend))
  {
    if s.Receive? {
      DispatchNotices(c, s, friend);
    } else {
      var server, l, id := s.server, At(c, s.server), s.victim.value;
      var sv := l.sv.(conns := l.sv.conns - {id}, lastTime := l.sv.lastTime - {s.conn});
      SignOffNotices(server, Local(sv, Unsubscribe(l.back, server, id)), id, friend);
    }
  }

  // ---------- what else is answered, and what is left alone ----------

  /** Who is let in: a password equal to that of the row; or account -1 with an empty one, when it has no row. */
  lemma {:induction false} LetIn(b: Back, js: Json)
    ensures LoginAccepted(b, js) <==>
            && js.id.Some? && js.password.Some?
            && (if js.id.value in b.users then js.password.value == b.users[js.id.value].pwd
                else js.id.value == -1 && js.password.value == "")
  {
  }

  /** A refused login is answered with error 1 and an empty mail on its own connection, and changes nothing else. */
  lemma {:induction false} RefusalAnswered(server: nat, l: Local, conn: Conn, js: Json, now: int)
    requires server < |l.back.subs| && js.msgid == Some(1) && !LoginAccepted(l.back, js)
    ensures var r := Dispatch(server, l, conn, js, now);
            && r.sv == l.sv.(lastTime := l.sv.lastTime[conn := now])
            && r.back == l.back.(out := l.back.out + [Sent(server, conn, -1, LoginAck(1, []))])
  {
  }

  /** A heartbeat is answered on its own connection; bodies of other kinds only renew the time. */
  lemma {:induction false} OtherBodies(server: nat, l: Local, conn: Conn, js: Json, now: int)
    requires server < |l.back.subs| && js.msgid !in {Some(1), Some(3), Some(6), Some(10)}
    ensures var r := Dispatch(server, l, conn, js, now);
            && r.sv == l.sv.(lastTime := l.sv.lastTime[conn := now])
            && r.back == if js.msgid == Some(13) then l.back.(out := l.back.out + [Sent(server, conn, -1, Pong)]) else l.back
  {
  }

  /** A login, a logout and a close change the online mark of one row, and nothing of its password or of any other row. */
  lemma {:induction false} OneMarkChanges(c: Cluster, s: Step)
    requires Inv(c) && Enabled(c, s) && !s.Admin?
    ensures var a, users := Announced(c, s), c.back.users;
            Next(c, s).back.users ==
            if a.News? && a.id in users then users[a.id := Row(users[a.id].pwd, a.online)] else users
  {
    match s
    case Receive(server, conn, js, now) => Presences.DispatchUsers(server, At(c, server), conn, js, now);
    case Hangup(server, conn, victim) => Presences.CloseUsers(server, At(c, server), conn, victim);
    case Deliver(at) => assert FlightOk(c.back, c.back.inflight[at]);
    case Tick(_, _) =>
  }

  /** A close ends the tracking of its connection and of no other. */
  lemma {:induction false} CloseTracks(server: nat, l: Local, conn: Conn, victim: Option<int>)
    requires server < |l.back.subs|
    ensures Close(server, l, conn, victim).sv.lastTime == l.sv.lastTime - {conn}
  {
  }

  // ---------- in which order ----------

  /** What the broker still has to deliver to one server. */
  function Stream(q: seq<Flight>, server: nat): seq<Parcel> {
    if |q| == 0 then []
    else Stream(q[..|q|-1], server) + (if q[|q|-1].server == server then [q[|q|-1].parcel] else [])
  }

  lemma {:induction false} StreamConcat(a: seq<Flight>, b: seq<Flight>, server: nat)
    ensures Stream(a + b, server) == Stream(a, server) + Stream(b, server)
  {
    if |b| == 0 {
      assert a + b == a;
    } else {
      assert (a + b)[..|a + b|-1] == a + b[..|b|-1];
      StreamConcat(a, b[..|b|-1], server);
    }
  }

  lemma {:induction false} StreamOne(f: Flight, server: nat)
    ensures Stream([f], server) == if f.server == server then [f.parcel] else []
  {
    assert [f][..0] == [];
  }

  lemma {:induction false} FanoutStream(subs: seq<set<int>>, p: Parcel, server: nat)
    ensures Stream(Fanout(subs, p), server) == if server < |subs| && p.user in subs[server] then [p] else []
  {
    if |subs| > 0 {
      var front := subs[..|subs|-1];
      FanoutStream(front, p, server);
      StreamConcat(Fanout(front, p), if p.user in subs[|subs|-1] then [Flight(|subs|-1, p)] else [], server);
      StreamOne(Flight(|subs|-1, p), server);
    }
  }

  /** A published message goes to the end of the stream of each subscribed server. */
  lemma {:induction false} PublishedLast(b: Back, p: Parcel, server: nat)
    ensures Stream(Publish(b, p).inflight, server) ==
            Stream(b.inflight, server) + if server < |b.subs| && p.user in b.subs[server] then [p] else []
  {
    StreamConcat(b.inflight, Fanout(b.subs, p), server);
    FanoutStream(b.subs, p, server);
  }

  lemma {:induction false} NoneBefore(q: seq<Flight>, server: nat)
    requires forall j :: 0 <= j < |q| ==> q[j].server != server
    ensures Stream(q, server) == []
  {
    if |q| > 0 {
      NoneBefore(q[..|q|-1], server);
    }
  }

  lemma {:induction false} SplitQueue(q: seq<Flight>, at: nat)
    requires at < |q|
    ensures q == q[..at] + ([q[at]] + q[at+1..])
  {
  }

  /** The first flight for a server leaves its stream; the other streams keep theirs. */
  lemma {:induction false} StreamWithout(q: seq<Flight>, at: nat, server: nat)
    requires at < |q| && forall j :: 0 <= j < at ==> q[j].server != q[at].server
    ensures Stream(q, server) ==
            (if server == q[at].server then [q[at].parcel] else []) + Stream(q[..at] + q[at+1..], server)
  {
    var f, before, after := q[at], q[..at], q[at+1..];
    SplitQueue(q, at);
    StreamConcat(before, [f] + after, server);
    StreamConcat([f], after, server);
    StreamConcat(before, after, server);
    StreamOne(f, server);
    if server == f.server {
      NoneBefore(before, server);
    }
  }

  /** A delivery takes the first message of its server's stream and leaves the other streams alone. */
  lemma {:induction false} DeliveredFirst(c: Cluster, at: nat, server: nat)
    requires Inv(c) && Enabled(c, Deliver(at))
    ensures var f, q, r := c.back.inflight[at], c.back.inflight, Next(c, Deliver(at)).back.inflight;
            Stream(q, server) == (if server == f.server then [f.parcel] else []) + Stream(r, server)
  {
    assert FlightOk(c.back, c.back.inflight[at]);
    StreamWithout(c.back.inflight, at, server);
  }

  /** Mail is kept and handed over in the order it was stored. */
  lemma {:induction false} MailInOrder(a: seq<Parcel>, b: seq<Parcel>, p: Parcel, id: int)
    ensures OfflineOf(a + b, id) == OfflineOf(a, id) + OfflineOf(b, id)
    ensures OfflineOf([p], id) == if p.user == id then [p.msg] else []
  {
    assert [p][..0] == [];
    if |b| == 0 {
      assert a + b == a;
    } else {
      assert (a + b)[..|a + b|-1] == a + b[..|b|-1];
      MailInOrder(a, b[..|b|-1], p, id);
    }
  }

  /** A message stored for a user becomes the user's last one, and nobody else's mail changes. */
  lemma {:induction false} StoredLast(b: Back, p: Parcel, id: int)
    ensures OfflineOf(StoreOffline(b, p).offline, id) ==
            OfflineOf(b.offline, id) + if p.user == id && id in b.users then [p.msg] else []
  {
    MailInOrder(b.offline, [p], p, id);
  }
}
