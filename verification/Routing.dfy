/**
 * What one chat server does to its own registrations and to the tables and the
 * Pub/Sub broker that all servers share, handler by handler, on values.
 * ChatService.dfy proves the handlers themselves equal to these functions;
 * Delivery.dfy proves what the functions guarantee over whole cluster runs.
 */
module Routing {
  import opened Protocol

  type Conn = nat

  /** A message together with the user it is meant for: a row of OfflineMessage. */
  datatype Parcel = Parcel(user: int, msg: Json)

  /** A published message queued by the broker for one subscribed server. */
  datatype Flight = Flight(server: nat, parcel: Parcel)

  datatype Packet = Chat(msg: Json) | LoginAck(errno: int, offline: seq<Json>) | Pong

  /** A packet written to a connection; owner is the user the connection was looked up for. */
  datatype Sent = Sent(server: nat, conn: Conn, owner: int, packet: Packet)

  /** A row of the User table. */
  datatype Row = Row(pwd: string, online: bool)

  /** What UserModel::query returns. */
  datatype User = User(id: int, pwd: string, online: bool)

  /** State owned by one server process. */
  datatype Service = Service(conns: map<int, Conn>, lastTime: map<Conn, int>)

  /** State outside the server processes: MySQL tables, broker, and the packets and shutdowns issued. */
  datatype Back = Back(
    users: map<int, Row>,
    offline: seq<Parcel>,
    friends: map<int, seq<int>>,
    groups: map<int, seq<int>>,
    subs: seq<set<int>>,
    inflight: seq<Flight>,
    out: seq<Sent>,
    shut: set<(nat, Conn)>)

  /** What a handler running on one server can see and change. */
  datatype Local = Local(sv: Service, back: Back)

  // ---------- lists of users ----------

  /** The elements of ids that lie in s, in order. */
  function Keep(ids: seq<int>, s: set<int>): seq<int> {
    if |ids| == 0 then []
    else Keep(ids[..|ids|-1], s) + (if ids[|ids|-1] in s then [ids[|ids|-1]] else [])
  }

  /** The elements of ids outside s, in order. */
  function Drop(ids: seq<int>, s: set<int>): seq<int> {
    if |ids| == 0 then []
    else Drop(ids[..|ids|-1], s) + (if ids[|ids|-1] in s then [] else [ids[|ids|-1]])
  }

  function Parcels(ids: seq<int>, js: Json): seq<Parcel> {
    if |ids| == 0 then []
    else Parcels(ids[..|ids|-1], js) + [Parcel(ids[|ids|-1], js)]
  }

  function Listed(m: map<int, seq<int>>, key: int): seq<int> {
    if key in m then m[key] else []
  }

  // ---------- tables ----------

  /** A missing row reads as a default user: id -1, empty password, offline. */
  function QueryUser(b: Back, id: int): User {
    if id in b.users then User(id, b.users[id].pwd, b.users[id].online) else User(-1, "", false)
  }

  function OnlineUsers(b: Back): set<int> {
    set u | u in b.users && b.users[u].online
  }

  function SetState(b: Back, id: int, online: bool): Back {
    if id in b.users then b.(users := b.users[id := b.users[id].(online := online)]) else b
  }

  /** The foreign key of OfflineMessage refuses rows for unknown users. */
  function StoreOffline(b: Back, p: Parcel): Back {
    if p.user in b.users then b.(offline := b.offline + [p]) else b
  }

  function StoreAll(b: Back, ids: seq<int>, js: Json): Back {
    if |ids| == 0 then b
    else StoreOffline(StoreAll(b, ids[..|ids|-1], js), Parcel(ids[|ids|-1], js))
  }

  function OfflineOf(rows: seq<Parcel>, id: int): seq<Json> {
    if |rows| == 0 then []
    else OfflineOf(rows[..|rows|-1], id) + (if rows[|rows|-1].user == id then [rows[|rows|-1].msg] else [])
  }

  function OfflineWithout(rows: seq<Parcel>, id: int): seq<Parcel> {
    if |rows| == 0 then []
    else OfflineWithout(rows[..|rows|-1], id) + (if rows[|rows|-1].user == id then [] else [rows[|rows|-1]])
  }

  // ---------- broker and sockets ----------

  /** One copy for every server subscribed to the channel. */
  function Fanout(subs: seq<set<int>>, p: Parcel): seq<Flight> {
    if |subs| == 0 then []
    else Fanout(subs[..|subs|-1], p) + (if p.user in subs[|subs|-1] then [Flight(|subs|-1, p)] else [])
  }

  function Publish(b: Back, p: Parcel): Back {
    b.(inflight := b.inflight + Fanout(b.subs, p))
  }

  function PublishAll(b: Back, ids: seq<int>, js: Json): Back {
    if |ids| == 0 then b
    else Publish(PublishAll(b, ids[..|ids|-1], js), Parcel(ids[|ids|-1], js))
  }

  function Subscribe(b: Back, server: nat, id: int): Back
    requires server < |b.subs|
  {
    b.(subs := b.subs[server := b.subs[server] + {id}])
  }

  function Unsubscribe(b: Back, server: nat, id: int): Back
    requires server < |b.subs|
  {
    b.(subs := b.subs[server := b.subs[server] - {id}])
  }

  function Send(b: Back, server: nat, conn: Conn, owner: int, packet: Packet): Back {
    b.(out := b.out + [Sent(server, conn, owner, packet)])
  }

  function SendAll(b: Back, server: nat, conns: map<int, Conn>, ids: seq<int>, js: Json): Back
    requires forall k :: 0 <= k < |ids| ==> ids[k] in conns
  {
    if |ids| == 0 then b
    else Send(SendAll(b, server, conns, ids[..|ids|-1], js), server, conns[ids[|ids|-1]], ids[|ids|-1], Chat(js))
  }

  // ---------- handlers ----------

  /** Everything Keep returns lies in s. */
  lemma {:induction false} KeepInside(ids: seq<int>, s: set<int>)
    ensures forall k :: 0 <= k < |Keep(ids, s)| ==> Keep(ids, s)[k] in s
  {
    if |ids| > 0 {
      KeepInside(ids[..|ids|-1], s);
    }
  }

  /** Write js to the registered users among ids, publish it to the others. */
  function SendOrPublish(server: nat, sv: Service, b: Back, ids: seq<int>, js: Json): Back {
    KeepInside(ids, sv.conns.Keys);
    PublishAll(SendAll(b, server, sv.conns, Keep(ids, sv.conns.Keys), js), Drop(ids, sv.conns.Keys), js)
  }

  function Notify(server: nat, sv: Service, b: Back, userid: int, online: bool): Back {
    SendOrPublish(server, sv, b, Listed(b.friends, userid), Presence(userid, online))
  }

  /** The state after a login has been accepted and the connection registered and subscribed. */
  function FinishLogin(server: nat, l: Local, conn: Conn, id: int): Local {
    var b := SetState(l.back, id, true);
    var mail := OfflineOf(b.offline, id);
    var acked := Send(b, server, conn, id, LoginAck(0, mail));
    var drained := if mail == [] then acked else acked.(offline := OfflineWithout(acked.offline, id));
    l.(back := Notify(server, l.sv, drained, id, true))
  }

  function Login(server: nat, l: Local, conn: Conn, js: Json): Local
    requires server < |l.back.subs|
  {
    if js.id == None || js.password == None then
      l.(back := Send(l.back, server, conn, -1, LoginAck(1, [])))
    else
      var id := js.id.value;
      var user := QueryUser(l.back, id);
      if user.id == id && user.pwd == js.password.value then
        var sv := l.sv.(conns := l.sv.conns[id := conn]);
        var kicked := if user.online && id in l.sv.conns
                      then l.back.(shut := l.back.shut + {(server, l.sv.conns[id])}) else l.back;
        var b := if user.online then Subscribe(Unsubscribe(kicked, server, id), server, id)
                 else Subscribe(kicked, server, id);
        FinishLogin(server, Local(sv, b), conn, id)
      else
        l.(back := Send(l.back, server, conn, -1, LoginAck(1, [])))
  }

  /** The account goes offline on this server: tables, then friends are told. */
  function GoOffline(server: nat, l: Local, id: int): Local {
    l.(back := Notify(server, l.sv, SetState(l.back, id, false), id, false))
  }

  function Logout(server: nat, l: Local, conn: Conn, js: Json): Local
    requires server < |l.back.subs|
  {
    if js.id == None then l
    else
      var sv := l.sv.(conns := l.sv.conns - {js.id.value}, lastTime := l.sv.lastTime - {conn});
      GoOffline(server, Local(sv, Unsubscribe(l.back, server, js.id.value)), js.id.value)
  }

  predicate Carries(conns: map<int, Conn>, conn: Conn) {
    exists u :: u in conns && conns[u] == conn
  }

  /** The registrations a closing connection may be found under. */
  predicate IsVictim(conns: map<int, Conn>, conn: Conn, victim: Option<int>) {
    match victim
    case Some(u) => u in conns && conns[u] == conn
    case None => !Carries(conns, conn)
  }

  /** Only the first registration found for the connection is removed; with none, -1 is used. */
  function Close(server: nat, l: Local, conn: Conn, victim: Option<int>): Local
    requires server < |l.back.subs|
  {
    match victim
    case Some(u) =>
      var sv := l.sv.(conns := l.sv.conns - {u}, lastTime := l.sv.lastTime - {conn});
      var b := Unsubscribe(l.back, server, u);
      if u != -1 then GoOffline(server, Local(sv, b), u) else Local(sv, b)
    case None =>
      Local(l.sv.(lastTime := l.sv.lastTime - {conn}), Unsubscribe(l.back, server, -1))
  }

  function OneChat(server: nat, l: Local, js: Json): Local {
    if js.id == None || js.toid == None then l
    else
      var toid := js.toid.value;
      if toid in l.sv.conns then l.(back := Send(l.back, server, l.sv.conns[toid], toid, Chat(js)))
      else if QueryUser(l.back, toid).online then l.(back := Publish(l.back, Parcel(toid, js)))
      else l.(back := StoreOffline(l.back, Parcel(toid, js)))
  }

  /** The members of a group other than the sender. */
  function Audience(b: Back, userid: int, groupid: int): seq<int> {
    Drop(Listed(b.groups, groupid), {userid})
  }

  function GroupChat(server: nat, l: Local, js: Json): Local {
    if js.id == None || js.groupid == None then l
    else
      var ids := Audience(l.back, js.id.value, js.groupid.value);
      KeepInside(ids, l.sv.conns.Keys);
      var away := Drop(ids, l.sv.conns.Keys);
      var sent := SendAll(l.back, server, l.sv.conns, Keep(ids, l.sv.conns.Keys), js);
      var stored := StoreAll(sent, Drop(away, OnlineUsers(l.back)), js);
      l.(back := PublishAll(stored, Keep(away, OnlineUsers(l.back)), js))
  }

  /** A message published for p.user reaches a server subscribed at that time. */
  function Redeliver(server: nat, l: Local, p: Parcel): Local {
    if p.user in l.sv.conns then l.(back := Send(l.back, server, l.sv.conns[p.user], p.user, Chat(p.msg)))
    else if p.msg.msgid == Some(FRIEND_STATE_CHANGE_MSG) then l
    else l.(back := StoreOffline(l.back, p))
  }

  function Touch(l: Local, conn: Conn, now: int): Local {
    l.(sv := l.sv.(lastTime := l.sv.lastTime[conn := now]))
  }

  /** A body that parsed: note the time, then run the handler registered for its msgid. */
  function Dispatch(server: nat, l: Local, conn: Conn, js: Json, now: int): Local
    requires server < |l.back.subs|
  {
    var t := Touch(l, conn, now);
    if js.msgid == Some(LOGIN_MSG) then Login(server, t, conn, js)
    else if js.msgid == Some(LOGINOUT_MSG) then Logout(server, t, conn, js)
    else if js.msgid == Some(ONE_CHAT_MSG) then OneChat(server, t, js)
    else if js.msgid == Some(GROUP_CHAT_MSG) then GroupChat(server, t, js)
    else if js.msgid == Some(HEARTBEAT_MSG) then t.(back := Send(t.back, server, conn, -1, Pong))
    else t
  }

  const HEARTBEAT_LIMIT := 30

  function Stale(lastTime: map<Conn, int>, now: int): set<Conn> {
    set c | c in lastTime && now - lastTime[c] > HEARTBEAT_LIMIT
  }

  function CheckHeartbeat(server: nat, l: Local, now: int): Local {
    l.(back := l.back.(shut := l.back.shut + set c | c in Stale(l.sv.lastTime, now) :: (server, c)))
  }
}
