/** Sessions and channels: what a kicked connection can still do, and where channels and registrations differ. */
module Sessions {
  import opened Protocol
  import opened Routing
  import opened Delivery
  import opened Accounting

  // ---------- no publish into the void ----------

  /** In every state of every run, an online user is registered and subscribed on some server. */
  lemma {:induction false} OnlineIsReachable(c: Cluster, steps: seq<Step>, user: int)
    requires Inv(c) && Legal(c, steps)
    requires var b := Final(c, steps).back; user in b.users && b.users[user].online
    ensures var f := Final(c, steps);
            |f.services| == |f.back.subs|
            && exists i :: 0 <= i < |f.services| && user in f.services[i].conns && user in f.back.subs[i]
  {
    RunInvariant(c, steps);
    var f := Final(c, steps);
    var i :| 0 <= i < |f.back.subs| && user in f.back.subs[i];
    assert Registered(f.back.users, f.services[i].conns, f.back.subs[i]);
  }

  /** Over all runs, every row of the offline table is a one-to-one or group message; no presence notice is stored. */
  lemma {:induction false} OnlyChatIsStored(c: Cluster, steps: seq<Step>)
    requires Inv(c) && Legal(c, steps)
    ensures forall p :: p in Final(c, steps).back.offline ==> IsChat(p.msg) && p.user in Final(c, steps).back.users
  {
    RunInvariant(c, steps);
    var b := Final(c, steps).back;
    forall p | p in b.offline ensures IsChat(p.msg) && p.user in b.users {
      assert RowOk(b, p);
    }
  }

  /** A freshly started cluster satisfies the invariant. */
  lemma {:induction false} FreshClusterInv(n: nat, users: map<int, Row>, friends: map<int, seq<int>>, groups: map<int, seq<int>>,
                        offline: seq<Parcel>)
    requires -1 !in users && forall u :: u in users ==> !users[u].online
    requires forall p :: p in offline ==> IsChat(p.msg) && p.user in users
    ensures Inv(Cluster(seq(n, _ => Service(map[], map[])),
                        Back(users, offline, friends, groups, seq(n, _ => {}), [], [], {})))
  {
    var b := Back(users, offline, friends, groups, seq(n, _ => {}), [], [], {});
    forall p | p in b.offline ensures RowOk(b, p) {
    }
  }

  // ---------- channels and registrations ----------

  /** On every server the subscribed channels are exactly the registered users. */
  predicate ChannelsMatch(c: Cluster) {
    |c.services| == |c.back.subs|
    && forall i :: 0 <= i < |c.services| ==> c.back.subs[i] == c.services[i].conns.Keys
  }

  /** The branch of the close handler that unsubscribes channel -1 while that account is registered. */
  predicate ClosesUnknown(c: Cluster, s: Step)
    requires Enabled(c, s)
  {
    s.Hangup? && s.victim == None && -1 in c.services[s.server].conns
  }

  /** A login registers exactly one more user, on that connection, and subscribes exactly that channel. */
  lemma {:induction false} LoginSessions(server: nat, l: Local, conn: Conn, js: Json)
    requires server < |l.back.subs|
    ensures var r := Login(server, l, conn, js);
            if LoginAccepted(l.back, js)
            then r.sv.conns == l.sv.conns[js.id.value := conn]
                 && r.back.subs == l.back.subs[server := l.back.subs[server] + {js.id.value}]
            else r.sv.conns == l.sv.conns && r.back.subs == l.back.subs
  {
    if LoginAccepted(l.back, js) {
      var id := js.id.value;
      LoginIsFinish(server, l, conn, js);
      AdmitFrame(server, l, id);
      FinishLoginFrame(server, Local(l.sv.(conns := l.sv.conns[id := conn]), Admit(server, l, id)), conn, id);
    }
  }

  /** Login and logout are the only bodies that change registrations or subscriptions. */
  lemma {:induction false} DispatchSessions(server: nat, l: Local, conn: Conn, js: Json, now: int)
    requires server < |l.back.subs|
    ensures var r := Dispatch(server, l, conn, js, now);
            if js.msgid == Some(LOGIN_MSG) && LoginAccepted(l.back, js)
            then r.sv.conns == l.sv.conns[js.id.value := conn]
                 && r.back.subs == l.back.subs[server := l.back.subs[server] + {js.id.value}]
            else if js.msgid == Some(LOGINOUT_MSG) && js.id.Some?
            then r.sv.conns == l.sv.conns - {js.id.value}
                 && r.back.subs == l.back.subs[server := l.back.subs[server] - {js.id.value}]
            else r.sv.conns == l.sv.conns && r.back.subs == l.back.subs
  {
    var t := Touch(l, conn, now);
    if js.msgid == Some(LOGIN_MSG) {
      LoginSessions(server, t, conn, js);
    } else if js.msgid == Some(LOGINOUT_MSG) && js.id.Some? {
      NotifyFrame(server, Logout(server, t, conn, js).sv,
                 SetState(Unsubscribe(t.back, server, js.id.value), js.id.value, false), js.id.value, false);
    } else if js.msgid == Some(GROUP_CHAT_MSG) {
      GroupChatFrame(server, t, js);
    }
  }

  lemma {:induction false} CloseSessions(server: nat, l: Local, conn: Conn, victim: Option<int>)
    requires server < |l.back.subs|
    ensures var r := Close(server, l, conn, victim);
            var id := if victim.Some? then victim.value else -1;
            && r.back.subs == l.back.subs[server := l.back.subs[server] - {id}]
            && r.sv.conns == (if victim.Some? then l.sv.conns - {id} else l.sv.conns)
  {
    if victim.Some? && victim.value != -1 {
      NotifyFrame(server, Close(server, l, conn, victim).sv,
                 SetState(Unsubscribe(l.back, server, victim.value), victim.value, false), victim.value, false);
    }
  }

  /**
   * Channels keep matching registrations through any step, except exactly when a
   * connection without registration closes while account -1 is registered there.
   */
  lemma {:induction false} ChannelsFollowRegistrations(c: Cluster, s: Step)
    requires Inv(c) && Enabled(c, s) && ChannelsMatch(c)
    ensures ChannelsMatch(Next(c, s)) <==> !ClosesUnknown(c, s)
  {
    match s
    case Receive(server, conn, js, now) => DispatchSessions(server, At(c, server), conn, js, now);
    case Hangup(server, conn, victim) =>
      CloseSessions(server, At(c, server), conn, victim);
      var n := Next(c, s);
      if ClosesUnknown(c, s) {
        assert -1 in n.services[server].conns.Keys && -1 !in n.back.subs[server];
      }
    case Deliver(at) => assert FlightOk(c.back, c.back.inflight[at]);
    case Tick(server, now) =>
    case Admin(friends, groups, joined) =>
  }

  /** The failing family is not empty: account -1 with an empty password can log in although it has no row. */
  lemma {:induction false} UnknownAccountLogsIn()
    ensures var login := Json(Some(LOGIN_MSG), Some(-1), None, None, Some(""), None, None, "");
            var c0 := Cluster([Service(map[], map[])], Back(map[], [], map[], map[], [{}], [], [], {}));
            && Inv(c0) && ChannelsMatch(c0) && Enabled(c0, Receive(0, 7, login, 0))
            && var c1 := Next(c0, Receive(0, 7, login, 0));
            && Inv(c1) && Enabled(c1, Hangup(0, 8, None))
            && !ChannelsMatch(Next(c1, Hangup(0, 8, None)))
  {
    var login := Json(Some(LOGIN_MSG), Some(-1), None, None, Some(""), None, None, "");
    var c0 := Cluster([Service(map[], map[])], Back(map[], [], map[], map[], [{}], [], [], {}));
    assert Inv(c0);
    InvStep(c0, Receive(0, 7, login, 0));
    ChannelsFollowRegistrations(c0, Receive(0, 7, login, 0));
    DispatchSessions(0, At(c0, 0), 7, login, 0);
    var c1 := Next(c0, Receive(0, 7, login, 0));
    assert c1.services[0].conns == map[-1 := 7];
    ChannelsFollowRegistrations(c1, Hangup(0, 8, None));
  }

  /** Nobody asks to log in as -1. */
  predicate NoUnknownLogin(steps: seq<Step>) {
    forall k :: 0 <= k < |steps| ==> steps[k].Receive? && steps[k].js.msgid == Some(LOGIN_MSG) ==> steps[k].js.id != Some(-1)
  }

  /** For accounts with rows, channels equal registrations on every server in every reachable state. */
  lemma {:induction false} RunChannelsMatch(c: Cluster, steps: seq<Step>)
    requires Inv(c) && Legal(c, steps) && ChannelsMatch(c) && NoUnknownLogin(steps)
    requires forall i :: 0 <= i < |c.services| ==> -1 !in c.services[i].conns
    ensures ChannelsMatch(Final(c, steps))
    decreases |steps|
  {
    if |steps| > 0 {
      var s := steps[0];
      InvStep(c, s);
      ChannelsFollowRegistrations(c, s);
      match s {
        case Receive(server, conn, js, now) => DispatchSessions(server, At(c, server), conn, js, now);
        case Hangup(server, conn, victim) => CloseSessions(server, At(c, server), conn, victim);
        case Deliver(at) =>
        case Tick(server, now) =>
        case Admin(friends, groups, joined) =>
      }
      RunChannelsMatch(Next(c, s), steps[1..]);
    }
  }

  // ---------- the kicked connection ----------

  /** A login on a server where the same user is registered on another connection. */
  predicate ForcedRelogin(c: Cluster, s: Step)
    requires Enabled(c, s)
  {
    && s.Receive? && s.js.msgid == Some(LOGIN_MSG) && LoginAccepted(c.back, s.js)
    && s.js.id.value in c.services[s.server].conns
    && c.services[s.server].conns[s.js.id.value] != s.conn
  }

  function Kicked(c: Cluster, s: Step): Conn
    requires Enabled(c, s) && ForcedRelogin(c, s)
  {
    c.services[s.server].conns[s.js.id.value]
  }

  /** The kicked connection carries no other account. */
  predicate OneAccount(c: Cluster, s: Step)
    requires Enabled(c, s) && ForcedRelogin(c, s)
  {
    forall u :: u in c.services[s.server].conns && u != s.js.id.value ==> c.services[s.server].conns[u] != Kicked(c, s)
  }

  /** Same registrations, user rows and channels (channel -1 belongs to no account). */
  ghost predicate SameSessions(c: Cluster, d: Cluster) {
    && |c.services| == |d.services| && |c.back.subs| == |d.back.subs|
    && (forall i :: 0 <= i < |c.services| ==> c.services[i].conns == d.services[i].conns)
    && c.back.users == d.back.users
    && (forall i, u :: 0 <= i < |c.back.subs| && u != -1 ==> (u in c.back.subs[i] <==> u in d.back.subs[i]))
  }

  /** Whichever registration the close handler finds for conn, closing it changes no session. */
  ghost predicate CloseHarmless(c: Cluster, server: nat, conn: Conn)
    requires Inv(c) && server < |c.services|
  {
    forall victim | Enabled(c, Hangup(server, conn, victim)) :: SameSessions(c, Next(c, Hangup(server, conn, victim)))
  }

  lemma {:induction false} UnregisteredCloseHarmless(c: Cluster, server: nat, conn: Conn)
    requires Inv(c) && server < |c.services|
    ensures CloseHarmless(c, server, conn) <==> !Carries(c.services[server].conns, conn)
  {
    var conns := c.services[server].conns;
    if Carries(conns, conn) {
      var u :| u in conns && conns[u] == conn;
      CloseSessions(server, At(c, server), conn, Some(u));
      var d := Next(c, Hangup(server, conn, Some(u)));
      assert u !in d.services[server].conns;
      assert !SameSessions(c, d);
      assert Enabled(c, Hangup(server, conn, Some(u)));
    } else {
      forall victim | Enabled(c, Hangup(server, conn, victim))
        ensures SameSessions(c, Next(c, Hangup(server, conn, victim)))
      {
        assert victim == None;
        CloseSessions(server, At(c, server), conn, victim);
      }
    }
  }

  /** No step of the run is a login on conn at that server. */
  predicate NeverLogsIn(steps: seq<Step>, server: nat, conn: Conn) {
    forall k :: 0 <= k < |steps| && steps[k].Receive? && steps[k].server == server && steps[k].conn == conn ==>
      steps[k].js.msgid != Some(LOGIN_MSG)
  }

  lemma {:induction false} StaysUnregistered(c: Cluster, steps: seq<Step>, server: nat, conn: Conn)
    requires Inv(c) && Legal(c, steps) && server < |c.services|
    requires !Carries(c.services[server].conns, conn) && NeverLogsIn(steps, server, conn)
    ensures server < |Final(c, steps).services| && !Carries(Final(c, steps).services[server].conns, conn)
    decreases |steps|
  {
    if |steps| > 0 {
      var s := steps[0];
      InvStep(c, s);
      match s {
        case Receive(i, from, js, now) => DispatchSessions(i, At(c, i), from, js, now);
        case Hangup(i, from, victim) => CloseSessions(i, At(c, i), from, victim);
        case Deliver(at) =>
        case Tick(i, now) =>
        case Admin(friends, groups, joined) =>
      }
      var d := Next(c, s);
      assert forall u :: u in d.services[server].conns && d.services[server].conns[u] == conn ==> u in c.services[server].conns;
      StaysUnregistered(d, steps[1..], server, conn);
    }
  }

  /**
   * A kicked session cannot harm its successor: right after a forced relogin, and after any
   * later run in which the old connection does not log in again, closing it changes no
   * session, if it carried no other account when it was kicked. Right after the relogin that is
   * exactly the condition; at any later time, that it carries no registration.
   */
  lemma {:induction false} KickedCannotHarm(c: Cluster, s: Step, steps: seq<Step>)
    requires Inv(c) && Enabled(c, s) && ForcedRelogin(c, s)
    requires Inv(Next(c, s)) && Legal(Next(c, s), steps)
    ensures CloseHarmless(Next(c, s), s.server, Kicked(c, s)) <==> OneAccount(c, s)
    ensures Inv(Final(Next(c, s), steps)) && s.server < |Final(Next(c, s), steps).services|
    ensures OneAccount(c, s) && NeverLogsIn(steps, s.server, Kicked(c, s)) ==>
              CloseHarmless(Final(Next(c, s), steps), s.server, Kicked(c, s))
    ensures CloseHarmless(Final(Next(c, s), steps), s.server, Kicked(c, s)) <==>
            !Carries(Final(Next(c, s), steps).services[s.server].conns, Kicked(c, s))
  {
    var d, kicked := Next(c, s), Kicked(c, s);
    DispatchSessions(s.server, At(c, s.server), s.conn, s.js, s.now);
    assert d.services[s.server].conns == c.services[s.server].conns[s.js.id.value := s.conn];
    assert Carries(d.services[s.server].conns, kicked) <==> !OneAccount(c, s) by {
      forall u | u in c.services[s.server].conns && u != s.js.id.value
        ensures u in d.services[s.server].conns && d.services[s.server].conns[u] == c.services[s.server].conns[u]
      {
      }
    }
    UnregisteredCloseHarmless(d, s.server, kicked);
    RunInvariant(d, steps);
    RunKeepsServers(d, steps);
    if OneAccount(c, s) && NeverLogsIn(steps, s.server, kicked) {
      StaysUnregistered(d, steps, s.server, kicked);
    }
    UnregisteredCloseHarmless(Final(d, steps), s.server, kicked);
  }
}
