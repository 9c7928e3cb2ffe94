/**
 * What login, logout and close do to the tables, who hears of it, and when the user table
 * tells the truth about who is registered somewhere in the cluster.
 */
module Presences {
  import opened Protocol
  import opened Routing
  import opened Delivery
  import opened Accounting
  import opened Sessions

  // ---------- the tables ----------

  lemma {:induction false} HereOrAway(here: bool, n: nat, k: nat)
    ensures (if here then n else 0) + (if here then 0 else n) * k == if here then n else n * k
  {
  }

  /** Every friend gets the notice as often as listed: at once if registered here, else through each subscribed server. */
  lemma {:induction false} NoticeCount(server: nat, sv: Service, b: Back, userid: int, online: bool, friend: int)
    ensures var js := Presence(userid, online);
            var x := Parcel(friend, js);
            Held(Notify(server, sv, b, userid, online), x) ==
            Held(b, x) + (var n := Count(Parcels(Listed(b.friends, userid), js), x);
                          if friend in sv.conns then n else n * Subscribers(b.subs, friend))
  {
    var ids, keys := Listed(b.friends, userid), sv.conns.Keys;
    var js := Presence(userid, online);
    var x := Parcel(friend, js);
    KeepInside(ids, keys);
    var sent := SendAll(b, server, sv.conns, Keep(ids, keys), js);
    SendAllFrame(b, server, sv.conns, Keep(ids, keys), js);
    HeldSendAll(b, server, sv.conns, Keep(ids, keys), js, x);
    HeldPublishAll(sent, Drop(ids, keys), js, x);
    KeepCount(ids, keys, js, x);
    HereOrAway(friend in sv.conns, Count(Parcels(ids, js), x), Subscribers(b.subs, friend));
  }

  /**
   * An accepted login sets the row online, shuts down the connection the user had on this server if the
   * table called the user online, replies with all the offline mail and leaves none of it in the table.
   */
  lemma {:induction false} LoginOutcome(server: nat, l: Local, conn: Conn, js: Json)
    requires server < |l.back.subs| && LoginAccepted(l.back, js)
    ensures var id, b, r := js.id.value, l.back, Login(server, l, conn, js).back;
            && r.users == SetState(b, id, true).users
            && r.shut == b.shut + (if QueryUser(b, id).online && id in l.sv.conns then {(server, l.sv.conns[id])} else {})
            && r.offline == OfflineWithout(b.offline, id) && (forall p :: p in r.offline ==> p.user != id)
            && b.out + [Sent(server, conn, id, LoginAck(0, OfflineOf(b.offline, id)))] <= r.out
  {
    var id := js.id.value;
    var sv := l.sv.(conns := l.sv.conns[id := conn]);
    Drained(l.back.offline, id);
    LoginIsFinish(server, l, conn, js);
    AdmitFrame(server, l, id);
    FinishLoginFrame(server, Local(sv, Admit(server, l, id)), conn, id);
  }

  lemma {:induction false} GoOfflineUsers(server: nat, l: Local, id: int)
    ensures GoOffline(server, l, id).back.users == SetState(l.back, id, false).users
  {
    NotifyFrame(server, l.sv, SetState(l.back, id, false), id, false);
  }

  /** Only login and logout change the user table: one state, of the account named in the body. */
  lemma {:induction false} DispatchUsers(server: nat, l: Local, conn: Conn, js: Json, now: int)
    requires server < |l.back.subs|
    ensures Dispatch(server, l, conn, js, now).back.users ==
            if js.msgid == Some(LOGIN_MSG) && LoginAccepted(l.back, js) then SetState(l.back, js.id.value, true).users
            else if js.msgid == Some(LOGINOUT_MSG) && js.id.Some? then SetState(l.back, js.id.value, false).users
            else l.back.users
  {
    var t := Touch(l, conn, now);
    if js.msgid == Some(LOGIN_MSG) {
      if LoginAccepted(l.back, js) {
        LoginOutcome(server, t, conn, js);
      }
    } else if js.msgid == Some(LOGINOUT_MSG) && js.id.Some? {
      var id := js.id.value;
      var sv := t.sv.(conns := t.sv.conns - {id}, lastTime := t.sv.lastTime - {conn});
      GoOfflineUsers(server, Local(sv, Unsubscribe(t.back, server, id)), id);
    } else if js.msgid == Some(GROUP_CHAT_MSG) {
      GroupChatFrame(server, t, js);
    }
  }

  lemma {:induction false} CloseUsers(server: nat, l: Local, conn: Conn, victim: Option<int>)
    requires server < |l.back.subs|
    ensures Close(server, l, conn, victim).back.users ==
            if victim.Some? && victim.value != -1 then SetState(l.back, victim.value, false).users else l.back.users
  {
    if victim.Some? && victim.value != -1 {
      var sv := l.sv.(conns := l.sv.conns - {victim.value}, lastTime := l.sv.lastTime - {conn});
      GoOfflineUsers(server, Local(sv, Unsubscribe(l.back, server, victim.value)), victim.value);
    }
  }

  // ---------- does the table tell the truth? ----------

  predicate Online(b: Back, user: int) {
    user in b.users && b.users[user].online
  }

  predicate Somewhere(c: Cluster, user: int) {
    exists i :: 0 <= i < |c.services| && user in c.services[i].conns
  }

  predicate Elsewhere(c: Cluster, server: nat, user: int) {
    exists i :: 0 <= i < |c.services| && i != server && user in c.services[i].conns
  }

  /** The table calls a user online exactly when some server has the user registered. */
  ghost predicate Truthful(c: Cluster) {
    forall u :: u != -1 ==> (Online(c.back, u) <==> Somewhere(c, u))
  }

  /** The account a step signs off at one server, if any. */
  function SignedOff(s: Step): Option<int> {
    match s
    case Receive(_, _, js, _) => if js.msgid == Some(LOGINOUT_MSG) then js.id else None
    case Hangup(_, _, victim) => victim
    case _ => None
  }

  /** A logout or a close of an account that another server still has registered. */
  predicate LeavesElsewhere(c: Cluster, s: Step) {
    && (s.Receive? || s.Hangup?)
    && SignedOff(s).Some? && SignedOff(s).value != -1
    && Elsewhere(c, s.server, SignedOff(s).value)
  }

  lemma {:induction false} SomewhereSame(c: Cluster, d: Cluster, u: int)
    requires |c.services| == |d.services|
    requires forall i :: 0 <= i < |c.services| ==> (u in d.services[i].conns <==> u in c.services[i].conns)
    ensures Somewhere(d, u) <==> Somewhere(c, u)
  {
  }

  lemma {:induction false} SomewhereSigned(c: Cluster, d: Cluster, server: nat, u: int)
    requires server < |c.services| == |d.services| && u !in d.services[server].conns
    requires forall i :: 0 <= i < |c.services| && i != server ==> d.services[i].conns == c.services[i].conns
    ensures Somewhere(d, u) <==> Elsewhere(c, server, u)
  {
    if i :| 0 <= i < |c.services| && i != server && u in c.services[i].conns {
      assert u in d.services[i].conns;
    }
  }

  /** What registering or signing off an account at one server, with its row, does to the truth. */
  lemma {:induction false} TruthChanged(c: Cluster, d: Cluster, server: nat, id: int, on: bool)
    requires Truthful(c) && server < |c.services| == |d.services|
    requires forall i :: 0 <= i < |c.services| && i != server ==> d.services[i].conns == c.services[i].conns
    requires forall u :: u in d.services[server].conns <==> if u == id then on else u in c.services[server].conns
    requires d.back.users == SetState(c.back, id, on).users && (on ==> id in c.back.users || id == -1)
    ensures Truthful(d) <==> on || id == -1 || !Elsewhere(c, server, id)
  {
    forall u | u != -1 && u != id ensures Online(d.back, u) <==> Somewhere(d, u) {
      assert Online(c.back, u) <==> Somewhere(c, u);
      SomewhereSame(c, d, u);
    }
    if on {
      assert id in d.services[server].conns;
    } else {
      assert !Online(d.back, id);
      SomewhereSigned(c, d, server, id);
    }
  }

  lemma {:induction false} TruthSame(c: Cluster, d: Cluster)
    requires Truthful(c) && |c.services| == |d.services|
    requires forall i :: 0 <= i < |c.services| ==> d.services[i].conns == c.services[i].conns
    requires forall u :: Online(d.back, u) <==> Online(c.back, u)
    ensures Truthful(d)
  {
    forall u | u != -1 ensures Online(d.back, u) <==> Somewhere(d, u) {
      assert Online(c.back, u) <==> Somewhere(c, u);
      SomewhereSame(c, d, u);
    }
  }

  lemma {:induction false} ReceiveTruth(c: Cluster, s: Step)
    requires Inv(c) && Enabled(c, s) && Truthful(c) && s.Receive?
    ensures Truthful(Next(c, s)) <==> !LeavesElsewhere(c, s)
  {
    var server, js, l := s.server, s.js, At(c, s.server);
    DispatchSessions(server, l, s.conn, js, s.now);
    DispatchUsers(server, l, s.conn, js, s.now);
    if js.msgid == Some(LOGIN_MSG) && LoginAccepted(l.back, js) {
      TruthChanged(c, Next(c, s), server, js.id.value, true);
    } else if js.msgid == Some(LOGINOUT_MSG) && js.id.Some? {
      TruthChanged(c, Next(c, s), server, js.id.value, false);
    } else {
      TruthSame(c, Next(c, s));
    }
  }

  /** Account -1 does not matter. */
  lemma {:induction false} UnknownSignsOff(c: Cluster, d: Cluster, server: nat)
    requires Truthful(c) && server < |c.services| == |d.services| && d.back.users == c.back.users
    requires forall i :: 0 <= i < |c.services| && i != server ==> d.services[i].conns == c.services[i].conns
    requires d.services[server].conns == c.services[server].conns - {-1}
    ensures Truthful(d)
  {
    forall u | u != -1 ensures Online(d.back, u) <==> Somewhere(d, u) {
      assert Online(c.back, u) <==> Somewhere(c, u);
      SomewhereSame(c, d, u);
    }
  }

  lemma {:induction false} HangupTruth(c: Cluster, s: Step)
    requires Inv(c) && Enabled(c, s) && Truthful(c) && s.Hangup?
    ensures Truthful(Next(c, s)) <==> !LeavesElsewhere(c, s)
  {
    var server, l := s.server, At(c, s.server);
    CloseSessions(server, l, s.conn, s.victim);
    CloseUsers(server, l, s.conn, s.victim);
    if s.victim.Some? && s.victim.value != -1 {
      TruthChanged(c, Next(c, s), server, s.victim.value, false);
    } else if s.victim.Some? {
      UnknownSignsOff(c, Next(c, s), server);
    } else {
      TruthSame(c, Next(c, s));
    }
  }

  lemma {:induction false} DeliverTruth(c: Cluster, at: nat)
    requires Inv(c) && Enabled(c, Deliver(at)) && Truthful(c)
    ensures Truthful(Next(c, Deliver(at)))
  {
    assert FlightOk(c.back, c.back.inflight[at]);
    TruthSame(c, Next(c, Deliver(at)));
  }

  lemma {:induction false} AdminTruth(c: Cluster, s: Step)
    requires Inv(c) && Enabled(c, s) && Truthful(c) && s.Admin?
    ensures Truthful(Next(c, s))
  {
    forall u ensures Online(Next(c, s).back, u) <==> Online(c.back, u) {
      assert u in s.joined ==> u !in c.back.users;
    }
    TruthSame(c, Next(c, s));
  }

  /** The table stays truthful through any step, except exactly when an account signs off here and is registered elsewhere. */
  lemma {:induction false} TruthStep(c: Cluster, s: Step)
    requires Inv(c) && Enabled(c, s) && Truthful(c)
    ensures Truthful(Next(c, s)) <==> !LeavesElsewhere(c, s)
  {
    match s
    case Receive(_, _, _, _) => ReceiveTruth(c, s);
    case Hangup(_, _, _) => HangupTruth(c, s);
    case Deliver(at) => DeliverTruth(c, at);
    case Tick(_, _) => TruthSame(c, Next(c, s));
    case Admin(_, _, _) => AdminTruth(c, s);
  }

  /** No step of the run signs an account off on one server while another has it registered. */
  ghost predicate LeavesWhole(c: Cluster, steps: seq<Step>)
    requires Inv(c) && Legal(c, steps)
    decreases |steps|
  {
    |steps| == 0 || (InvStep(c, steps[0]); !LeavesElsewhere(c, steps[0]) && LeavesWhole(Next(c, steps[0]), steps[1..]))
  }

  /** Over such runs, in every state, a user is online in the table if and only if registered somewhere. */
  lemma {:induction false} TruthRun(c: Cluster, steps: seq<Step>)
    requires Inv(c) && Legal(c, steps) && Truthful(c) && LeavesWhole(c, steps)
    ensures Truthful(Final(c, steps))
    decreases |steps|
  {
    if |steps| > 0 {
      InvStep(c, steps[0]);
      TruthStep(c, steps[0]);
      TruthRun(Next(c, steps[0]), steps[1..]);
    }
  }
}
