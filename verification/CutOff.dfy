/**
 * The server's cut-off over cluster runs: which steps shut a connection down, what becomes of one that
 * falls silent while everything else goes on, and why a calm client is never shut for silence.
 */
module CutOff {
  import opened Protocol
  import opened Routing
  import opened Delivery
  import opened Accounting
  import Beat = KeepAlive

  // ---------- who is shut down, and whose time is kept ----------

  /** The step is a login that kicks this connection of the server. */
  predicate Kicks(c: Cluster, s: Step, server: nat, conn: Conn)
    requires Enabled(c, s)
  {
    && s.Receive? && s.server == server && s.js.msgid == Some(LOGIN_MSG) && LoginAccepted(c.back, s.js)
    && QueryUser(c.back, s.js.id.value).online
    && s.js.id.value in c.services[server].conns && c.services[server].conns[s.js.id.value] == conn
  }

  /** The step is a heartbeat check that finds this connection of the server stale. */
  predicate CutsOff(c: Cluster, s: Step, server: nat, conn: Conn)
    requires Enabled(c, s)
  {
    s.Tick? && s.server == server && conn in Stale(c.services[server].lastTime, s.now)
  }

  lemma {:induction false} DispatchShut(server: nat, l: Local, conn: Conn, js: Json, now: int)
    requires server < |l.back.subs|
    ensures Dispatch(server, l, conn, js, now).back.shut ==
            if js.msgid == Some(LOGIN_MSG) && LoginAccepted(l.back, js) then Admit(server, l, js.id.value).shut
            else l.back.shut
  {
    var t := Touch(l, conn, now);
    if js.msgid == Some(LOGIN_MSG) {
      if LoginAccepted(l.back, js) {
        var id := js.id.value;
        LoginIsFinish(server, t, conn, js);
        FinishLoginFrame(server, Local(t.sv.(conns := t.sv.conns[id := conn]), Admit(server, t, id)), conn, id);
      }
    } else if js.msgid == Some(LOGINOUT_MSG) && js.id.Some? {
      var id := js.id.value;
      NotifyFrame(server, Logout(server, t, conn, js).sv, SetState(Unsubscribe(t.back, server, id), id, false), id, false);
    } else if js.msgid == Some(GROUP_CHAT_MSG) {
      GroupChatFrame(server, t, js);
    }
  }

  lemma {:induction false} CloseShut(server: nat, l: Local, conn: Conn, victim: Option<int>)
    requires server < |l.back.subs|
    ensures Close(server, l, conn, victim).back.shut == l.back.shut
  {
    if victim.Some? && victim.value != -1 {
      NotifyFrame(server, Close(server, l, conn, victim).sv,
                  SetState(Unsubscribe(l.back, server, victim.value), victim.value, false), victim.value, false);
    }
  }

  /** A connection is shut down by a login that kicks it or a check that finds it stale, and stays shut. */
  lemma {:induction false} StepShut(c: Cluster, s: Step, server: nat, conn: Conn)
    requires Inv(c) && Enabled(c, s)
    ensures (server, conn) in Next(c, s).back.shut <==>
            (server, conn) in c.back.shut || Kicks(c, s, server, conn) || CutsOff(c, s, server, conn)
  {
    match s
    case Receive(i, from, js, now) =>
      DispatchShut(i, At(c, i), from, js, now);
      if js.msgid == Some(LOGIN_MSG) && LoginAccepted(c.back, js) {
        AdmitFrame(i, At(c, i), js.id.value);
      }
    case Hangup(i, from, victim) => CloseShut(i, At(c, i), from, victim);
    case Deliver(at) => assert FlightOk(c.back, c.back.inflight[at]);
    case Tick(i, now) =>
    case Admin(_, _, _) =>
  }

  /** Any parsed body renews the time of its connection and of no other; a logout ends the tracking. */
  lemma {:induction false} BodyTracks(server: nat, l: Local, conn: Conn, js: Json, now: int)
    requires server < |l.back.subs|
    ensures Dispatch(server, l, conn, js, now).sv.lastTime ==
            if js.msgid == Some(LOGINOUT_MSG) && js.id.Some? then l.sv.lastTime - {conn} else l.sv.lastTime[conn := now]
  {
    var t := Touch(l, conn, now);
    if js.msgid == Some(LOGINOUT_MSG) && js.id.Some? {
      assert t.sv.lastTime - {conn} == l.sv.lastTime - {conn};
    }
  }

  /** A body from this connection, or its close. */
  predicate Concerns(s: Step, server: nat, conn: Conn) {
    (s.Receive? || s.Hangup?) && s.server == server && s.conn == conn
  }

  /** The connection is tracked with this time of its last message. */
  predicate Tracked(c: Cluster, server: nat, conn: Conn, last: int) {
    server < |c.services| && conn in c.services[server].lastTime && c.services[server].lastTime[conn] == last
  }

  /** Only its own bodies and its close change what is known of a connection. */
  lemma {:induction false} StepTracks(c: Cluster, s: Step, server: nat, conn: Conn, last: int)
    requires Inv(c) && Enabled(c, s) && Tracked(c, server, conn, last) && !Concerns(s, server, conn)
    ensures Tracked(Next(c, s), server, conn, last)
  {
    match s
    case Receive(i, from, js, now) => BodyTracks(i, At(c, i), from, js, now);
    case Hangup(i, from, victim) =>
    case Deliver(at) => assert FlightOk(c.back, c.back.inflight[at]);
    case Tick(i, now) =>
    case Admin(_, _, _) =>
  }

  // ---------- a connection that falls silent ----------

  predicate Silent(steps: seq<Step>, server: nat, conn: Conn) {
    forall k :: 0 <= k < |steps| ==> !Concerns(steps[k], server, conn)
  }

  /** A check of that server more than 30 seconds after the last message. */
  predicate IsLate(s: Step, server: nat, last: int) {
    s.Tick? && s.server == server && s.now > last + HEARTBEAT_LIMIT
  }

  predicate Late(steps: seq<Step>, server: nat, last: int) {
    exists k :: 0 <= k < |steps| && IsLate(steps[k], server, last)
  }

  /** Some step of the run is a login that kicks the connection. */
  ghost predicate KickedIn(c: Cluster, steps: seq<Step>, server: nat, conn: Conn)
    requires Inv(c) && Legal(c, steps)
    decreases |steps|
  {
    |steps| > 0 && (
      InvStep(c, steps[0]);
      Kicks(c, steps[0], server, conn) || KickedIn(Next(c, steps[0]), steps[1..], server, conn))
  }

  lemma {:induction false} LateFirst(steps: seq<Step>, server: nat, last: int)
    requires |steps| > 0
    ensures Late(steps, server, last) <==> IsLate(steps[0], server, last) || Late(steps[1..], server, last)
  {
    if k :| 0 <= k < |steps| && IsLate(steps[k], server, last) {
      assert k > 0 ==> steps[1..][k - 1] == steps[k];
    }
    if k :| 0 <= k < |steps[1..]| && IsLate(steps[1..][k], server, last) {
      assert steps[k + 1] == steps[1..][k];
    }
  }

  /**
   * Whatever the rest of the cluster does, a tracked connection that falls silent stays tracked with its last
   * time, and is shut down if and only if some check of its server comes more than 30 seconds later, or a login kicks it.
   */
  lemma {:induction false} SilentRun(c: Cluster, steps: seq<Step>, server: nat, conn: Conn, last: int)
    requires Inv(c) && Legal(c, steps) && Tracked(c, server, conn, last) && Silent(steps, server, conn)
    ensures Tracked(Final(c, steps), server, conn, last)
    ensures (server, conn) in Final(c, steps).back.shut <==>
            (server, conn) in c.back.shut || Late(steps, server, last) || KickedIn(c, steps, server, conn)
    decreases |steps|
  {
    if |steps| > 0 {
      var s := steps[0];
      InvStep(c, s);
      assert !Concerns(s, server, conn);
      StepTracks(c, s, server, conn, last);
      StepShut(c, s, server, conn);
      LateFirst(steps, server, last);
      SilentRun(Next(c, s), steps[1..], server, conn, last);
    }
  }

  /** The checks of one server come 15 seconds apart, the next one at a given time. */
  predicate Every15(steps: seq<Step>, server: nat, next: int) {
    |steps| == 0 ||
    (if steps[0].Tick? && steps[0].server == server
     then steps[0].now == next && Every15(steps[1..], server, next + Beat.TICK)
     else Every15(steps[1..], server, next))
  }

  /** The first late check comes 31 to 45 seconds after the last message. */
  lemma {:induction false} FirstLate(steps: seq<Step>, server: nat, next: int, last: int) returns (k: nat)
    requires Every15(steps, server, next) && next <= last + 45 && Late(steps, server, last)
    ensures k < |steps| && IsLate(steps[k], server, last) && last + 31 <= steps[k].now <= last + 45
    ensures !Late(steps[..k], server, last)
    decreases |steps|
  {
    if IsLate(steps[0], server, last) {
      k := 0;
    } else {
      LateFirst(steps, server, last);
      var later := FirstLate(steps[1..], server,
                             if steps[0].Tick? && steps[0].server == server then next + Beat.TICK else next, last);
      k := later + 1;
      LateFirst(steps[..k], server, last);
      assert steps[..k][1..] == steps[1..][..later];
    }
  }

  lemma {:induction false} LegalPrefix(c: Cluster, steps: seq<Step>, k: nat)
    requires Inv(c) && Legal(c, steps) && k <= |steps|
    ensures Legal(c, steps[..k])
    decreases k
  {
    if k > 0 {
      InvStep(c, steps[0]);
      LegalPrefix(Next(c, steps[0]), steps[1..], k - 1);
      assert steps[..k][1..] == steps[1..][..k - 1];
    }
  }

  /**
   * In any run that goes on long enough, with checks 15 seconds apart, a connection that falls silent is
   * shut down by a check 31 to 45 seconds after its last message, and until then only by a login that kicks it.
   */
  lemma {:induction false} SilentIsShut(c: Cluster, steps: seq<Step>, server: nat, conn: Conn, last: int, next: int)
    requires Inv(c) && Legal(c, steps) && Tracked(c, server, conn, last) && Silent(steps, server, conn)
    requires (server, conn) !in c.back.shut
    requires Every15(steps, server, next) && next <= last + 45 && Late(steps, server, last)
    ensures exists k ::
              && 0 <= k < |steps| && steps[k].Tick? && last + 31 <= steps[k].now <= last + 45
              && Legal(c, steps[..k]) && Legal(c, steps[..k + 1])
              && (server, conn) in Final(c, steps[..k + 1]).back.shut
              && ((server, conn) in Final(c, steps[..k]).back.shut <==> KickedIn(c, steps[..k], server, conn))
  {
    var k := FirstLate(steps, server, next, last);
    LegalPrefix(c, steps, k);
    LegalPrefix(c, steps, k + 1);
    SilentRun(c, steps[..k], server, conn, last);
    assert steps[..k + 1][k] == steps[k];
    SilentRun(c, steps[..k + 1], server, conn, last);
  }

  // ---------- a client and its server ----------

  /** What its own client does, with the body it sends if it sends one, or a step of the cluster that does not concern it. */
  datatype Act = Own(e: Beat.Event, js: Json) | Other(s: Step)

  datatype Joint = Joint(client: Beat.Client, cluster: Cluster)

  predicate Emits(k: Beat.Client, e: Beat.Event) {
    e.Send? || (e.Tick? && Beat.TickSends(k))
  }

  predicate IsLogout(js: Json) {
    js.msgid == Some(LOGINOUT_MSG)
  }

  predicate Able(j: Joint, a: Act, server: nat, conn: Conn) {
    server < |j.cluster.services| &&
    match a
    case Own(e, js) => Beat.Enabled(j.client, e) && !IsLogout(js)
    case Other(s) =>
      && Enabled(j.cluster, s) && !Concerns(s, server, conn)
      && (s.Tick? && s.server == server ==> j.client.now <= s.now <= j.client.next)
  }

  /** The step of the cluster in an act, if any: a body sent arrives in the same second. */
  function StepOf(j: Joint, a: Act, server: nat, conn: Conn): Option<Step> {
    match a
    case Own(e, js) => if Emits(j.client, e) then Some(Receive(server, conn, js, Beat.Time(j.client, e))) else None
    case Other(s) => Some(s)
  }

  function After(j: Joint, a: Act, server: nat, conn: Conn): Joint
    requires Inv(j.cluster) && Able(j, a, server, conn)
  {
    var k := match a
             case Own(e, _) => Beat.Next(j.client, e)
             case Other(s) => if s.Tick? && s.server == server then j.client.(now := s.now) else j.client;
    match StepOf(j, a, server, conn)
    case Some(s) => Joint(k, Next(j.cluster, s))
    case None => Joint(k, j.cluster)
  }

  /** The server knows when its client last sent something. */
  ghost predicate InStep(j: Joint, server: nat, conn: Conn) {
    Inv(j.cluster) && Tracked(j.cluster, server, conn, j.client.sent)
  }

  /** A login message answered within five seconds puts them in step. */
  lemma {:induction false} LoginInStep(c: Cluster, server: nat, conn: Conn, js: Json, asked: int, answered: int)
    requires Inv(c) && server < |c.services| && !IsLogout(js)
    requires asked <= answered <= asked + Beat.LOGIN_TIMEOUT
    ensures InStep(Joint(Beat.LoggedIn(asked, answered), Next(c, Receive(server, conn, js, asked))), server, conn)
    ensures Beat.Grid(Beat.LoggedIn(asked, answered))
  {
    InvStep(c, Receive(server, conn, js, asked));
    BodyTracks(server, At(c, server), conn, js, asked);
  }

  /** They stay in step, calm or not. */
  lemma {:induction false} ActKeeps(j: Joint, a: Act, server: nat, conn: Conn)
    requires InStep(j, server, conn) && Able(j, a, server, conn)
    ensures InStep(After(j, a, server, conn), server, conn)
  {
    match a
    case Own(e, js) =>
      if Emits(j.client, e) {
        var s := Receive(server, conn, js, Beat.Time(j.client, e));
        InvStep(j.cluster, s);
        BodyTracks(server, At(j.cluster, server), conn, js, Beat.Time(j.client, e));
      }
    case Other(s) =>
      InvStep(j.cluster, s);
      StepTracks(j.cluster, s, server, conn, j.client.sent);
  }

  ghost predicate Run(j: Joint, acts: seq<Act>, server: nat, conn: Conn, m: Joint)
    requires InStep(j, server, conn)
    decreases |acts|
  {
    if acts == [] then m == j
    else
      Able(j, acts[0], server, conn) &&
      (ActKeeps(j, acts[0], server, conn); Run(After(j, acts[0], server, conn), acts[1..], server, conn, m))
  }

  /** The act is a check of the server more than 30 seconds after the client last sent something. */
  predicate LateCheck(j: Joint, a: Act, server: nat) {
    a.Other? && IsLate(a.s, server, j.client.sent)
  }

  /** The act is a login that kicks the connection. */
  predicate KicksIt(j: Joint, a: Act, server: nat, conn: Conn)
    requires Able(j, a, server, conn)
  {
    var s := StepOf(j, a, server, conn);
    s.Some? && Kicks(j.cluster, s.value, server, conn)
  }

  /** Somewhere in the run a check comes too late for the client. */
  ghost predicate CheckedLate(j: Joint, acts: seq<Act>, server: nat, conn: Conn, m: Joint)
    requires InStep(j, server, conn) && Run(j, acts, server, conn, m)
    decreases |acts|
  {
    acts != [] && (
      LateCheck(j, acts[0], server) ||
      (ActKeeps(j, acts[0], server, conn); CheckedLate(After(j, acts[0], server, conn), acts[1..], server, conn, m)))
  }

  ghost predicate KickedOff(j: Joint, acts: seq<Act>, server: nat, conn: Conn, m: Joint)
    requires InStep(j, server, conn) && Run(j, acts, server, conn, m)
    decreases |acts|
  {
    acts != [] && (
      KicksIt(j, acts[0], server, conn) ||
      (ActKeeps(j, acts[0], server, conn); KickedOff(After(j, acts[0], server, conn), acts[1..], server, conn, m)))
  }

  lemma {:induction false} ActShut(j: Joint, a: Act, server: nat, conn: Conn)
    requires InStep(j, server, conn) && Able(j, a, server, conn)
    ensures (server, conn) in After(j, a, server, conn).cluster.back.shut <==>
            (server, conn) in j.cluster.back.shut || LateCheck(j, a, server) || KicksIt(j, a, server, conn)
  {
    var s := StepOf(j, a, server, conn);
    if s.Some? {
      StepShut(j.cluster, s.value, server, conn);
    }
  }

  /**
   * However the cluster, its checks and the client interleave: the server knows the time of the client's last send,
   * and the connection is shut down if and only if some check comes more than 30 seconds after it, or a login kicks it.
   */
  lemma {:induction false} JointRun(j: Joint, acts: seq<Act>, server: nat, conn: Conn, m: Joint)
    requires InStep(j, server, conn) && Run(j, acts, server, conn, m)
    ensures InStep(m, server, conn)
    ensures (server, conn) in m.cluster.back.shut <==>
            || (server, conn) in j.cluster.back.shut
            || CheckedLate(j, acts, server, conn, m) || KickedOff(j, acts, server, conn, m)
    decreases |acts|
  {
    if acts != [] {
      ActKeeps(j, acts[0], server, conn);
      ActShut(j, acts[0], server, conn);
      JointRun(After(j, acts[0], server, conn), acts[1..], server, conn, m);
    }
  }

  // ---------- a client that keeps calm ----------

  /** Nothing is received between the first and the second tick after a send. */
  ghost predicate Calm(j: Joint, acts: seq<Act>, server: nat, conn: Conn, m: Joint)
    requires InStep(j, server, conn) && Run(j, acts, server, conn, m)
    decreases |acts|
  {
    acts == [] || (
      && (acts[0].Own? ==> Beat.CalmAt(j.client, acts[0].e))
      && (ActKeeps(j, acts[0], server, conn); Calm(After(j, acts[0], server, conn), acts[1..], server, conn, m)))
  }

  lemma {:induction false} CalmAct(j: Joint, a: Act, server: nat, conn: Conn)
    requires InStep(j, server, conn) && Able(j, a, server, conn) && Beat.Grid(j.client)
    requires a.Own? ==> Beat.CalmAt(j.client, a.e)
    ensures Beat.Grid(After(j, a, server, conn).client) && !LateCheck(j, a, server)
  {
    if a.Own? {
      Beat.CalmStep(j.client, a.e);
    }
  }

  /** No check ever comes too late for a calm client, so only a kick can shut it, and it is not stale before its next tick. */
  lemma {:induction false} NeverCutOff(j: Joint, acts: seq<Act>, server: nat, conn: Conn, m: Joint)
    requires InStep(j, server, conn) && Beat.Grid(j.client) && Run(j, acts, server, conn, m) && Calm(j, acts, server, conn, m)
    ensures InStep(m, server, conn) && Beat.Grid(m.client) && !CheckedLate(j, acts, server, conn, m)
    ensures (server, conn) in m.cluster.back.shut <==>
            (server, conn) in j.cluster.back.shut || KickedOff(j, acts, server, conn, m)
    ensures forall now :: now <= m.client.next ==> conn !in Stale(m.cluster.services[server].lastTime, now)
    decreases |acts|
  {
    if acts != [] {
      ActKeeps(j, acts[0], server, conn);
      CalmAct(j, acts[0], server, conn);
      NeverCutOff(After(j, acts[0], server, conn), acts[1..], server, conn, m);
    }
    JointRun(j, acts, server, conn, m);
  }

  /** One more act in front of a run. */
  lemma {:induction false} Before(j: Joint, a: Act, rest: seq<Act>, server: nat, conn: Conn, m: Joint) returns (acts: seq<Act>)
    requires InStep(j, server, conn) && Able(j, a, server, conn) && InStep(After(j, a, server, conn), server, conn)
    requires Run(After(j, a, server, conn), rest, server, conn, m)
    ensures acts == [a] + rest && Run(j, acts, server, conn, m)
  {
    acts := [a] + rest;
    assert acts[1..] == rest;
  }

  lemma {:induction false} Step1(j: Joint, a: Act, server: nat, conn: Conn) returns (next: Joint)
    requires InStep(j, server, conn) && Able(j, a, server, conn)
    ensures next == After(j, a, server, conn) && InStep(next, server, conn)
    ensures a.Own? ==> next.client == Beat.Next(j.client, a.e)
  {
    ActKeeps(j, a, server, conn);
    next := After(j, a, server, conn);
  }

  /** What the client of KeepAlive.TrafficSilences has done up to its last tick, at second 45. */
  lemma {:induction false} SilentClient(j0: Joint, js: Json, server: nat, conn: Conn)
    returns (acts: seq<Act>, j5: Joint)
    requires InStep(j0, server, conn) && j0.client == Beat.LoggedIn(0, 0) && !IsLogout(js)
    ensures acts == [Own(Beat.Tick, js), Own(Beat.Receive(16), js), Own(Beat.Tick, js), Own(Beat.Receive(31), js), Own(Beat.Tick, js)]
    ensures Run(j0, acts, server, conn, j5) && InStep(j5, server, conn)
    ensures j5.client.sent == 15 && j5.client.now == 45 && j5.client.next == 60
  {
    var tick := Own(Beat.Tick, js);
    var j1 := Step1(j0, tick, server, conn);
    var j2 := Step1(j1, Own(Beat.Receive(16), js), server, conn);
    var j3 := Step1(j2, tick, server, conn);
    var j4 := Step1(j3, Own(Beat.Receive(31), js), server, conn);
    j5 := Step1(j4, tick, server, conn);
    var r4 := Before(j4, tick, [], server, conn, j5);
    var r3 := Before(j3, Own(Beat.Receive(31), js), r4, server, conn, j5);
    var r2 := Before(j2, tick, r3, server, conn, j5);
    var r1 := Before(j1, Own(Beat.Receive(16), js), r2, server, conn, j5);
    acts := Before(j0, tick, r1, server, conn, j5);
  }

  lemma {:induction false} RunOn(j: Joint, acts: seq<Act>, server: nat, conn: Conn, k: Joint, more: seq<Act>, m: Joint)
    requires InStep(j, server, conn) && Run(j, acts, server, conn, k)
    requires InStep(k, server, conn) && Run(k, more, server, conn, m)
    ensures Run(j, acts + more, server, conn, m)
    decreases |acts|
  {
    if acts == [] {
      assert acts + more == more;
    } else {
      ActKeeps(j, acts[0], server, conn);
      RunOn(After(j, acts[0], server, conn), acts[1..], server, conn, k, more, m);
      assert (acts + more)[1..] == acts[1..] + more;
    }
  }

  /**
   * From its login on, in any cluster, a live client that only receives is cut off by a check at second 46:
   * a run that is not calm and ends in the shutdown.
   */
  lemma {:induction false} TrafficCutsOff(c: Cluster, server: nat, conn: Conn, js: Json)
    requires Inv(c) && server < |c.services| && !IsLogout(js)
    ensures var j0 := Joint(Beat.LoggedIn(0, 0), Next(c, Receive(server, conn, js, 0)));
            InStep(j0, server, conn) &&
            exists acts, m :: Run(j0, acts, server, conn, m) && (server, conn) in m.cluster.back.shut
  {
    LoginInStep(c, server, conn, js, 0, 0);
    var j0 := Joint(Beat.LoggedIn(0, 0), Next(c, Receive(server, conn, js, 0)));
    var acts, j5 := SilentClient(j0, js, server, conn);
    var check := Other(Tick(server, 46));
    var m := Step1(j5, check, server, conn);
    ActShut(j5, check, server, conn);
    var last := Before(j5, check, [], server, conn, m);
    RunOn(j0, acts, server, conn, j5, last, m);
  }
}
