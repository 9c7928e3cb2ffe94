/** Reachable runs from a fresh cluster in which the properties stated with a condition do fail. */
module Witnesses {
  import opened Protocol
  import opened Routing
  import opened Delivery
  import opened Accounting
  import opened Sessions
  import opened Presences
  import opened Connections
  import CutOff

  /** n servers, two accounts, nobody online. */
  function Fresh(n: nat): Cluster {
    Cluster(seq(n, _ => Service(map[], map[])),
            Back(map[1 := Row("p", false), 2 := Row("p", false)], [], map[], map[], seq(n, _ => {}), [], [], {}))
  }

  function LoginAs(id: int): Json {
    Json(Some(LOGIN_MSG), Some(id), None, None, Some("p"), None, None, "")
  }

  function LogoutAs(id: int): Json {
    Json(Some(LOGINOUT_MSG), Some(id), None, None, None, None, None, "")
  }

  function ChatTo(from: int, toid: int): Json {
    Json(Some(ONE_CHAT_MSG), Some(from), Some(toid), None, None, None, None, "hi")
  }

  lemma {:induction false} FreshInv(n: nat)
    ensures Inv(Fresh(n))
  {
    FreshClusterInv(n, map[1 := Row("p", false), 2 := Row("p", false)], map[], map[], []);
  }

  /** One more step in front of a run. */
  lemma {:induction false} InFront(c: Cluster, s: Step, rest: seq<Step>) returns (steps: seq<Step>)
    requires Inv(c) && Enabled(c, s) && Inv(Next(c, s)) && Legal(Next(c, s), rest)
    ensures steps == [s] + rest && Legal(c, steps) && Final(c, steps) == Final(Next(c, s), rest)
    ensures forall x: Parcel :: TotalAccepted(c, steps, x) == Count(AcceptedBy(c, s), x) + TotalAccepted(Next(c, s), rest, x)
  {
    steps := [s] + rest;
    assert steps[1..] == rest;
  }

  /** What a login of an existing account does to registrations, channels and rows. */
  lemma {:induction false} LoggedIn(c: Cluster, server: nat, conn: Conn, id: int)
    requires Inv(c) && server < |c.services| && id in c.back.users && c.back.users[id].pwd == "p"
    ensures var s := Receive(server, conn, LoginAs(id), 0);
            Enabled(c, s) && Inv(Next(c, s)) &&
            var d := Next(c, s);
            && |d.services| == |c.services| && |d.back.subs| == |c.back.subs|
            && d.services[server].conns == c.services[server].conns[id := conn]
            && d.back.subs == c.back.subs[server := c.back.subs[server] + {id}]
            && (forall i :: 0 <= i < |c.services| && i != server ==> d.services[i] == c.services[i])
            && d.back.users == c.back.users[id := Row("p", true)]
    ensures forall x: Parcel :: Count(AcceptedBy(c, Receive(server, conn, LoginAs(id), 0)), x) == 0
    ensures forall x: Parcel :: IsChat(x.msg) && x.user != -1 ==>
              Held(Next(c, Receive(server, conn, LoginAs(id), 0)).back, x) == Held(c.back, x)
  {
    var s := Receive(server, conn, LoginAs(id), 0);
    assert QueryUser(c.back, id).id == id && LoginAccepted(c.back, LoginAs(id));
    InvStep(c, s);
    DispatchSessions(server, At(c, server), conn, LoginAs(id), 0);
    DispatchUsers(server, At(c, server), conn, LoginAs(id), 0);
    forall x: Parcel | IsChat(x.msg) && x.user != -1 ensures Held(Next(c, s).back, x) == Held(c.back, x) {
      StepAccounting(c, s, x);
    }
  }

  // ---------- one account on two servers ----------

  predicate Subscribed(subs: seq<set<int>>) {
    |subs| == 3 && 1 in subs[0] && 1 in subs[1] && 1 !in subs[2]
  }

  /** Three servers, account 1 registered on servers 0 and 1, no message anywhere. */
  ghost predicate OnTwo(c: Cluster) {
    && Inv(c) && |c.services| == 3 && Subscribed(c.back.subs)
    && 1 in c.services[0].conns && 1 in c.services[1].conns && 1 !in c.services[2].conns
    && c.back.users == map[1 := Row("p", true), 2 := Row("p", false)]
    && forall x: Parcel :: IsChat(x.msg) && x.user != -1 ==> Held(c.back, x) == 0
  }

  /** One more server on which account 1 logs in. */
  lemma {:induction false} LogsInToo(c: Cluster, server: nat, conn: Conn)
    requires Inv(c) && server < |c.services| && 1 in c.back.users && c.back.users[1].pwd == "p"
    ensures var s := Receive(server, conn, LoginAs(1), 0);
            Enabled(c, s) && Inv(Next(c, s)) &&
            var d := Next(c, s);
            && |d.services| == |c.services| && |d.back.subs| == |c.back.subs| && 1 in d.services[server].conns
            && (forall i :: 0 <= i < |c.back.subs| ==> (1 in d.back.subs[i] <==> i == server || 1 in c.back.subs[i]))
            && (forall i :: 0 <= i < |c.services| && i != server ==> d.services[i] == c.services[i])
            && d.back.users == c.back.users[1 := Row("p", true)]
            && (forall x: Parcel :: IsChat(x.msg) && x.user != -1 ==> Held(d.back, x) == Held(c.back, x))
            && forall x: Parcel :: Count(AcceptedBy(c, s), x) == 0
  {
    LoggedIn(c, server, conn, 1);
  }

  lemma {:induction false} FreshHolds(n: nat)
    ensures forall x: Parcel :: Held(Fresh(n).back, x) == 0
  {
  }

  /** Such a cluster is reached from the fresh one, and so is what any further step makes of it. */
  lemma {:induction false} ReachTwo() returns (c: Cluster, c1: Cluster, first: Step, second: Step)
    ensures OnTwo(c) && Inv(Fresh(3)) && Enabled(Fresh(3), first) && c1 == Next(Fresh(3), first) && Inv(c1)
    ensures Enabled(c1, second) && c == Next(c1, second)
    ensures forall x: Parcel :: Count(AcceptedBy(Fresh(3), first), x) == 0 && Count(AcceptedBy(c1, second), x) == 0
  {
    FreshInv(3);
    FreshHolds(3);
    first, second := Receive(0, 10, LoginAs(1), 0), Receive(1, 11, LoginAs(1), 0);
    LogsInToo(Fresh(3), 0, 10);
    c1 := Next(Fresh(3), first);
    LogsInToo(c1, 1, 11);
    c := Next(c1, second);
  }

  /** A run from the fresh cluster that ends with this step after account 1 logged in on two servers. */
  lemma {:induction false} RunTo(c: Cluster, c1: Cluster, first: Step, second: Step, s: Step) returns (steps: seq<Step>)
    requires Inv(Fresh(3)) && Enabled(Fresh(3), first) && c1 == Next(Fresh(3), first) && Inv(c1)
    requires Enabled(c1, second) && c == Next(c1, second) && Inv(c) && Enabled(c, s) && Inv(Next(c, s))
    requires forall x: Parcel :: Count(AcceptedBy(Fresh(3), first), x) == 0 && Count(AcceptedBy(c1, second), x) == 0
    ensures Legal(Fresh(3), steps) && Final(Fresh(3), steps) == Next(c, s)
    ensures forall x: Parcel :: TotalAccepted(Fresh(3), steps, x) == Count(AcceptedBy(c, s), x)
  {
    var r2 := InFront(c, s, []);
    var r1 := InFront(c1, second, r2);
    steps := InFront(Fresh(3), first, r1);
  }

  lemma {:induction false} TwoSubscribers(subs: seq<set<int>>)
    requires Subscribed(subs)
    ensures Subscribers(subs, 1) == 2
  {
    assert subs[..2][..1] == subs[..1] && subs[..1][..0] == [];
    assert Subscribers(subs[..1], 1) == 1;
    assert Subscribers(subs[..2], 1) == 2;
  }

  lemma {:induction false} SendTwice(c: Cluster)
    requires OnTwo(c)
    ensures var s, x := Receive(2, 12, ChatTo(2, 1), 0), Parcel(1, ChatTo(2, 1));
            Enabled(c, s) && Inv(Next(c, s)) && Held(Next(c, s).back, x) == 2 && Count(AcceptedBy(c, s), x) == 1
  {
    var x, s := Parcel(1, ChatTo(2, 1)), Receive(2, 12, ChatTo(2, 1), 0);
    InvStep(c, s);
    StepAccounting(c, s, x);
    TwoSubscribers(c.back.subs);
    assert 1 in OnlineUsers(c.back) && Copies(2, c, 1) == 2;
    CountOne(x, x);
    assert AcceptedBy(c, s) == [x];
  }

  /** A message from server 2 to a user on servers 0 and 1 is accepted once and held twice. */
  lemma {:induction false} HeldTwice()
    ensures var x := Parcel(1, ChatTo(2, 1));
            exists steps :: Inv(Fresh(3)) && Legal(Fresh(3), steps) && TotalAccepted(Fresh(3), steps, x) == 1
                            && Held(Final(Fresh(3), steps).back, x) == 2
  {
    var c, c1, first, second := ReachTwo();
    SendTwice(c);
    var steps := RunTo(c, c1, first, second, Receive(2, 12, ChatTo(2, 1), 0));
  }

  lemma {:induction false} LogsOutHere(c: Cluster)
    requires OnTwo(c)
    ensures var s := Receive(0, 10, LogoutAs(1), 0);
            Enabled(c, s) && Inv(Next(c, s)) && !Online(Next(c, s).back, 1) && Somewhere(Next(c, s), 1)
  {
    var s := Receive(0, 10, LogoutAs(1), 0);
    InvStep(c, s);
    DispatchSessions(0, At(c, 0), 10, LogoutAs(1), 0);
    DispatchUsers(0, At(c, 0), 10, LogoutAs(1), 0);
    assert 1 in Next(c, s).services[1].conns;
  }

  /** That user logs out on server 0: the table says offline, server 1 still has the registration. */
  lemma {:induction false} OfflineYetRegistered()
    ensures exists steps :: Inv(Fresh(3)) && Legal(Fresh(3), steps)
                            && !Online(Final(Fresh(3), steps).back, 1) && Somewhere(Final(Fresh(3), steps), 1)
  {
    var c, c1, first, second := ReachTwo();
    LogsOutHere(c);
    var steps := RunTo(c, c1, first, second, Receive(0, 10, LogoutAs(1), 0));
  }

  // ---------- one connection with two accounts ----------

  /** Accounts 1 and 2 on connection 7 of the only server. */
  lemma {:induction false} BothOnSeven() returns (c: Cluster, c1: Cluster, first: Step, second: Step)
    ensures first == Receive(0, 7, LoginAs(1), 0) && second == Receive(0, 7, LoginAs(2), 0)
    ensures Inv(Fresh(1)) && Enabled(Fresh(1), first) && c1 == Next(Fresh(1), first) && Inv(c1)
    ensures Enabled(c1, second) && c == Next(c1, second) && Inv(c)
    ensures |c.services| == 1 && c.services[0].conns == map[1 := 7, 2 := 7]
    ensures c.back.users == map[1 := Row("p", true), 2 := Row("p", true)]
  {
    FreshInv(1);
    first, second := Receive(0, 7, LoginAs(1), 0), Receive(0, 7, LoginAs(2), 0);
    LoggedIn(Fresh(1), 0, 7, 1);
    c1 := Next(Fresh(1), first);
    LoggedIn(c1, 0, 7, 2);
    c := Next(c1, second);
  }

  lemma {:induction false} KicksSeven(c: Cluster)
    requires Inv(c) && |c.services| == 1 && c.services[0].conns == map[1 := 7, 2 := 7]
    requires c.back.users == map[1 := Row("p", true), 2 := Row("p", true)]
    ensures var s := Receive(0, 8, LoginAs(1), 0);
            && Enabled(c, s) && ForcedRelogin(c, s) && Kicked(c, s) == 7
            && Inv(Next(c, s)) && 0 < |Next(c, s).services| && !CloseHarmless(Next(c, s), 0, 7)
  {
    var s := Receive(0, 8, LoginAs(1), 0);
    LoggedIn(c, 0, 8, 1);
    assert QueryUser(c.back, 1).id == 1 && ForcedRelogin(c, s) && Kicked(c, s) == 7;
    assert 2 in c.services[0].conns && !OneAccount(c, s);
    KickedCannotHarm(c, s, []);
  }

  /** Account 1 logs in again on connection 8: the close of the kicked connection 7 signs account 2 off. */
  lemma {:induction false} KickedHarms()
    ensures exists steps :: Inv(Fresh(1)) && Legal(Fresh(1), steps) && Inv(Final(Fresh(1), steps)) &&
              var c, s := Final(Fresh(1), steps), Receive(0, 8, LoginAs(1), 0);
              && Enabled(c, s) && ForcedRelogin(c, s) && Kicked(c, s) == 7
              && Inv(Next(c, s)) && 0 < |Next(c, s).services| && !CloseHarmless(Next(c, s), 0, 7)
  {
    var c, c1, first, second := BothOnSeven();
    KicksSeven(c);
    var r1 := InFront(c1, second, []);
    var r0 := InFront(Fresh(1), first, r1);
  }

  lemma {:induction false} LeavesOne(c: Cluster)
    requires Inv(c) && |c.services| == 1 && c.services[0].conns == map[1 := 7, 2 := 7]
    ensures var n, s := Net(c, {}), Hangup(0, 7, Some(1)); Able(n, s) && Inv(After(n, s).cluster) && !NoGhosts(After(n, s))
  {
    var n, s := Net(c, {}), Hangup(0, 7, Some(1));
    var conns := c.services[0].conns;
    assert 1 in conns && 2 in conns && CarriesTwo(conns, 7);
    InvStep(c, s);
    GhostStep(n, s);
  }

  /** Connection 7 closes: one of the two registrations stays behind. */
  lemma {:induction false} GhostStays()
    ensures exists steps :: Inv(Fresh(1)) && Run(Net(Fresh(1), {}), steps) && !NoGhosts(End(Net(Fresh(1), {}), steps))
  {
    var c, c1, first, second := BothOnSeven();
    LeavesOne(c);
    var r2 := Connections.Before(Net(c, {}), Hangup(0, 7, Some(1)), []);
    var r1 := Connections.Before(Net(c1, {}), second, r2);
    var r0 := Connections.Before(Net(Fresh(1), {}), first, r1);
  }

  /** A connection silent for 31 seconds is shut down, and stays registered for what is written next. */
  lemma {:induction false} ShutYetRegistered()
    ensures exists steps :: Inv(Fresh(1)) && Run(Net(Fresh(1), {}), steps) && !NoShut(End(Net(Fresh(1), {}), steps))
  {
    FreshInv(1);
    LoggedIn(Fresh(1), 0, 7, 1);
    var first, s := Receive(0, 7, LoginAs(1), 0), Tick(0, 31);
    var c := Next(Fresh(1), first);
    CutOff.BodyTracks(0, At(Fresh(1), 0), 7, LoginAs(1), 0);
    var n0, n := Net(Fresh(1), {}), Net(c, {});
    InvStep(c, s);
    assert 1 in c.services[0].conns && c.services[0].conns[1] in Stale(c.services[0].lastTime, 31);
    CutOff.StepShut(c, s, 0, 7);
    assert 1 in After(n, s).cluster.services[0].conns;
    var r1 := Connections.Before(n, s, []);
    var r0 := Connections.Before(n0, first, r1);
  }
}
