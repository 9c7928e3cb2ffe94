/** Open and closed connections: when a registration outlives its connection, and what that means for a message. */
module Connections {
  import opened Protocol
  import opened Routing
  import opened Delivery
  import opened Accounting
  import opened Sessions
  import CutOff

  /** A cluster together with the connections of each server that have closed. */
  datatype Net = Net(cluster: Cluster, closed: set<(nat, Conn)>)

  /** A closed connection says nothing more, and closes once. */
  predicate Able(n: Net, s: Step) {
    Enabled(n.cluster, s) && (s.Receive? || s.Hangup? ==> (s.server, s.conn) !in n.closed)
  }

  function After(n: Net, s: Step): Net
    requires Inv(n.cluster) && Able(n, s)
  {
    Net(Next(n.cluster, s), if s.Hangup? then n.closed + {(s.server, s.conn)} else n.closed)
  }

  /** Every registration belongs to an open connection. */
  ghost predicate NoGhosts(n: Net) {
    forall i, u :: 0 <= i < |n.cluster.services| && u in n.cluster.services[i].conns ==>
      (i, n.cluster.services[i].conns[u]) !in n.closed
  }

  predicate CarriesTwo(conns: map<int, Conn>, conn: Conn) {
    exists u, v :: u in conns && v in conns && u != v && conns[u] == conn && conns[v] == conn
  }

  /** The close of a connection that carries two accounts. */
  predicate LeavesGhost(n: Net, s: Step)
    requires Enabled(n.cluster, s)
  {
    s.Hangup? && CarriesTwo(n.cluster.services[s.server].conns, s.conn)
  }

  lemma {:induction false} OthersElsewhere(conns: map<int, Conn>, conn: Conn, victim: Option<int>, u: int)
    requires IsVictim(conns, conn, victim) && !CarriesTwo(conns, conn) && u in conns && victim != Some(u)
    ensures conns[u] != conn
  {
    match victim
    case Some(v) => assert v != u && conns[v] == conn;
    case None => assert conns[u] == conn ==> Carries(conns, conn);
  }

  lemma {:induction false} HangupGhosts(n: Net, s: Step)
    requires Inv(n.cluster) && Able(n, s) && NoGhosts(n) && s.Hangup?
    ensures NoGhosts(After(n, s)) <==> !LeavesGhost(n, s)
  {
    var i, conn := s.server, s.conn;
    var conns := n.cluster.services[i].conns;
    var m := After(n, s);
    CloseSessions(i, At(n.cluster, i), conn, s.victim);
    var left := m.cluster.services[i].conns;
    if u, v :| u in conns && v in conns && u != v && conns[u] == conn && conns[v] == conn {
      var w := if s.victim == Some(u) then v else u;
      assert w in left && left[w] == conn;
    } else {
      forall j, u | 0 <= j < |m.cluster.services| && u in m.cluster.services[j].conns
        ensures (j, m.cluster.services[j].conns[u]) !in m.closed
      {
        assert u in n.cluster.services[j].conns && m.cluster.services[j].conns[u] == n.cluster.services[j].conns[u];
        if j == i {
          OthersElsewhere(conns, conn, s.victim, u);
        }
      }
    }
  }

  lemma {:induction false} OtherGhosts(n: Net, s: Step)
    requires Inv(n.cluster) && Able(n, s) && NoGhosts(n) && !s.Hangup?
    ensures NoGhosts(After(n, s))
  {
    match s
    case Receive(i, conn, js, now) => DispatchSessions(i, At(n.cluster, i), conn, js, now);
    case Deliver(at) => assert FlightOk(n.cluster.back, n.cluster.back.inflight[at]);
    case Tick(i, now) =>
    case Admin(_, _, _) =>
  }

  /** Registrations keep belonging to open connections through a step if and only if it does not close one that carries two accounts. */
  lemma {:induction false} GhostStep(n: Net, s: Step)
    requires Inv(n.cluster) && Able(n, s) && NoGhosts(n)
    ensures NoGhosts(After(n, s)) <==> !LeavesGhost(n, s)
  {
    if s.Hangup? {
      HangupGhosts(n, s);
    } else {
      OtherGhosts(n, s);
    }
  }

  /** Without such registrations, whatever a step writes for a user goes to a connection that is open. */
  lemma {:induction false} WrittenToOpen(n: Net, s: Step)
    requires Inv(n.cluster) && Able(n, s) && NoGhosts(n) && !LeavesGhost(n, s) && !s.Admin?
    ensures var m := After(n, s);
            var was, out := n.cluster.back.out, m.cluster.back.out;
            was <= out
            && forall k :: |was| <= k < |out| && (out[k].packet.Chat? || (out[k].packet.LoginAck? && out[k].packet.errno == 0)) ==>
                 (out[k].server, out[k].conn) !in m.closed
  {
    GhostStep(n, s);
    WrittenToRegistered(n.cluster, s);
  }

  // ---------- connections the server has shut down itself ----------

  /** No registration belongs to a connection that was shut down: kicked, or cut off for silence. */
  ghost predicate NoShut(n: Net) {
    forall i, u :: 0 <= i < |n.cluster.services| && u in n.cluster.services[i].conns ==>
      (i, n.cluster.services[i].conns[u]) !in n.cluster.back.shut
  }

  /** A check that finds a registered connection stale: the registration stays. */
  predicate CutsRegistered(n: Net, s: Step)
    requires Enabled(n.cluster, s)
  {
    s.Tick? &&
    var sv := n.cluster.services[s.server];
    exists u :: u in sv.conns && sv.conns[u] in Stale(sv.lastTime, s.now)
  }

  /** A login on a connection already shut down, or one that kicks a connection which keeps or gets a registration. */
  predicate RegistersShut(n: Net, s: Step)
    requires Enabled(n.cluster, s)
  {
    s.Receive? && s.js.msgid == Some(LOGIN_MSG) && LoginAccepted(n.cluster.back, s.js) &&
    var conns := n.cluster.services[s.server].conns[s.js.id.value := s.conn];
    || (s.server, s.conn) in n.cluster.back.shut
    || exists u :: u in conns && CutOff.Kicks(n.cluster, s, s.server, conns[u])
  }

  lemma {:induction false} ReceiveShut(n: Net, s: Step)
    requires Inv(n.cluster) && Able(n, s) && NoShut(n) && s.Receive?
    ensures NoShut(After(n, s)) <==> !RegistersShut(n, s)
  {
    var i, c, m := s.server, n.cluster, After(n, s);
    var conns := m.cluster.services[i].conns;
    DispatchSessions(i, At(c, i), s.conn, s.js, s.now);
    forall j: nat, conn: Conn ensures (j, conn) in m.cluster.back.shut <==> (j, conn) in c.back.shut || CutOff.Kicks(c, s, j, conn) {
      CutOff.StepShut(c, s, j, conn);
    }
    if RegistersShut(n, s) {
      var id := s.js.id.value;
      if (i, s.conn) in c.back.shut {
        assert id in conns && conns[id] == s.conn;
      } else {
        var u :| u in conns && CutOff.Kicks(c, s, i, conns[u]);
        assert (i, conns[u]) in m.cluster.back.shut;
      }
    } else {
      forall j, u | 0 <= j < |m.cluster.services| && u in m.cluster.services[j].conns
        ensures (j, m.cluster.services[j].conns[u]) !in m.cluster.back.shut
      {
        assert j != i ==> m.cluster.services[j] == c.services[j];
      }
    }
  }

  lemma {:induction false} TickShut(n: Net, s: Step)
    requires Inv(n.cluster) && Able(n, s) && NoShut(n) && s.Tick?
    ensures NoShut(After(n, s)) <==> !CutsRegistered(n, s)
  {
    var c, m := n.cluster, After(n, s);
    forall j: nat, conn: Conn ensures (j, conn) in m.cluster.back.shut <==> (j, conn) in c.back.shut || CutOff.CutsOff(c, s, j, conn) {
      CutOff.StepShut(c, s, j, conn);
    }
    var sv := c.services[s.server];
    if u :| u in sv.conns && sv.conns[u] in Stale(sv.lastTime, s.now) {
      assert u in m.cluster.services[s.server].conns && CutOff.CutsOff(c, s, s.server, sv.conns[u]);
    }
  }

  lemma {:induction false} OtherShut(n: Net, s: Step)
    requires Inv(n.cluster) && Able(n, s) && NoShut(n) && !s.Receive? && !s.Tick?
    ensures NoShut(After(n, s))
  {
    var c, m := n.cluster, After(n, s);
    match s {
      case Hangup(i, conn, victim) => CloseSessions(i, At(c, i), conn, victim);
      case Deliver(at) => assert FlightOk(c.back, c.back.inflight[at]);
      case Admin(_, _, _) =>
    }
    forall j, u | 0 <= j < |m.cluster.services| && u in m.cluster.services[j].conns
      ensures (j, m.cluster.services[j].conns[u]) !in m.cluster.back.shut
    {
      assert u in c.services[j].conns && m.cluster.services[j].conns[u] == c.services[j].conns[u];
      CutOff.StepShut(c, s, j, c.services[j].conns[u]);
    }
  }

  /** Every registration belongs to a connection that is neither closed nor shut down. */
  ghost predicate Sound(n: Net) {
    NoGhosts(n) && NoShut(n)
  }

  predicate Spoils(n: Net, s: Step)
    requires Enabled(n.cluster, s)
  {
    LeavesGhost(n, s) || CutsRegistered(n, s) || RegistersShut(n, s)
  }

  /**
   * Registrations keep belonging to usable connections through a step if and only if it does not close a connection
   * with two accounts, cut off a registered one, or log in on a shut one, and no connection it kicks has a registration left.
   */
  lemma {:induction false} SoundStep(n: Net, s: Step)
    requires Inv(n.cluster) && Able(n, s) && Sound(n)
    ensures Sound(After(n, s)) <==> !Spoils(n, s)
  {
    GhostStep(n, s);
    if s.Receive? {
      ReceiveShut(n, s);
    } else if s.Tick? {
      TickShut(n, s);
    } else {
      OtherShut(n, s);
    }
  }

  /** As long as they do, whatever a step writes for a user goes to a connection that can carry it. */
  lemma {:induction false} WrittenToUsable(n: Net, s: Step)
    requires Inv(n.cluster) && Able(n, s) && Sound(n) && !Spoils(n, s) && !s.Admin?
    ensures var m := After(n, s);
            var was, out := n.cluster.back.out, m.cluster.back.out;
            was <= out
            && forall k :: |was| <= k < |out| && (out[k].packet.Chat? || (out[k].packet.LoginAck? && out[k].packet.errno == 0)) ==>
                 (out[k].server, out[k].conn) !in m.closed && (out[k].server, out[k].conn) !in m.cluster.back.shut
  {
    SoundStep(n, s);
    WrittenToRegistered(n.cluster, s);
  }

  // ---------- runs ----------

  ghost predicate Run(n: Net, steps: seq<Step>)
    requires Inv(n.cluster)
    decreases |steps|
  {
    |steps| == 0 || (Able(n, steps[0]) && (InvStep(n.cluster, steps[0]); Run(After(n, steps[0]), steps[1..])))
  }

  ghost function End(n: Net, steps: seq<Step>): Net
    requires Inv(n.cluster) && Run(n, steps)
    decreases |steps|
  {
    if |steps| == 0 then n else (InvStep(n.cluster, steps[0]); End(After(n, steps[0]), steps[1..]))
  }

  /** One more step in front of a run. */
  lemma {:induction false} Before(n: Net, s: Step, rest: seq<Step>) returns (steps: seq<Step>)
    requires Inv(n.cluster) && Able(n, s) && Inv(After(n, s).cluster) && Run(After(n, s), rest)
    ensures steps == [s] + rest && Run(n, steps) && End(n, steps) == End(After(n, s), rest)
  {
    steps := [s] + rest;
    assert steps[1..] == rest;
  }

  /** In every state of the run registrations belong to open connections. */
  ghost predicate NeverGhosts(n: Net, steps: seq<Step>)
    requires Inv(n.cluster) && Run(n, steps)
    decreases |steps|
  {
    NoGhosts(n) && (|steps| == 0 || (InvStep(n.cluster, steps[0]); NeverGhosts(After(n, steps[0]), steps[1..])))
  }

  /** Every connection that closes in the run carries one account at most. */
  ghost predicate ClosesSingle(n: Net, steps: seq<Step>)
    requires Inv(n.cluster) && Run(n, steps)
    decreases |steps|
  {
    |steps| == 0 ||
    (!LeavesGhost(n, steps[0]) && (InvStep(n.cluster, steps[0]); ClosesSingle(After(n, steps[0]), steps[1..])))
  }

  /** Over every run: every registration belongs to an open connection throughout if and only if no closing one carried two accounts. */
  lemma {:induction false} GhostRun(n: Net, steps: seq<Step>)
    requires Inv(n.cluster) && Run(n, steps) && NoGhosts(n)
    ensures NeverGhosts(n, steps) <==> ClosesSingle(n, steps)
    decreases |steps|
  {
    if |steps| > 0 {
      InvStep(n.cluster, steps[0]);
      GhostStep(n, steps[0]);
      if NoGhosts(After(n, steps[0])) {
        GhostRun(After(n, steps[0]), steps[1..]);
      }
    }
  }

  /** In every state of the run registrations belong to usable connections. */
  ghost predicate AlwaysSound(n: Net, steps: seq<Step>)
    requires Inv(n.cluster) && Run(n, steps)
    decreases |steps|
  {
    Sound(n) && (|steps| == 0 || (InvStep(n.cluster, steps[0]); AlwaysSound(After(n, steps[0]), steps[1..])))
  }

  ghost predicate NeverSpoils(n: Net, steps: seq<Step>)
    requires Inv(n.cluster) && Run(n, steps)
    decreases |steps|
  {
    |steps| == 0 || (!Spoils(n, steps[0]) && (InvStep(n.cluster, steps[0]); NeverSpoils(After(n, steps[0]), steps[1..])))
  }

  /** Over every run: every registration belongs to a usable connection throughout if and only if no step spoils that. */
  lemma {:induction false} SoundRun(n: Net, steps: seq<Step>)
    requires Inv(n.cluster) && Run(n, steps) && Sound(n)
    ensures AlwaysSound(n, steps) <==> NeverSpoils(n, steps)
    decreases |steps|
  {
    if |steps| > 0 {
      InvStep(n.cluster, steps[0]);
      SoundStep(n, steps[0]);
      if Sound(After(n, steps[0])) {
        SoundRun(After(n, steps[0]), steps[1..]);
      }
    }
  }
}
