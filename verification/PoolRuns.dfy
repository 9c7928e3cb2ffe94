/**
 * Threads sharing one pool, interleaved at the points where the pool mutex is taken:
 * any number of threads, in any order, including calls that overlap shutdown.
 */
module PoolRuns {
  import opened PoolSteps

  datatype Pc =
    | Outside     // not inside acquire
    | Creating    // opening a connection with the mutex released
    | Sleeping    // waiting on the condition variable, not notified
    | Notified    // notified, waiting for the mutex

  /** An acquired connection object; released is its flag, returned tells whether the pool has taken it back. */
  datatype Handle = Handle(conn: Conn, released: bool, returned: bool)

  datatype State = State(pool: Pool, threads: seq<Pc>, handles: seq<Handle>)

  datatype Step =
    | Enter(t: nat, rounds: seq<Round>)
    | Wake(t: nat, rounds: seq<Round>)            // notified, or spuriously
    | TimeOut(t: nat)                             // un-notified waiter gives up
    | LateTimeOut(t: nat)                         // notified waiter reports timeout all the same
    | FinishCreate(t: nat, ok: bool, now: int, rounds: seq<Round>)
    | Release(h: nat)
    | Return(h: nat, now: int, woken: int)        // woken: the waiter notify_one picks, -1 for none
    | Stop

  function Count(ts: seq<Pc>, pc: Pc): nat {
    if |ts| == 0 then 0 else Count(ts[..|ts|-1], pc) + (if ts[|ts|-1] == pc then 1 else 0)
  }

  predicate Enabled(s: State, step: Step) {
    match step
    case Enter(t, rounds) => t < |s.threads| && s.threads[t].Outside? && |rounds| >= |s.pool.idle|
    case Wake(t, rounds) =>
      t < |s.threads| && (s.threads[t].Notified? || s.threads[t].Sleeping?) && |rounds| >= |s.pool.idle|
    case TimeOut(t) => t < |s.threads| && s.threads[t].Sleeping?
    case LateTimeOut(t) => t < |s.threads| && s.threads[t].Notified?
    case FinishCreate(t, _, _, rounds) => t < |s.threads| && s.threads[t].Creating? && |rounds| >= |s.pool.idle|
    case Release(h) => h < |s.handles|
    case Return(h, _, woken) =>
      && h < |s.handles| && s.handles[h].released && !s.handles[h].returned
      && (if woken == -1 then s.pool.shut || Count(s.threads, Sleeping) == 0
          else !s.pool.shut && 0 <= woken < |s.threads| && s.threads[woken].Sleeping?)
    case Stop => true
  }

  /** Thread t leaves the mutex with this outcome. */
  function Leave(s: State, t: nat, p: Pool, o: Outcome): State
    requires t < |s.threads|
  {
    match o
    case Got(conn) => State(p, s.threads[t := Outside], s.handles + [Handle(conn, false, false)])
    case Create => State(p, s.threads[t := Creating], s.handles)
    case Block => State(p, s.threads[t := Sleeping], s.handles)
  }

  function NotifyAll(ts: seq<Pc>): seq<Pc> {
    if |ts| == 0 then []
    else NotifyAll(ts[..|ts|-1]) + [if ts[|ts|-1].Sleeping? then Notified else ts[|ts|-1]]
  }

  function Next(s: State, step: Step): State
    requires Enabled(s, step)
  {
    match step
    case Enter(t, rounds) => var (p, o) := Scan(s.pool, rounds); Leave(s, t, p, o)
    case Wake(t, rounds) => var (p, o) := Scan(s.pool, rounds); Leave(s, t, p, o)
    case TimeOut(t) => s.(threads := s.threads[t := Outside])
    case LateTimeOut(t) => s.(threads := s.threads[t := Outside])
    case FinishCreate(t, ok, now, rounds) => var (p, o) := Created(s.pool, ok, now, rounds); Leave(s, t, p, o)
    case Release(h) => s.(handles := s.handles[h := s.handles[h].(released := true)])
    case Return(h, now, woken) =>
      State(GiveBack(s.pool, s.handles[h].conn, now),
            if woken == -1 then s.threads else s.threads[woken := Notified],
            s.handles[h := s.handles[h].(returned := true)])
    case Stop => if s.pool.shut then s else State(ShutDown(s.pool), NotifyAll(s.threads), s.handles)
  }

  // ---------- exclusivity ----------

  predicate Held(h: Handle) {
    !h.returned
  }

  /** No connection is in two places: held handles and idle entries all carry different connections. */
  predicate Exclusive(s: State) {
    && (forall i, j :: 0 <= i < j < |s.handles| && Held(s.handles[i]) && Held(s.handles[j]) ==>
          s.handles[i].conn != s.handles[j].conn)
    && (forall i, k :: 0 <= i < |s.handles| && Held(s.handles[i]) && 0 <= k < |s.pool.idle| ==>
          s.handles[i].conn != s.pool.idle[k].conn)
    && (forall k, m :: 0 <= k < m < |s.pool.idle| ==> s.pool.idle[k].conn != s.pool.idle[m].conn)
  }

  predicate Bounded(s: State) {
    && (forall i :: 0 <= i < |s.handles| ==> s.handles[i].conn < s.pool.nextConn)
    && (forall k :: 0 <= k < |s.pool.idle| ==> s.pool.idle[k].conn < s.pool.nextConn)
  }

  /** Before shutdown the pool's records are exactly the connections not yet returned. */
  ghost predicate Recorded(s: State) {
    !s.pool.shut ==> forall c :: c in s.pool.borrowed <==> exists i :: 0 <= i < |s.handles| && Held(s.handles[i]) && s.handles[i].conn == c
  }

  predicate Counted(s: State) {
    !s.pool.shut ==>
      && s.pool.active == |s.pool.borrowed| + Count(s.threads, Creating)
      && |s.pool.idle| + s.pool.active <= s.pool.max
  }

  /** A sleeper nobody notified means every idle connection is promised to a notified waiter. */
  predicate NoLostWakeUp(s: State) {
    Count(s.threads, Sleeping) > 0 ==> |s.pool.idle| <= Count(s.threads, Notified)
  }

  ghost predicate Inv(s: State) {
    && Exclusive(s) && Bounded(s) && Recorded(s) && Counted(s)
    && (s.pool.shut ==> s.pool.idle == [])
    && (forall i :: 0 <= i < |s.handles| && s.handles[i].returned ==> s.handles[i].released)
  }

  // ---------- counting threads ----------

  lemma {:induction false} CountUpdate(ts: seq<Pc>, t: nat, now: Pc, pc: Pc)
    requires t < |ts|
    ensures Count(ts[t := now], pc) ==
            Count(ts, pc) - (if ts[t] == pc then 1 else 0) + (if now == pc then 1 else 0)
  {
    var front := ts[..|ts|-1];
    if t == |ts| - 1 {
      assert ts[t := now][..|ts|-1] == front;
    } else {
      CountUpdate(front, t, now, pc);
      assert ts[t := now][..|ts|-1] == front[t := now];
    }
  }

  lemma {:induction false} CountNotifyAll(ts: seq<Pc>)
    ensures Count(NotifyAll(ts), Sleeping) == 0
    ensures Count(NotifyAll(ts), Creating) == Count(ts, Creating)
  {
    if |ts| > 0 {
      CountNotifyAll(ts[..|ts|-1]);
      assert NotifyAll(ts)[..|NotifyAll(ts)|-1] == NotifyAll(ts[..|ts|-1]);
    }
  }

  // ---------- steps ----------

  lemma {:induction false} CreatedGives(p: Pool, ok: bool, now: int, rounds: seq<Round>)
    requires |rounds| >= |p.idle|
    ensures var (q, o) := Created(p, ok, now, rounds);
            if ok then q == p.(nextConn := p.nextConn + 1, borrowed := p.borrowed[p.nextConn := now]) && o == Got(p.nextConn)
            else ScanResult(p.(active := p.active - 1), q, o)
  {
    if !ok {
      ScanGives(p.(active := p.active - 1), rounds);
    }
  }

  /** The connection of a Got outcome is a new one or the idle one just before the remaining queue. */
  predicate TakenFrom(s: Pool, p: Pool, conn: Conn) {
    || (conn == s.nextConn && p.nextConn == s.nextConn + 1)
    || (|p.idle| < |s.idle| && p.nextConn == s.nextConn && conn == s.idle[|s.idle|-|p.idle|-1].conn)
  }

  lemma {:induction false} LeaveBounded(s: State, t: nat, p: Pool, o: Outcome)
    requires Exclusive(s) && Bounded(s) && t < |s.threads|
    requires |p.idle| <= |s.pool.idle| && p.idle == s.pool.idle[|s.pool.idle|-|p.idle|..]
    requires if o.Got? then TakenFrom(s.pool, p, o.conn) else p.nextConn == s.pool.nextConn
    ensures Exclusive(Leave(s, t, p, o)) && Bounded(Leave(s, t, p, o))
  {
    forall k | 0 <= k < |p.idle|
      ensures p.idle[k] == s.pool.idle[|s.pool.idle|-|p.idle|+k]
    {
    }
  }

  lemma {:induction false} LeaveRecorded(s: State, n: State, conn: Conn)
    requires Recorded(s) && !s.pool.shut && !n.pool.shut
    requires n.handles == s.handles + [Handle(conn, false, false)]
    requires n.pool.borrowed.Keys == s.pool.borrowed.Keys + {conn}
    ensures Recorded(n)
  {
    forall c
      ensures c in n.pool.borrowed <==> exists i :: 0 <= i < |n.handles| && Held(n.handles[i]) && n.handles[i].conn == c
    {
      if c == conn {
        assert Held(n.handles[|s.handles|]) && n.handles[|s.handles|].conn == c;
      } else if c in s.pool.borrowed {
        var i :| 0 <= i < |s.handles| && Held(s.handles[i]) && s.handles[i].conn == c;
        assert n.handles[i] == s.handles[i];
      }
    }
  }

  /** A connection handed out is new or was idle, so it joins the held ones without a clash. */
  lemma {:induction false} LeaveExclusive(s: State, t: nat, p: Pool, o: Outcome)
    requires Exclusive(s) && Bounded(s) && Recorded(s) && t < |s.threads|
    requires p.shut == s.pool.shut
    requires |p.idle| <= |s.pool.idle| && p.idle == s.pool.idle[|s.pool.idle|-|p.idle|..]
    requires o.Got? ==> p.borrowed.Keys == s.pool.borrowed.Keys + {o.conn} && TakenFrom(s.pool, p, o.conn)
    requires !o.Got? ==> p.borrowed == s.pool.borrowed && p.nextConn == s.pool.nextConn
    ensures Exclusive(Leave(s, t, p, o)) && Bounded(Leave(s, t, p, o)) && Recorded(Leave(s, t, p, o))
    ensures o.Got? && !s.pool.shut ==> o.conn !in s.pool.borrowed
  {
    LeaveBounded(s, t, p, o);
    if o.Got? && !s.pool.shut {
      LeaveRecorded(s, Leave(s, t, p, o), o.conn);
    }
  }

  lemma {:induction false} OneMoreBorrowed(m: map<Conn, int>, n: map<Conn, int>, conn: Conn)
    requires conn !in m && n.Keys == m.Keys + {conn}
    ensures |n| == |m| + 1
  {
    assert |n.Keys| == |m.Keys| + 1;
  }

  lemma {:induction false} OneLessBorrowed(m: map<Conn, int>, conn: Conn)
    requires conn in m
    ensures |m - {conn}| == |m| - 1
  {
    assert (m - {conn}).Keys == m.Keys - {conn};
    assert |(m - {conn}).Keys| == |m.Keys| - 1;
  }

  lemma {:induction false} ScanExclusive(s: State, t: nat, rounds: seq<Round>)
    requires Exclusive(s) && Bounded(s) && Recorded(s) && t < |s.threads| && |rounds| >= |s.pool.idle|
    ensures var (p, o) := Scan(s.pool, rounds);
            var n := Leave(s, t, p, o);
            && Exclusive(n) && Bounded(n) && Recorded(n)
            && (o.Got? && !s.pool.shut ==> o.conn !in s.pool.borrowed)
  {
    var (p, o) := Scan(s.pool, rounds);
    ScanGives(s.pool, rounds);
    LeaveExclusive(s, t, p, o);
  }

  /** Counting part of handing out, blocking or starting to create. */
  lemma {:induction false} LeaveCounted(s: State, t: nat, p: Pool, o: Outcome, freed: nat)
    requires Counted(s) && t < |s.threads| && p.shut == s.pool.shut && p.max == s.pool.max
    requires freed == if s.threads[t].Creating? then 1 else 0
    requires !s.pool.shut && o.Got? ==> o.conn !in s.pool.borrowed && p.borrowed.Keys == s.pool.borrowed.Keys + {o.conn}
    requires !o.Got? ==> p.borrowed == s.pool.borrowed
    requires p.active == s.pool.active - freed + if o.Block? then 0 else 1
    requires !s.pool.shut ==> |p.idle| + p.active <= p.max
    ensures Counted(Leave(s, t, p, o))
  {
    var n := Leave(s, t, p, o);
    CountUpdate(s.threads, t, n.threads[t], Creating);
    if o.Got? && !s.pool.shut {
      OneMoreBorrowed(s.pool.borrowed, p.borrowed, o.conn);
    }
  }

  lemma {:induction false} ScanCounted(s: State, t: nat, rounds: seq<Round>)
    requires Counted(s) && t < |s.threads| && !s.threads[t].Creating? && |rounds| >= |s.pool.idle|
    requires var (p, o) := Scan(s.pool, rounds); o.Got? && !s.pool.shut ==> o.conn !in s.pool.borrowed
    ensures var (p, o) := Scan(s.pool, rounds);
            && Counted(Leave(s, t, p, o)) && p.shut == s.pool.shut && |p.idle| <= |s.pool.idle|
  {
    var (p, o) := Scan(s.pool, rounds);
    ScanGives(s.pool, rounds);
    LeaveCounted(s, t, p, o, 0);
  }

  lemma {:induction false} ScanKeeps(s: State, t: nat, rounds: seq<Round>)
    requires Inv(s) && t < |s.threads| && !s.threads[t].Creating? && |rounds| >= |s.pool.idle|
    ensures var (p, o) := Scan(s.pool, rounds); Inv(Leave(s, t, p, o))
  {
    ScanExclusive(s, t, rounds);
    ScanCounted(s, t, rounds);
  }

  lemma {:induction false} FinishExclusive(s: State, t: nat, ok: bool, now: int, rounds: seq<Round>)
    requires Exclusive(s) && Bounded(s) && Recorded(s) && t < |s.threads| && |rounds| >= |s.pool.idle|
    ensures var (p, o) := Created(s.pool, ok, now, rounds);
            var n := Leave(s, t, p, o);
            && Exclusive(n) && Bounded(n) && Recorded(n)
            && (o.Got? && !s.pool.shut ==> o.conn !in s.pool.borrowed)
  {
    var (p, o) := Created(s.pool, ok, now, rounds);
    CreatedGives(s.pool, ok, now, rounds);
    LeaveExclusive(s, t, p, o);
  }

  lemma {:induction false} FinishCounted(s: State, t: nat, ok: bool, now: int, rounds: seq<Round>)
    requires Counted(s) && t < |s.threads| && s.threads[t].Creating? && |rounds| >= |s.pool.idle|
    requires var (p, o) := Created(s.pool, ok, now, rounds); o.Got? && !s.pool.shut ==> o.conn !in s.pool.borrowed
    ensures var (p, o) := Created(s.pool, ok, now, rounds);
            && Counted(Leave(s, t, p, o)) && p.shut == s.pool.shut && |p.idle| <= |s.pool.idle|
  {
    var (p, o) := Created(s.pool, ok, now, rounds);
    CreatedGives(s.pool, ok, now, rounds);
    LeaveCounted(s, t, p, o, 1);
  }

  lemma {:induction false} FinishCreateKeeps(s: State, t: nat, ok: bool, now: int, rounds: seq<Round>)
    requires Inv(s) && t < |s.threads| && s.threads[t].Creating? && |rounds| >= |s.pool.idle|
    ensures var (p, o) := Created(s.pool, ok, now, rounds); Inv(Leave(s, t, p, o))
  {
    FinishExclusive(s, t, ok, now, rounds);
    FinishCounted(s, t, ok, now, rounds);
  }

  lemma {:induction false} ReturnExclusive(s: State, h: nat, now: int, woken: int)
    requires Exclusive(s) && Bounded(s) && (s.pool.shut ==> s.pool.idle == [])
    requires Enabled(s, Return(h, now, woken))
    ensures Exclusive(Next(s, Return(h, now, woken))) && Bounded(Next(s, Return(h, now, woken)))
  {
    var n := Next(s, Return(h, now, woken));
    assert Held(s.handles[h]) && !Held(n.handles[h]);
    assert forall i :: 0 <= i < |s.handles| && i != h ==> n.handles[i] == s.handles[i];
  }

  lemma {:induction false} ReturnRecorded(s: State, h: nat, now: int, woken: int)
    requires Exclusive(s) && Recorded(s) && !s.pool.shut && Enabled(s, Return(h, now, woken))
    ensures Recorded(Next(s, Return(h, now, woken)))
    ensures s.handles[h].conn in s.pool.borrowed
  {
    var n := Next(s, Return(h, now, woken));
    assert Held(s.handles[h]);
    forall c
      ensures c in n.pool.borrowed <==> exists i :: 0 <= i < |n.handles| && Held(n.handles[i]) && n.handles[i].conn == c
    {
      if c in n.pool.borrowed {
        var i :| 0 <= i < |s.handles| && Held(s.handles[i]) && s.handles[i].conn == c;
        assert Held(n.handles[i]) && n.handles[i].conn == c;
      } else if i :| 0 <= i < |n.handles| && Held(n.handles[i]) && n.handles[i].conn == c {
        assert Held(s.handles[i]) && i != h;
      }
    }
  }

  lemma {:induction false} ReturnCounted(s: State, h: nat, now: int, woken: int)
    requires Counted(s) && Enabled(s, Return(h, now, woken)) && (!s.pool.shut ==> s.handles[h].conn in s.pool.borrowed)
    ensures Counted(Next(s, Return(h, now, woken)))
  {
    if woken != -1 {
      CountUpdate(s.threads, woken, Notified, Creating);
    }
    if !s.pool.shut {
      OneLessBorrowed(s.pool.borrowed, s.handles[h].conn);
    }
  }

  lemma {:induction false} ReturnKeeps(s: State, h: nat, now: int, woken: int)
    requires Inv(s) && Enabled(s, Return(h, now, woken))
    ensures Inv(Next(s, Return(h, now, woken)))
  {
    ReturnExclusive(s, h, now, woken);
    if !s.pool.shut {
      ReturnRecorded(s, h, now, woken);
    }
    ReturnCounted(s, h, now, woken);
  }

  /** Setting the flag of a handle moves no connection. */
  lemma {:induction false} ReleaseKeeps(s: State, h: nat)
    requires Inv(s) && h < |s.handles|
    ensures Inv(Next(s, Release(h)))
  {
    var n := Next(s, Release(h));
    forall c | !s.pool.shut
      ensures c in n.pool.borrowed <==> exists i :: 0 <= i < |n.handles| && Held(n.handles[i]) && n.handles[i].conn == c
    {
      if i :| 0 <= i < |s.handles| && Held(s.handles[i]) && s.handles[i].conn == c {
        assert Held(n.handles[i]) && n.handles[i].conn == c;
      }
      if i :| 0 <= i < |n.handles| && Held(n.handles[i]) && n.handles[i].conn == c {
        assert Held(s.handles[i]) && s.handles[i].conn == c;
      }
    }
  }

  /** Exclusivity, counting and the empty queue after shutdown survive every step of every interleaving. */
  lemma {:induction false} InvStep(s: State, step: Step)
    requires Inv(s) && Enabled(s, step)
    ensures Inv(Next(s, step))
  {
    match step
    case Enter(t, rounds) => ScanKeeps(s, t, rounds);
    case Wake(t, rounds) => ScanKeeps(s, t, rounds);
    case TimeOut(t) => CountUpdate(s.threads, t, Outside, Creating);
    case LateTimeOut(t) => CountUpdate(s.threads, t, Outside, Creating);
    case FinishCreate(t, ok, now, rounds) => FinishCreateKeeps(s, t, ok, now, rounds);
    case Release(h) => ReleaseKeeps(s, h);
    case Return(h, now, woken) => ReturnKeeps(s, h, now, woken);
    case Stop =>
  }

  // ---------- no lost wake-up ----------

  lemma {:induction false} LeaveCounts(s: State, t: nat, p: Pool, o: Outcome)
    requires t < |s.threads|
    ensures var n := Leave(s, t, p, o);
            && Count(n.threads, Notified) == Count(s.threads, Notified) - (if s.threads[t].Notified? then 1 else 0)
            && Count(n.threads, Sleeping) == Count(s.threads, Sleeping) - (if s.threads[t].Sleeping? then 1 else 0)
                                             + (if o.Block? then 1 else 0)
  {
    var n := Leave(s, t, p, o);
    CountUpdate(s.threads, t, n.threads[t], Notified);
    CountUpdate(s.threads, t, n.threads[t], Sleeping);
  }

  /**
   * A returned connection always wakes a waiter that can use it. The one exception is a
   * notified waiter that reports timeout: it breaks the promise exactly when someone
   * sleeps un-notified and every notified waiter was needed.
   */
  lemma {:induction false} WakeUpStep(s: State, step: Step)
    requires Inv(s) && Enabled(s, step) && NoLostWakeUp(s)
    ensures !step.LateTimeOut? ==> NoLostWakeUp(Next(s, step))
    ensures step.LateTimeOut? ==>
              (NoLostWakeUp(Next(s, step)) <==>
               !(Count(s.threads, Sleeping) > 0 && |s.pool.idle| == Count(s.threads, Notified)))
  {
    match step
    case Enter(t, rounds) =>
      var (p, o) := Scan(s.pool, rounds);
      ScanGives(s.pool, rounds);
      LeaveCounts(s, t, p, o);
    case Wake(t, rounds) =>
      var (p, o) := Scan(s.pool, rounds);
      ScanGives(s.pool, rounds);
      LeaveCounts(s, t, p, o);
    case TimeOut(t) =>
      CountUpdate(s.threads, t, Outside, Notified);
      CountUpdate(s.threads, t, Outside, Sleeping);
    case LateTimeOut(t) =>
      CountUpdate(s.threads, t, Outside, Notified);
      CountUpdate(s.threads, t, Outside, Sleeping);
    case FinishCreate(t, ok, now, rounds) =>
      var (p, o) := Created(s.pool, ok, now, rounds);
      CreatedGives(s.pool, ok, now, rounds);
      LeaveCounts(s, t, p, o);
    case Release(h) =>
    case Return(h, now, woken) =>
      if woken != -1 {
        CountUpdate(s.threads, woken, Notified, Notified);
        CountUpdate(s.threads, woken, Notified, Sleeping);
      }
    case Stop => CountNotifyAll(s.threads);
  }

  // ---------- blocking, retries, shutdown ----------

  /** The thread a step runs inside acquire, if any. */
  predicate Scans(step: Step) {
    step.Enter? || step.Wake? || (step.FinishCreate? && !step.ok)
  }

  /** What is true of a state a thread has just gone to sleep in. */
  predicate Full(s: State) {
    s.pool.idle == [] && |s.pool.borrowed| + Count(s.threads, Creating) == s.pool.max
  }

  lemma {:induction false} ScanBlocks(s: State, t: nat, rounds: seq<Round>)
    requires Counted(s) && !s.pool.shut && t < |s.threads| && !s.threads[t].Creating? && |rounds| >= |s.pool.idle|
    ensures var (p, o) := Scan(s.pool, rounds); o.Block? ==> Full(Leave(s, t, p, o)) && p.max == s.pool.max
  {
    ScanGives(s.pool, rounds);
    CountUpdate(s.threads, t, Sleeping, Creating);
  }

  lemma {:induction false} FailedCreateBlocks(s: State, t: nat, now: int, rounds: seq<Round>)
    requires Counted(s) && !s.pool.shut && t < |s.threads| && s.threads[t].Creating? && |rounds| >= |s.pool.idle|
    ensures var (p, o) := Created(s.pool, false, now, rounds); o.Block? ==> Full(Leave(s, t, p, o)) && p.max == s.pool.max
  {
    CreatedGives(s.pool, false, now, rounds);
    CountUpdate(s.threads, t, Sleeping, Creating);
  }

  /** Before shutdown a thread goes to sleep only when exactly max connections are in use or being opened. */
  lemma {:induction false} BlocksOnlyWhenFull(s: State, step: Step)
    requires Counted(s) && Enabled(s, step) && Scans(step) && !s.pool.shut
    requires Next(s, step).threads[step.t] == Sleeping
    ensures Next(s, step).pool.idle == []
    ensures |Next(s, step).pool.borrowed| + Count(Next(s, step).threads, Creating) == s.pool.max
  {
    match step
    case Enter(t, rounds) =>
      ScanBlocks(s, t, rounds);
      assert Next(s, step) == Leave(s, t, Scan(s.pool, rounds).0, Scan(s.pool, rounds).1);
    case Wake(t, rounds) =>
      ScanBlocks(s, t, rounds);
      assert Next(s, step) == Leave(s, t, Scan(s.pool, rounds).0, Scan(s.pool, rounds).1);
    case FinishCreate(t, ok, now, rounds) =>
      FailedCreateBlocks(s, t, now, rounds);
      var r := Created(s.pool, false, now, rounds);
      assert Next(s, step) == Leave(s, t, r.0, r.1);
  }

  /** Idle connections tried and found dead in one hold of the mutex. */
  function Retries(p: Pool, rounds: seq<Round>): nat
    requires |rounds| >= |p.idle|
    decreases |p.idle|
  {
    if |p.idle| > 0 && rounds[0].now - p.idle[0].lastUsed > IDLE_PING_THRESHOLD && rounds[0].probe == Dead
    then 1 + Retries(p.(idle := p.idle[1..]), rounds[1..])
    else 0
  }

  lemma {:induction false} RetriesAtMostIdle(p: Pool, rounds: seq<Round>)
    requires |rounds| >= |p.idle|
    ensures Retries(p, rounds) <= |p.idle|
    decreases |p.idle|
  {
    if |p.idle| > 0 && rounds[0].now - p.idle[0].lastUsed > IDLE_PING_THRESHOLD && rounds[0].probe == Dead {
      RetriesAtMostIdle(p.(idle := p.idle[1..]), rounds[1..]);
    }
  }

  /** In every reachable state before shutdown the ping-failure loop repeats at most max times per mutex hold. */
  lemma {:induction false} RetriesAtMostMax(s: State, rounds: seq<Round>)
    requires Inv(s) && !s.pool.shut && |rounds| >= |s.pool.idle|
    ensures Retries(s.pool, rounds) <= s.pool.max
  {
    RetriesAtMostIdle(s.pool, rounds);
  }

  /** After shutdown no connection is handed out that any handle has ever carried. */
  lemma {:induction false} OnlyNewAfterShutdown(s: State, step: Step, i: nat)
    requires Bounded(s) && Enabled(s, step) && s.pool.shut && s.pool.idle == []
    requires |s.handles| <= i < |Next(s, step).handles|
    ensures forall j :: 0 <= j < |s.handles| ==> s.handles[j].conn != Next(s, step).handles[i].conn
    ensures Next(s, step).pool.shut && Next(s, step).pool.idle == []
  {
    assert step.FinishCreate? && step.ok;
  }

  // ---------- runs ----------

  predicate Legal(s: State, steps: seq<Step>)
    decreases |steps|
  {
    |steps| == 0 || (Enabled(s, steps[0]) && Legal(Next(s, steps[0]), steps[1..]))
  }

  function Final(s: State, steps: seq<Step>): State
    requires Legal(s, steps)
    decreases |steps|
  {
    if |steps| == 0 then s else Final(Next(s, steps[0]), steps[1..])
  }

  lemma {:induction false} OpenedDistinct(first: Conn, results: seq<bool>, now: int)
    ensures |Opened(first, results, now)| <= |results|
    ensures forall k :: 0 <= k < |Opened(first, results, now)| ==> Opened(first, results, now)[k].conn == first + k
  {
    if |results| > 0 {
      OpenedDistinct(first, results[..|results|-1], now);
    }
  }

  /** The pool as init leaves it, with n threads that have not called it yet. */
  function Fresh(results: seq<bool>, now: int, max: int, n: nat): State {
    var idle := Opened(0, results, now);
    State(Pool(idle, map[], 0, max, false, |idle|), seq(n, _ => Outside), [])
  }

  lemma {:induction false} NobodyInside(n: nat)
    ensures Count(seq(n, _ => Outside), Creating) == 0 && Count(seq(n, _ => Outside), Sleeping) == 0
  {
    if n > 0 {
      NobodyInside(n - 1);
      assert seq(n, _ => Outside)[..n-1] == seq(n - 1, _ => Outside);
    }
  }

  lemma {:induction false} RunKeeps(s: State, steps: seq<Step>)
    requires Inv(s) && Legal(s, steps)
    ensures Inv(Final(s, steps))
    ensures NoLostWakeUp(s) && (forall k :: 0 <= k < |steps| ==> !steps[k].LateTimeOut?) ==> NoLostWakeUp(Final(s, steps))
    decreases |steps|
  {
    if |steps| > 0 {
      InvStep(s, steps[0]);
      RunKeeps(Next(s, steps[0]), steps[1..]);
      if NoLostWakeUp(s) && forall k :: 0 <= k < |steps| ==> !steps[k].LateTimeOut? {
        WakeUpStep(s, steps[0]);
        assert forall k :: 0 <= k < |steps[1..]| ==> !steps[1..][k].LateTimeOut?;
      }
    }
  }

  /** Every interleaving from init: exclusivity and counting always; no lost wake-up unless a notified waiter times out. */
  lemma {:induction false} PoolTheorem(results: seq<bool>, now: int, max: int, n: nat, steps: seq<Step>)
    requires |results| <= max && Legal(Fresh(results, now, max, n), steps)
    ensures Inv(Final(Fresh(results, now, max, n), steps))
    ensures (forall k :: 0 <= k < |steps| ==> !steps[k].LateTimeOut?) ==> NoLostWakeUp(Final(Fresh(results, now, max, n), steps))
  {
    OpenedDistinct(0, results, now);
    NobodyInside(n);
    assert Inv(Fresh(results, now, max, n));
    RunKeeps(Fresh(results, now, max, n), steps);
  }

  // ---------- a wake-up that is lost ----------

  /** One more step in front of a run. */
  lemma {:induction false} Before(s: State, step: Step, rest: seq<Step>) returns (steps: seq<Step>)
    requires Enabled(s, step) && Legal(Next(s, step), rest)
    ensures steps == [step] + rest && Legal(s, steps) && Final(s, steps) == Final(Next(s, step), rest)
  {
    steps := [step] + rest;
    assert steps[1..] == rest;
  }

  lemma {:induction false} CountThree(a: Pc, b: Pc, c: Pc, pc: Pc)
    ensures Count([a, b, c], pc) == (if a == pc then 1 else 0) + (if b == pc then 1 else 0) + (if c == pc then 1 else 0)
  {
    assert [a, b, c][..2] == [a, b] && [a, b][..1] == [a] && [a][..0] == [];
    assert Count([a], pc) == if a == pc then 1 else 0;
    assert Count([a, b], pc) == Count([a], pc) + if b == pc then 1 else 0;
  }

  /** The only connection is lent, and two threads wait for it. */
  function TwoWait(released: bool): State {
    State(Pool([], map[0 := 0], 1, 1, false, 1), [Outside, Sleeping, Sleeping], [Handle(0, released, false)])
  }

  lemma {:induction false} ReachTwoWait() returns (a: Step, b: Step, c: Step)
    ensures var s0 := Fresh([true], 0, 1, 3);
            Enabled(s0, a) && Enabled(Next(s0, a), b) && Enabled(Next(Next(s0, a), b), c)
            && Next(Next(Next(s0, a), b), c) == TwoWait(false)
  {
    a, b, c := Enter(0, [Round(0, Alive)]), Enter(1, []), Enter(2, []);
    var s0 := Fresh([true], 0, 1, 3);
    assert [true][..0] == [] && Opened(0, [true], 0) == [Entry(0, 0)];
    assert s0 == State(Pool([Entry(0, 0)], map[], 0, 1, false, 1), [Outside, Outside, Outside], []);
    var lent := Pool([], map[0 := 0], 1, 1, false, 1);
    assert Next(s0, a) == State(lent, [Outside, Outside, Outside], [Handle(0, false, false)]);
    assert Next(Next(s0, a), b) == State(lent, [Outside, Sleeping, Outside], [Handle(0, false, false)]);
  }

  lemma {:induction false} LosesIt()
    ensures var s, back, late := TwoWait(true), Return(0, 0, 1), LateTimeOut(1);
            Enabled(s, back) && Enabled(Next(s, back), late) && !NoLostWakeUp(Next(Next(s, back), late))
  {
    var s5 := Next(TwoWait(true), Return(0, 0, 1));
    assert s5.threads == [Outside, Notified, Sleeping] && |s5.pool.idle| == 1;
    var s6 := Next(s5, LateTimeOut(1));
    assert s6.threads == [Outside, Outside, Sleeping] && |s6.pool.idle| == 1;
    CountThree(Outside, Outside, Sleeping, Sleeping);
    CountThree(Outside, Outside, Sleeping, Notified);
  }

  /**
   * One connection, lent to thread 0; threads 1 and 2 wait. It comes back and thread 1 is notified, but
   * reports timeout: thread 2 sleeps on, with the connection idle.
   */
  lemma {:induction false} WakeUpLost()
    ensures exists steps :: Legal(Fresh([true], 0, 1, 3), steps) && !NoLostWakeUp(Final(Fresh([true], 0, 1, 3), steps))
  {
    var s0, back, late := Fresh([true], 0, 1, 3), Return(0, 0, 1), LateTimeOut(1);
    var a, b, c := ReachTwoWait();
    LosesIt();
    var released := Next(TwoWait(false), Release(0));
    assert released == TwoWait(true);
    var r5 := Before(Next(released, back), late, []);
    var r4 := Before(released, back, r5);
    var r3 := Before(TwoWait(false), Release(0), r4);
    var r2 := Before(Next(Next(s0, a), b), c, r3);
    var r1 := Before(Next(s0, a), b, r2);
    var r0 := Before(s0, a, r1);
  }
}
