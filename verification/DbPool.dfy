/**
 * The pool object and the handle it lends. Every method is one hold of the pool mutex;
 * what other threads do between two holds is the business of PoolRuns.dfy.
 */
module ConnectionPool {
  import opened PoolSteps
  import PoolRuns

  lemma {:induction false} OpenNext(first: Conn, results: seq<bool>, i: nat, now: int)
    requires i < |results|
    ensures var front := Opened(first, results[..i], now);
            Opened(first, results[..i+1], now) == if results[i] then front + [Entry(first + |front|, now)] else front
  {
    assert results[..i+1][..i] == results[..i];
  }

  /** One entry for each opening that succeeds, with connections numbered on and all used just now. */
  lemma {:induction false} OpenedEntries(first: Conn, results: seq<bool>, now: int)
    ensures |Opened(first, results, now)| == multiset(results)[true]
    ensures forall k :: 0 <= k < |Opened(first, results, now)| ==> Opened(first, results, now)[k] == Entry(first + k, now)
  {
    if |results| > 0 {
      var front, last := results[..|results|-1], results[|results|-1];
      assert results == front + [last];
      OpenedEntries(first, front, now);
    }
  }

  lemma {:induction false} Extend(a: seq<Entry>, b: seq<Entry>, e: Entry)
    ensures a + (b + [e]) == a + b + [e]
  {
  }

  /** On a new pool init gives the state every run of PoolRuns starts from. */
  lemma {:induction false} InitIsFresh(results: seq<bool>, now: int, max: int)
    ensures Initialised(Pool([], map[], 0, 16, false, 0), max, results, now) == PoolRuns.Fresh(results, now, max, 0).pool
  {
    var added := Opened(0, results, now);
    assert [] + added == added;
  }

  class DbPool {
    var idleConns: seq<Entry>
    var borrowedConns: map<Conn, int>
    var activeCount: int
    var maxPoolSize: int
    var isShutDown: bool
    var nextConn: Conn        // identity of the next connection the database server opens

    constructor ()
      ensures View() == Pool([], map[], 0, 16, false, 0)
    {
      idleConns, borrowedConns, activeCount, maxPoolSize, isShutDown, nextConn := [], map[], 0, 16, false, 0;
    }

    function View(): Pool
      reads this
    {
      Pool(idleConns, borrowedConns, activeCount, maxPoolSize, isShutDown, nextConn)
    }

    /** results tells which of the poolSize opening attempts succeed. */
    method Init(poolSize: int, max: int, results: seq<bool>, now: int) returns (ok: bool)
      requires |results| == if poolSize < 0 then 0 else poolSize
      modifies this
      ensures poolSize <= 0 || max < poolSize ==> !ok && View() == old(View())
      ensures poolSize > 0 && max >= poolSize ==>
                View() == Initialised(old(View()), max, results, now) && (ok <==> View().idle != [])
      ensures poolSize > 0 && max >= poolSize ==>
                && !isShutDown && maxPoolSize == max && activeCount == old(activeCount) && borrowedConns == old(borrowedConns)
                && idleConns == old(idleConns) + Opened(old(nextConn), results, now)
    {
      if poolSize <= 0 || max < poolSize {
        return false;
      }
      maxPoolSize := max;
      isShutDown := false;
      ghost var was := old(View());
      for i := 0 to poolSize
        invariant View() == Initialised(was, max, results[..i], now)
      {
        OpenNext(was.nextConn, results, i, now);
        if results[i] {
          Extend(was.idle, Opened(was.nextConn, results[..i], now), Entry(nextConn, now));
          idleConns := idleConns + [Entry(nextConn, now)];
          nextConn := nextConn + 1;
        }
      }
      assert results[..poolSize] == results;
      ok := idleConns != [];
    }

    /** The acquire loop from taking the mutex to returning, leaving to create, or waiting. */
    method Scan(rounds: seq<Round>) returns (o: Outcome, retries: nat)
      requires |rounds| >= |idleConns|
      modifies this
      ensures (View(), o) == PoolSteps.Scan(old(View()), rounds)
      ensures retries == PoolRuns.Retries(old(View()), rounds) <= old(|idleConns|)
    {
      retries := 0;
      while idleConns != []
        invariant retries + |idleConns| == old(|idleConns|)
        invariant PoolSteps.Scan(View(), rounds[retries..]) == PoolSteps.Scan(old(View()), rounds)
        invariant retries + PoolRuns.Retries(View(), rounds[retries..]) == PoolRuns.Retries(old(View()), rounds)
        decreases |idleConns|
      {
        var entry, round := idleConns[0], rounds[retries];
        assert rounds[retries..][0] == round && rounds[retries..][1..] == rounds[retries+1..];
        ghost var before := View();
        idleConns := idleConns[1..];
        activeCount := activeCount + 1;
        if round.now - entry.lastUsed > IDLE_PING_THRESHOLD {
          if round.probe != Alive {
            if round.probe == Rebuilt {
              o := Got(nextConn);
              borrowedConns := borrowedConns[nextConn := round.now];
              nextConn := nextConn + 1;
              return;
            }
            activeCount := activeCount - 1;
            assert View() == before.(idle := before.idle[1..]);
            retries := retries + 1;
            continue;
          }
        }
        borrowedConns := borrowedConns[entry.conn := round.now];
        return Got(entry.conn), retries;
      }
      if activeCount < maxPoolSize {
        activeCount := activeCount + 1;
        return Create, retries;
      }
      o := Block;
    }

    /** Re-taking the mutex after trying to create a connection outside it. */
    method AfterCreate(ok: bool, now: int, rounds: seq<Round>) returns (o: Outcome)
      requires |rounds| >= |idleConns|
      modifies this
      ensures (View(), o) == Created(old(View()), ok, now, rounds)
      ensures ok ==> o == Got(old(nextConn)) && borrowedConns == old(borrowedConns)[old(nextConn) := now] &&
                     activeCount == old(activeCount)
    {
      if ok {
        borrowedConns := borrowedConns[nextConn := now];
        o := Got(nextConn);
        nextConn := nextConn + 1;
      } else {
        activeCount := activeCount - 1;
        var retries;
        o, retries := Scan(rounds);
      }
    }

    /** notify: whether one waiter is woken. */
    method ReturnConnection(conn: Conn, now: int) returns (notify: bool)
      modifies this
      ensures View() == GiveBack(old(View()), conn, now)
      ensures notify == !old(isShutDown)
      ensures conn !in borrowedConns && forall c :: c != conn ==> (c in borrowedConns <==> c in old(borrowedConns))
      ensures notify ==> idleConns == old(idleConns) + [Entry(conn, now)] && activeCount == old(activeCount) - 1
      ensures !notify ==> idleConns == old(idleConns) && activeCount == old(activeCount)
    {
      borrowedConns := borrowedConns - {conn};
      if isShutDown {
        return false;
      }
      idleConns := idleConns + [Entry(conn, now)];
      activeCount := activeCount - 1;
      notify := true;
    }

    method ShutDown() returns (notifyAll: bool)
      modifies this
      ensures View() == PoolSteps.ShutDown(old(View()))
      ensures notifyAll == !old(isShutDown)
      ensures isShutDown && (notifyAll ==> idleConns == [] && borrowedConns == map[] && activeCount == old(activeCount))
    {
      if isShutDown {
        return false;
      }
      isShutDown := true;
      idleConns := [];
      borrowedConns := map[];
      notifyAll := true;
    }
  }

  /** A lent connection. Releasing it, explicitly or by destruction, returns it once. */
  class PooledMySQL {
    const conn: Conn
    const pool: DbPool
    var released: bool

    constructor (conn: Conn, pool: DbPool)
      ensures this.conn == conn && this.pool == pool && !released
    {
      this.conn := conn;
      this.pool := pool;
      released := false;
    }

    method Release(now: int) returns (notify: bool)
      modifies this, pool
      ensures released
      ensures pool.View() == if old(released) then old(pool.View()) else GiveBack(old(pool.View()), conn, now)
      ensures notify == (!old(released) && !old(pool.isShutDown))
    {
      if released {
        return false;
      }
      released := true;
      notify := pool.ReturnConnection(conn, now);
    }
  }

  /** A handle released by hand and then destroyed changes the pool once. */
  method ReleaseThenDestroy(h: PooledMySQL, now: int, later: int)
    requires !h.released
    modifies h, h.pool
    ensures h.pool.View() == GiveBack(old(h.pool.View()), h.conn, now)
  {
    var first := h.Release(now);
    var second := h.Release(later);
  }
}
