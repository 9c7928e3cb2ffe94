/**
 * The database connection pool on values: what one hold of the pool mutex does.
 * Connections are identities; a created connection is always a new one.
 */
module PoolSteps {
  type Conn = nat

  datatype Entry = Entry(conn: Conn, lastUsed: int)

  datatype Pool = Pool(
    idle: seq<Entry>,
    borrowed: map<Conn, int>,
    active: int,
    max: int,
    shut: bool,
    nextConn: Conn)

  /** How a ping of a long-idle connection ends, and whether a replacement can be opened. */
  datatype Probe = Alive | Rebuilt | Dead

  /** Clock and probe result met by one round of the acquire loop. */
  datatype Round = Round(now: int, probe: Probe)

  /** How a hold of the mutex inside acquire ends. */
  datatype Outcome = Got(conn: Conn) | Create | Block

  const IDLE_PING_THRESHOLD := 30

  function Lend(p: Pool, conn: Conn, now: int): Pool {
    p.(borrowed := p.borrowed[conn := now])
  }

  /** The acquire loop until it returns a connection, leaves the mutex to create one, or waits. */
  function Scan(p: Pool, rounds: seq<Round>): (Pool, Outcome)
    requires |rounds| >= |p.idle|
    decreases |p.idle|
  {
    if |p.idle| > 0 then
      var e, r := p.idle[0], rounds[0];
      var taken := p.(idle := p.idle[1..], active := p.active + 1);
      if r.now - e.lastUsed > IDLE_PING_THRESHOLD && r.probe != Alive then
        if r.probe == Rebuilt then
          (Lend(taken.(nextConn := p.nextConn + 1), p.nextConn, r.now), Got(p.nextConn))
        else
          Scan(taken.(active := taken.active - 1), rounds[1..])
      else
        (Lend(taken, e.conn, r.now), Got(e.conn))
    else if p.active < p.max then (p.(active := p.active + 1), Create)
    else (p, Block)
  }

  /** Back under the mutex after an attempt to create a connection. */
  function Created(p: Pool, ok: bool, now: int, rounds: seq<Round>): (Pool, Outcome)
    requires |rounds| >= |p.idle|
  {
    if ok then (Lend(p.(nextConn := p.nextConn + 1), p.nextConn, now), Got(p.nextConn))
    else Scan(p.(active := p.active - 1), rounds)
  }

  function GiveBack(p: Pool, conn: Conn, now: int): Pool {
    var q := p.(borrowed := p.borrowed - {conn});
    if p.shut then q else q.(idle := q.idle + [Entry(conn, now)], active := q.active - 1)
  }

  function ShutDown(p: Pool): Pool {
    if p.shut then p else p.(shut := true, idle := [], borrowed := map[])
  }

  /** The entries made by the opening attempts, each of which may fail; first is the next identity to be given. */
  function Opened(first: Conn, results: seq<bool>, now: int): seq<Entry> {
    if |results| == 0 then []
    else
      var front := Opened(first, results[..|results|-1], now);
      if results[|results|-1] then front + [Entry(first + |front|, now)] else front
  }

  /** init adds to whatever the pool holds, and takes a shutdown back. */
  function Initialised(p: Pool, max: int, results: seq<bool>, now: int): Pool {
    var added := Opened(p.nextConn, results, now);
    p.(idle := p.idle + added, max := max, shut := false, nextConn := p.nextConn + |added|)
  }

  /** All a caller needs to know about a hold of the mutex. */
  predicate ScanResult(p: Pool, q: Pool, o: Outcome) {
    && q.max == p.max && q.shut == p.shut
    && |q.idle| <= |p.idle| && q.idle == p.idle[|p.idle|-|q.idle|..]
    && match o {
         case Got(conn) =>
           && q.active == p.active + 1
           && |q.idle| < |p.idle|
           && q.borrowed.Keys == p.borrowed.Keys + {conn}
           && ((conn == p.nextConn && q.nextConn == p.nextConn + 1)
               || (q.nextConn == p.nextConn && conn == p.idle[|p.idle|-|q.idle|-1].conn))
         case Create =>
           q.idle == [] && q.active == p.active + 1 <= p.max && q.borrowed == p.borrowed && q.nextConn == p.nextConn
         case Block =>
           q.idle == [] && q.active == p.active >= p.max && q.borrowed == p.borrowed && q.nextConn == p.nextConn
       }
  }

  lemma {:induction false} DropTwice<T>(s: seq<T>, k: nat)
    requires 1 <= k <= |s|
    ensures s[1..][k-1..] == s[k..]
  {
  }

  /** A dead front entry is dropped, and the scan goes on. */
  lemma {:induction false} ScanSkips(p: Pool, rounds: seq<Round>)
    requires |rounds| >= |p.idle| > 0
    requires rounds[0].now - p.idle[0].lastUsed > IDLE_PING_THRESHOLD && rounds[0].probe == Dead
    ensures Scan(p, rounds) == Scan(p.(idle := p.idle[1..]), rounds[1..])
  {
  }

  /** What holds of a scan of the rest of the queue holds of the scan of the whole queue. */
  lemma {:induction false} SkipResult(p: Pool, q: Pool, o: Outcome)
    requires |p.idle| > 0 && ScanResult(p.(idle := p.idle[1..]), q, o)
    ensures ScanResult(p, q, o)
  {
    var k := |p.idle| - |q.idle|;
    DropTwice(p.idle, k);
    assert o.Got? ==> k >= 2 && p.idle[1..][k-2] == p.idle[k-1];
  }

  /** An entry unused for more than thirty seconds whose connection is dead and cannot be replaced. */
  predicate Lost(e: Entry, r: Round) {
    r.now - e.lastUsed > 30 && r.probe == Dead
  }

  /**
   * What is handed out: the first connection that is not lost, lent from the moment it was looked at; itself if it
   * was used in the last thirty seconds or answers its ping, else its replacement. Nothing else only when all are lost.
   */
  predicate FirstFit(p: Pool, rounds: seq<Round>, q: Pool, o: Outcome)
    requires |rounds| >= |p.idle|
  {
    match o
    case Got(conn) =>
      var k := |p.idle| - |q.idle| - 1;
      && 0 <= k < |p.idle| && (forall i :: 0 <= i < k ==> Lost(p.idle[i], rounds[i]))
      && q.borrowed == p.borrowed[conn := rounds[k].now]
      && (if rounds[k].now - p.idle[k].lastUsed <= 30 || rounds[k].probe == Alive then conn == p.idle[k].conn
          else rounds[k].probe == Rebuilt && conn == p.nextConn)
    case _ => forall i :: 0 <= i < |p.idle| ==> Lost(p.idle[i], rounds[i])
  }

  lemma {:induction false} SkipFit(p: Pool, rounds: seq<Round>, q: Pool, o: Outcome)
    requires |rounds| >= |p.idle| > 0 && Lost(p.idle[0], rounds[0])
    requires FirstFit(p.(idle := p.idle[1..]), rounds[1..], q, o)
    ensures FirstFit(p, rounds, q, o)
  {
    var k := if o.Got? then |p.idle| - |q.idle| - 1 else |p.idle|;
    forall i | 0 <= i < k ensures Lost(p.idle[i], rounds[i]) {
      assert i > 0 ==> Lost(p.idle[1..][i - 1], rounds[1..][i - 1]);
    }
  }

  lemma {:induction false} ScanFirstFit(p: Pool, rounds: seq<Round>)
    requires |rounds| >= |p.idle|
    ensures var (q, o) := Scan(p, rounds); FirstFit(p, rounds, q, o)
    decreases |p.idle|
  {
    if |p.idle| > 0 && Lost(p.idle[0], rounds[0]) {
      var rest := p.(idle := p.idle[1..]);
      ScanSkips(p, rounds);
      ScanFirstFit(rest, rounds[1..]);
      SkipFit(p, rounds, Scan(rest, rounds[1..]).0, Scan(rest, rounds[1..]).1);
    }
  }

  /** However pings and clocks turn out, this is all a caller needs to know. */
  lemma {:induction false} ScanGives(p: Pool, rounds: seq<Round>)
    requires |rounds| >= |p.idle|
    ensures var (q, o) := Scan(p, rounds); ScanResult(p, q, o)
    decreases |p.idle|
  {
    if |p.idle| > 0 && rounds[0].now - p.idle[0].lastUsed > IDLE_PING_THRESHOLD && rounds[0].probe == Dead {
      var rest := p.(idle := p.idle[1..]);
      ScanSkips(p, rounds);
      ScanGives(rest, rounds[1..]);
      SkipResult(p, Scan(rest, rounds[1..]).0, Scan(rest, rounds[1..]).1);
    }
  }
}
