/**
 * The timing relation between the client's heartbeat and the server's cut-off, in whole seconds
 * of one clock and without network delay: the client looks every 15 seconds whether it has sent or
 * received anything for 15, the server every 15 seconds whether a connection was silent for more than 30.
 */
module KeepAlive {
  import opened Routing

  const TICK := 15
  const LOGIN_TIMEOUT := 5

  datatype Client = Client(
    now: int,
    lastData: int,    // m_lastDataTime: set by sendJson and onReadyRead, not by a heartbeat
    sent: int,        // history: when the client last sent anything, heartbeats included
    next: int,        // when m_heartbeatTimer fires next
    first: int        // history: the first tick later than sent, or the reply to the login if that is later than sent
  )

  datatype Event = Send(at: int) | Receive(at: int) | Tick

  function Time(k: Client, e: Event): int {
    match e
    case Send(at) => at
    case Receive(at) => at
    case Tick => k.next
  }

  /** Time does not run back, and a tick is not overtaken. */
  predicate Enabled(k: Client, e: Event) {
    k.now <= Time(k, e) <= k.next
  }

  predicate TickSends(k: Client) {
    k.next - k.lastData >= 15
  }

  function Next(k: Client, e: Event): Client {
    match e
    case Send(at) => Client(at, at, at, k.next, if at < k.next then k.next else k.next + TICK)
    case Receive(at) => k.(now := at, lastData := at)
    case Tick =>
      if TickSends(k) then Client(k.next, k.lastData, k.next, k.next + TICK, k.next + TICK)
      else k.(now := k.next, next := k.next + TICK)
  }

  /** LOGIN_MSG sent at one time and answered at another, which starts the heartbeat timer. */
  function LoggedIn(asked: int, answered: int): Client {
    Client(answered, answered, asked, answered + TICK, if asked < answered then answered else answered + TICK)
  }

  ghost predicate Run(k: Client, events: seq<Event>, m: Client)
    decreases |events|
  {
    if events == [] then m == k else Enabled(k, events[0]) && Run(Next(k, events[0]), events[1..], m)
  }

  /** The grid of ticks around the last send. */
  predicate Grid(k: Client) {
    && k.sent <= k.now <= k.next && k.next - TICK <= k.now && k.lastData <= k.now
    && k.sent < k.first <= k.sent + TICK
    && (k.next == k.first || k.next == k.first + TICK || (k.next == k.first - TICK && k.sent == k.next))
  }

  // ---------- when the heartbeat comes in time ----------

  /** At the second tick after the last send nothing has been received since the first one. */
  predicate CalmAt(k: Client, e: Event) {
    e.Tick? && k.next == k.first + TICK ==> k.lastData <= k.first
  }

  predicate Calm(k: Client, events: seq<Event>)
    decreases |events|
  {
    events == [] || (CalmAt(k, events[0]) && Calm(Next(k, events[0]), events[1..]))
  }

  lemma {:induction false} CalmStep(k: Client, e: Event)
    requires Grid(k) && Enabled(k, e) && CalmAt(k, e)
    ensures Grid(Next(k, e))
  {
  }

  /** A calm client is never silent for more than 30 seconds, nor will be before its next tick. */
  lemma {:induction false} CalmRun(k: Client, events: seq<Event>, m: Client)
    requires Grid(k) && Run(k, events, m) && Calm(k, events)
    ensures Grid(m) && m.now - m.sent <= HEARTBEAT_LIMIT && m.next - m.sent <= HEARTBEAT_LIMIT
    decreases |events|
  {
    if events != [] {
      CalmStep(k, events[0]);
      CalmRun(Next(k, events[0]), events[1..], m);
    }
  }

  /** In every state of the run the client looks again within 30 seconds of its last send. */
  predicate InTime(k: Client, events: seq<Event>)
    decreases |events|
  {
    k.next - k.sent <= HEARTBEAT_LIMIT && (events == [] || InTime(Next(k, events[0]), events[1..]))
  }

  /** Over whole runs with any traffic: the heartbeat is in time throughout if and only if the run is calm. */
  lemma {:induction false} InTimeIffCalm(k: Client, events: seq<Event>, m: Client)
    requires Grid(k) && Run(k, events, m)
    ensures InTime(k, events) <==> Calm(k, events)
    decreases |events|
  {
    if events != [] && CalmAt(k, events[0]) {
      CalmStep(k, events[0]);
      InTimeIffCalm(Next(k, events[0]), events[1..], m);
    }
  }

  // ---------- prompt replies ----------

  /** Everything received is the reply to the last thing sent, no later than the first tick after it. */
  predicate Prompt(k: Client, events: seq<Event>)
    decreases |events|
  {
    events == [] || ((events[0].Receive? ==> events[0].at <= k.first) && Prompt(Next(k, events[0]), events[1..]))
  }

  lemma {:induction false} PromptIsCalm(k: Client, events: seq<Event>, m: Client)
    requires Grid(k) && (k.next == k.first + TICK ==> k.lastData <= k.first)
    requires Run(k, events, m) && Prompt(k, events)
    ensures Calm(k, events)
    decreases |events|
  {
    if events != [] {
      PromptIsCalm(Next(k, events[0]), events[1..], m);
    }
  }

  /** From a login answered within five seconds on, a client whose replies are prompt is never silent for more than 30 seconds. */
  lemma {:induction false} PromptClient(asked: int, answered: int, events: seq<Event>, m: Client)
    requires asked <= answered <= asked + LOGIN_TIMEOUT
    requires Run(LoggedIn(asked, answered), events, m) && Prompt(LoggedIn(asked, answered), events)
    ensures Calm(LoggedIn(asked, answered), events) && m.now - m.sent <= HEARTBEAT_LIMIT
  {
    PromptIsCalm(LoggedIn(asked, answered), events, m);
    CalmRun(LoggedIn(asked, answered), events, m);
  }

  /**
   * Incoming traffic alone makes a client silent for too long, although it is alive and its replies are prompt:
   * the heartbeat of second 15 is answered at once, a message from a friend arrives at second 31.
   */
  lemma {:induction false} TrafficSilences()
    ensures exists m :: Run(LoggedIn(0, 0), [Tick, Receive(16), Tick, Receive(31), Tick], m) && m.sent == 15 && m.next == 60
  {
    var k1 := Next(LoggedIn(0, 0), Tick);
    var k2 := Next(k1, Receive(16));
    var k3 := Next(k2, Tick);
    var k4 := Next(k3, Receive(31));
    var k5 := Next(k4, Tick);
    var last, late, middle := [Tick], [Receive(31), Tick], [Tick, Receive(31), Tick];
    var early := [Receive(16), Tick, Receive(31), Tick];
    assert last[1..] == [] && late[1..] == last && middle[1..] == late && early[1..] == middle;
    assert Run(k5, [], k5);
    assert Run(k4, last, k5);
    assert Run(k3, late, k5);
    assert Run(k2, middle, k5);
    assert Run(k1, early, k5);
    assert [Tick, Receive(16), Tick, Receive(31), Tick][1..] == early;
    assert Run(LoggedIn(0, 0), [Tick, Receive(16), Tick, Receive(31), Tick], k5);
  }
}
