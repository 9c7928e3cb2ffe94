/**
 * The Redis client: its record of subscribed channels against what the broker holds for the
 * subscription connection, through write failures, connection loss and resubscription.
 * The broker set belongs to the present connection: a new connection starts with none.
 */
module RedisClient {
  /** _subcribe_context: null, usable, or with err set. */
  datatype Context = Null | Live | Broken

  /** What one redisBufferWrite reports. */
  datatype Outcome = Partial | Done | Error

  datatype Links = Links(context: Context, channels: set<int>, broker: set<int>)

  /** The two sides agree on a usable connection. */
  predicate Agree(r: Links) {
    r.context == Live ==> r.broker == r.channels
  }

  predicate AllPartial(outcomes: seq<Outcome>) {
    forall i :: 0 <= i < |outcomes| ==> outcomes[i] == Partial
  }

  /** The write loop succeeds when the first report that is not partial is done. */
  function Flushed(outcomes: seq<Outcome>): (ok: bool)
    ensures AllPartial(outcomes) ==> !ok
  {
    if outcomes == [] then false
    else if outcomes[0] == Partial then Flushed(outcomes[1..])
    else outcomes[0] == Done
  }

  function Elements(order: seq<int>): set<int> {
    if order == [] then {} else Elements(order[..|order| - 1]) + {order[|order| - 1]}
  }

  function AfterCommand(r: Links, channel: int, sub: bool, ok: bool): Links {
    if r.context != Live then r
    else if !ok then r.(context := Broken)
    else if sub then r.(broker := r.broker + {channel}, channels := r.channels + {channel})
    else r.(broker := r.broker - {channel}, channels := r.channels - {channel})
  }

  class Redis {
    var context: Context
    var channels: set<int>
    ghost var broker: set<int>

    ghost function View(): Links
      reads this
    {
      Links(context, channels, broker)
    }

    constructor ()
      ensures View() == Links(Null, {}, {})
    {
      context, channels, broker := Null, {}, {};
    }

    /** Writes out one appended command; an error leaves err set on the context. */
    method BufferWrite(outcomes: seq<Outcome>) returns (ok: bool)
      modifies this`context
      ensures ok == Flushed(outcomes)
      ensures context == if ok then old(context) else Broken
    {
      var rest := outcomes;
      while true
        invariant context == old(context) && Flushed(rest) == Flushed(outcomes)
        decreases |rest|
      {
        if rest == [] || rest[0] == Error {
          context := Broken;
          return false;
        }
        if rest[0] == Done {
          return true;
        }
        rest := rest[1..];
      }
    }

    /** The channel is recorded only when the command is out. */
    method Subscribe(channel: int, outcomes: seq<Outcome>) returns (ok: bool)
      modifies this
      ensures View() == AfterCommand(old(View()), channel, true, Flushed(outcomes))
      ensures ok <==> old(context) == Live && Flushed(outcomes)
      ensures ok ==> context == Live && channel in channels && channel in broker
      ensures !ok ==> context != Live && channels == old(channels) && broker == old(broker)
      ensures forall ch :: ch != channel ==> (ch in channels <==> ch in old(channels)) && (ch in broker <==> ch in old(broker))
    {
      if context != Live {
        return false;
      }
      ok := BufferWrite(outcomes);
      if !ok {
        return;
      }
      broker := broker + {channel};
      channels := channels + {channel};
    }

    method Unsubscribe(channel: int, outcomes: seq<Outcome>) returns (ok: bool)
      modifies this
      ensures View() == AfterCommand(old(View()), channel, false, Flushed(outcomes))
      ensures ok <==> old(context) == Live && Flushed(outcomes)
      ensures ok ==> context == Live && channel !in channels && channel !in broker
      ensures !ok ==> context != Live && channels == old(channels) && broker == old(broker)
      ensures forall ch :: ch != channel ==> (ch in channels <==> ch in old(channels)) && (ch in broker <==> ch in old(broker))
    {
      if context != Live {
        return false;
      }
      ok := BufferWrite(outcomes);
      if !ok {
        return;
      }
      broker := broker - {channel};
      channels := channels - {channel};
    }

    /** The observer's reaction to a failed redisGetReply: free the context. */
    method ReplyFailed()
      modifies this`context, this`broker
      ensures View() == old(View()).(context := Null, broker := {})
    {
      if context != Null {
        context := Null;
      }
      broker := {};
    }

    /**
     * A new connection, then one SUBSCRIBE per recorded channel: on success the broker holds exactly
     * the recorded channels, and on failure the connection is not usable. Order is the iteration
     * order of the recorded set.
     */
    method Resubscribe(connects: bool, order: seq<int>, outcomes: int -> seq<Outcome>) returns (ok: bool)
      requires context == Null && channels == Elements(order)
      modifies this`context, this`broker
      ensures channels == old(channels) && Agree(View())
      ensures ok <==> context == Live
      ensures ok <==> connects && forall i :: 0 <= i < |order| ==> Flushed(outcomes(order[i]))
    {
      if !connects {
        return false;
      }
      context, broker := Live, {};
      for i := 0 to |order|
        invariant context == Live && channels == old(channels)
        invariant broker == Elements(order[..i])
        invariant forall k :: 0 <= k < i ==> Flushed(outcomes(order[k]))
      {
        var ch := order[i];
        assert order[..i + 1][..i] == order[..i];
        ok := BufferWrite(outcomes(ch));
        if !ok {
          return;
        }
        broker := broker + {ch};
      }
      assert order[..|order|] == order;
      return true;
    }
  }

  // ---------- any number of threads ----------

  /** A command written by a thread that has still to record it. */
  datatype Op = Op(channel: int, sub: bool)

  /**
   * subscribe and unsubscribe write the command under one mutex and record the channel under
   * another; pending tells which thread is between the two, with which command.
   */
  datatype Shared = Shared(links: Links, pending: map<nat, Op>)

  datatype Step =
    | Command(thread: nat, op: Op, ok: bool)
    | Record(thread: nat)
    | Lose                    // the connection breaks
    | Free                    // redisGetReply fails, the context is freed
    | Reconnect(ok: bool)     // resubscribe, from a null context

  const START := Shared(Links(Null, {}, {}), map[])

  predicate Enabled(s: Shared, a: Step) {
    match a
    case Command(thread, _, _) => s.links.context == Live && thread !in s.pending
    case Record(thread) => thread in s.pending
    case Lose => s.links.context == Live
    case Free => s.links.context != Null
    case Reconnect(_) => s.links.context == Null
  }

  function With(xs: set<int>, op: Op): set<int> {
    if op.sub then xs + {op.channel} else xs - {op.channel}
  }

  function AfterRecord(s: Shared, thread: nat): Shared
    requires thread in s.pending
  {
    Shared(s.links.(channels := With(s.links.channels, s.pending[thread])), s.pending - {thread})
  }

  function Next(s: Shared, a: Step): Shared
    requires Enabled(s, a)
  {
    match a
    case Command(thread, op, ok) =>
      if ok then Shared(s.links.(broker := With(s.links.broker, op)), s.pending[thread := op])
      else s.(links := s.links.(context := Broken))
    case Record(thread) => AfterRecord(s, thread)
    case Lose => s.(links := s.links.(context := Broken))
    case Free => s.(links := s.links.(context := Null, broker := {}))
    case Reconnect(ok) => s.(links := Links(if ok then Live else Broken, s.links.channels, s.links.channels))
  }

  ghost predicate Run(s: Shared, steps: seq<Step>, t: Shared)
    decreases |steps|
  {
    if steps == [] then t == s else Enabled(s, steps[0]) && Run(Next(s, steps[0]), steps[1..], t)
  }

  /** One more step in front of a run. */
  lemma {:induction false} Before(s: Shared, a: Step, rest: seq<Step>, t: Shared) returns (steps: seq<Step>)
    requires Enabled(s, a) && Run(Next(s, a), rest, t)
    ensures steps == [a] + rest && Run(s, steps, t)
  {
    steps := [a] + rest;
    assert steps[1..] == rest;
  }

  /**
   * A method call is a run: a successful one is the command followed by its record, whoever else has commands
   * outstanding; a failed write is the failed command; and an unusable context lets no command through.
   */
  lemma {:induction false} CallIsRun(s: Shared, thread: nat, channel: int, sub: bool, ok: bool)
    requires thread !in s.pending
    ensures var t := Shared(AfterCommand(s.links, channel, sub, ok), s.pending);
            var write := Command(thread, Op(channel, sub), ok);
            if s.links.context != Live then t == s && !Enabled(s, write)
            else Run(s, if ok then [write, Record(thread)] else [write], t)
  {
    if s.links.context == Live {
      var write := Command(thread, Op(channel, sub), ok);
      var t := Next(s, write);
      if ok {
        var end := Next(t, Record(thread));
        assert end.pending == s.pending;
        var rest := Before(t, Record(thread), [], end);
        var steps := Before(s, write, [Record(thread)], end);
      } else {
        var steps := Before(s, write, [], t);
      }
    }
  }

  // ---------- settled channels ----------

  predicate Outstanding(s: Shared, ch: int) {
    exists thread :: thread in s.pending && s.pending[thread].channel == ch
  }

  /** Broker and record agree on the channel. */
  predicate AgreeOn(s: Shared, ch: int) {
    ch in s.links.broker <==> ch in s.links.channels
  }

  /** Every command still to be recorded for the channel says what the broker has. */
  predicate AllSay(s: Shared, ch: int, sub: bool) {
    forall thread :: thread in s.pending && s.pending[thread].channel == ch ==> s.pending[thread].sub == sub
  }

  predicate Settled(s: Shared, ch: int) {
    AllSay(s, ch, ch in s.links.broker) && (Outstanding(s, ch) || AgreeOn(s, ch))
  }

  predicate OnlyRecords(steps: seq<Step>) {
    forall i :: 0 <= i < |steps| ==> steps[i].Record?
  }

  /** However the threads finish recording, the channel ends in agreement. */
  ghost predicate WillAgree(s: Shared, ch: int) {
    forall steps, t :: Run(s, steps, t) && OnlyRecords(steps) && !Outstanding(t, ch) ==> AgreeOn(t, ch)
  }

  lemma {:induction false} RecordSettles(s: Shared, thread: nat, ch: int)
    requires thread in s.pending && Settled(s, ch)
    ensures Settled(AfterRecord(s, thread), ch)
  {
    if s.pending[thread].channel != ch && Outstanding(s, ch) {
      var other :| other in s.pending && s.pending[other].channel == ch;
      assert other in AfterRecord(s, thread).pending;
    }
  }

  lemma {:induction false} SettledAgrees(s: Shared, steps: seq<Step>, t: Shared, ch: int)
    requires Settled(s, ch) && Run(s, steps, t) && OnlyRecords(steps) && !Outstanding(t, ch)
    ensures AgreeOn(t, ch)
    decreases |steps|
  {
    if steps != [] {
      assert steps[0].Record?;
      RecordSettles(s, steps[0].thread, ch);
      SettledAgrees(Next(s, steps[0]), steps[1..], t, ch);
    }
  }

  /** Record everything for the channel, the given thread last. */
  lemma {:induction false} RecordLast(s: Shared, ch: int, last: nat) returns (steps: seq<Step>, t: Shared)
    requires last in s.pending && s.pending[last].channel == ch
    ensures Run(s, steps, t) && OnlyRecords(steps) && !Outstanding(t, ch)
    ensures t.links.broker == s.links.broker && (ch in t.links.channels <==> s.pending[last].sub)
    decreases |s.pending|
  {
    if thread :| thread in s.pending && s.pending[thread].channel == ch && thread != last {
      var next := AfterRecord(s, thread);
      assert s.pending.Keys == next.pending.Keys + {thread};
      var rest;
      rest, t := RecordLast(next, ch, last);
      steps := Before(s, Record(thread), rest, t);
    } else {
      t := AfterRecord(s, last);
      steps := Before(s, Record(last), [], t);
    }
  }

  /** A channel is settled if and only if broker and record will agree on it in whatever order its commands are recorded. */
  lemma {:induction false} SettledIff(s: Shared, ch: int)
    ensures Settled(s, ch) <==> WillAgree(s, ch)
  {
    if Settled(s, ch) {
      forall steps, t | Run(s, steps, t) && OnlyRecords(steps) && !Outstanding(t, ch) ensures AgreeOn(t, ch) {
        SettledAgrees(s, steps, t, ch);
      }
    } else if Outstanding(s, ch) {
      var last :| last in s.pending && s.pending[last].channel == ch && s.pending[last].sub != (ch in s.links.broker);
      var steps, t := RecordLast(s, ch, last);
      assert !AgreeOn(t, ch);
    } else {
      assert Run(s, [], s);
    }
  }

  // ---------- what settles and unsettles a channel ----------

  /** A step that writes to the broker's set for the channel. */
  predicate Touches(a: Step, ch: int) {
    a.Reconnect? || (a.Command? && a.ok && a.op.channel == ch)
  }

  /** The commands outstanding for the channel say what the step makes the broker hold. */
  predicate InAccord(s: Shared, a: Step, ch: int)
    requires Touches(a, ch)
  {
    AllSay(s, ch, if a.Reconnect? then ch in s.links.channels else a.op.sub)
  }

  lemma {:induction false} SamePending(s: Shared, t: Shared, ch: int)
    requires s.pending == t.pending
    ensures Outstanding(s, ch) <==> Outstanding(t, ch)
    ensures forall sub :: AllSay(s, ch, sub) <==> AllSay(t, ch, sub)
  {
  }

  lemma {:induction false} CommandSettles(s: Shared, thread: nat, op: Op, ch: int)
    requires s.links.context == Live && thread !in s.pending
    ensures var t := Next(s, Command(thread, op, true));
            if op.channel == ch then Settled(t, ch) <==> AllSay(s, ch, op.sub) else Settled(s, ch) ==> Settled(t, ch)
  {
    var t := Next(s, Command(thread, op, true));
    assert t.pending[thread] == op;
    assert forall other :: other in s.pending ==> other in t.pending && t.pending[other] == s.pending[other];
  }

  /**
   * A command or a new connection settles the channel, whatever was before, if and only if no command
   * outstanding for it says otherwise; nothing else unsettles a channel on a usable connection.
   */
  lemma {:induction false} StepSettles(s: Shared, a: Step, ch: int)
    requires Enabled(s, a)
    ensures Touches(a, ch) ==> (Settled(Next(s, a), ch) <==> InAccord(s, a, ch))
    ensures !Touches(a, ch) && s.links.context == Live && Next(s, a).links.context == Live && Settled(s, ch) ==>
              Settled(Next(s, a), ch)
  {
    match a
    case Command(thread, op, ok) =>
      if ok {
        CommandSettles(s, thread, op, ch);
      }
    case Record(thread) =>
      if Settled(s, ch) {
        RecordSettles(s, thread, ch);
      }
    case Reconnect(ok) => SamePending(s, Next(s, a), ch);
    case _ => SamePending(s, Next(s, a), ch);
  }

  /** On this run every command and every new connection is in accord with what is outstanding for the channel. */
  ghost predicate Undisturbed(s: Shared, steps: seq<Step>, ch: int)
    decreases |steps|
  {
    steps == [] ||
    (Enabled(s, steps[0]) && (Touches(steps[0], ch) ==> InAccord(s, steps[0], ch)) && Undisturbed(Next(s, steps[0]), steps[1..], ch))
  }

  lemma {:induction false} RunSettles(s: Shared, steps: seq<Step>, t: Shared, ch: int)
    requires Run(s, steps, t) && Undisturbed(s, steps, ch) && (s.links.context == Live ==> Settled(s, ch))
    ensures t.links.context == Live ==> Settled(t, ch)
    decreases |steps|
  {
    if steps != [] {
      StepSettles(s, steps[0], ch);
      RunSettles(Next(s, steps[0]), steps[1..], t, ch);
    }
  }

  /** A run with any past: once a command or a new connection is in accord, and none later is not, the channel stays settled. */
  lemma {:induction false} SettlesAgain(s: Shared, a: Step, steps: seq<Step>, t: Shared, ch: int)
    requires Enabled(s, a) && Touches(a, ch) && InAccord(s, a, ch)
    requires Run(Next(s, a), steps, t) && Undisturbed(Next(s, a), steps, ch) && t.links.context == Live
    ensures Settled(t, ch) && (!Outstanding(t, ch) ==> AgreeOn(t, ch))
  {
    StepSettles(s, a, ch);
    RunSettles(Next(s, a), steps, t, ch);
  }

  /**
   * In every run of any number of threads without a command or new connection out of accord: on a usable connection
   * broker and record agree on every channel as soon as nothing is outstanding, and will whatever the order of recording.
   */
  lemma {:induction false} BrokerMatches(steps: seq<Step>, t: Shared)
    requires Run(START, steps, t) && t.links.context == Live && forall ch :: Undisturbed(START, steps, ch)
    ensures forall ch :: Settled(t, ch) && WillAgree(t, ch)
    ensures t.pending == map[] ==> forall ch :: AgreeOn(t, ch)
  {
    forall ch ensures Settled(t, ch) && WillAgree(t, ch) && (t.pending == map[] ==> AgreeOn(t, ch)) {
      RunSettles(START, steps, t, ch);
      SettledIff(t, ch);
    }
  }

  /** Without a connection the broker holds nothing for it. */
  lemma {:induction false} NothingWithoutConnection(s: Shared, steps: seq<Step>, t: Shared)
    requires Run(s, steps, t) && (s.links.context == Null ==> s.links.broker == {})
    ensures t.links.context == Null ==> t.links.broker == {}
    decreases |steps|
  {
    if steps != [] {
      NothingWithoutConnection(Next(s, steps[0]), steps[1..], t);
    }
  }

  /** Nobody records anything for the channel. */
  ghost predicate Unrecorded(s: Shared, steps: seq<Step>, ch: int)
    decreases |steps|
  {
    steps == [] ||
    (Enabled(s, steps[0]) && (steps[0].Record? ==> s.pending[steps[0].thread].channel != ch)
     && Unrecorded(Next(s, steps[0]), steps[1..], ch))
  }

  lemma {:induction false} RecordSurvives(s: Shared, steps: seq<Step>, t: Shared, ch: int)
    requires Run(s, steps, t) && Unrecorded(s, steps, ch)
    ensures ch in t.links.channels <==> ch in s.links.channels
    decreases |steps|
  {
    if steps != [] {
      RecordSurvives(Next(s, steps[0]), steps[1..], t, ch);
    }
  }

  /**
   * A settled channel survives any number of broken, freed and replaced connections: unless somebody commands or records
   * something for it, it is recorded as it was, and the broker of any usable connection has it exactly then.
   */
  lemma {:induction false} SubscriptionSurvives(s: Shared, steps: seq<Step>, t: Shared, ch: int)
    requires Run(s, steps, t) && Unrecorded(s, steps, ch) && Undisturbed(s, steps, ch)
    requires s.links.context == Live ==> Settled(s, ch)
    requires t.links.context == Live && !Outstanding(t, ch)
    ensures ch in t.links.broker <==> ch in s.links.channels
  {
    RecordSurvives(s, steps, t, ch);
    RunSettles(s, steps, t, ch);
  }

  /** Every command is recorded before anything else happens. */
  predicate Atomic(steps: seq<Step>)
    decreases |steps|
  {
    steps == [] ||
    (if steps[0].Command? && steps[0].ok
     then |steps| > 1 && steps[1] == Record(steps[0].thread) && Atomic(steps[2..])
     else Atomic(steps[1..]))
  }

  lemma {:induction false} AtomicUndisturbed(s: Shared, steps: seq<Step>, t: Shared, ch: int)
    requires s.pending == map[] && Run(s, steps, t) && Atomic(steps)
    ensures Undisturbed(s, steps, ch) && t.pending == map[]
    decreases |steps|
  {
    if steps != [] {
      var u := Next(s, steps[0]);
      if steps[0].Command? && steps[0].ok {
        assert steps[1..][0] == steps[1] && steps[1..][1..] == steps[2..];
        var v := Next(u, steps[1]);
        assert v.pending == map[];
        AtomicUndisturbed(v, steps[2..], t, ch);
      } else {
        AtomicUndisturbed(u, steps[1..], t, ch);
      }
    }
  }

  /** With atomic operations broker and record agree on every channel of every usable connection. */
  lemma {:induction false} AtomicMatches(steps: seq<Step>, t: Shared)
    requires Run(START, steps, t) && Atomic(steps) && t.links.context == Live
    ensures forall ch :: AgreeOn(t, ch)
  {
    AtomicUndisturbed(START, steps, t, 0);
    forall ch ensures Undisturbed(START, steps, ch) {
      AtomicUndisturbed(START, steps, t, ch);
    }
    BrokerMatches(steps, t);
  }

  /** A connection lost and renewed between write and record leaves a channel recorded but not subscribed. */
  lemma {:induction false} OvertakenSubscribe(ch: int)
    ensures exists steps, t :: Run(START, steps, t) && t == Shared(Links(Live, {ch}, {}), map[]) && !Settled(t, ch)
  {
    var s1 := Next(START, Reconnect(true));
    var s2 := Next(s1, Command(0, Op(ch, true), true));
    var s3 := Next(s2, Lose);
    var s4 := Next(s3, Free);
    var s5 := Next(s4, Reconnect(true));
    var t := Next(s5, Record(0));
    var r5 := Before(s5, Record(0), [], t);
    var r4 := Before(s4, Reconnect(true), r5, t);
    var r3 := Before(s3, Free, r4, t);
    var r2 := Before(s2, Lose, r3, t);
    var r1 := Before(s1, Command(0, Op(ch, true), true), r2, t);
    var r0 := Before(START, Reconnect(true), r1, t);
    assert t.pending == map[] && t.links.channels == {ch};
  }
}
