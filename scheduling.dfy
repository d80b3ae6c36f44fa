/** The scheduler loop of CronJob.cs (`RunTaskAsync`, `Start`, `Stop`,
    `TriggerTickEvent`), as a step machine.

    The loop waits `BaseWait`, then repeats five waits (the millisecond,
    second, minute, hour and day fields, each scaled in unchecked Int32
    arithmetic) and a tick. Each `Task.Delay` is one step of the machine:
    `Resume` is the pending delay running out, `Stop` sets the
    cancellation flag, and the loop looks at the flag when a delay ends.
    The clock is the total time waited so far, in milliseconds, counted
    from `Start`. */
module Scheduling {
  import opened Wrappers
  import opened Numbers
  import opened TimePattern

  /** The wait the loop is at: 0 is `BaseWait`, 1 to 5 the millisecond,
      second, minute, hour and day waits of one round. */
  type Stage = k: nat | k <= 5

  /** What the loop takes from its pattern: the argument of each of its
      six `Task.Delay` calls and the text every tick carries. */
  datatype Schedule = Schedule(text: string, baseWait: int, millisecond: int, second: int,
                               minute: int, hour: int, day: int)

  /** The loop's arguments, computed as the source writes them: C#'s
      unchecked multiplications, left to right. */
  function ScheduleOf(tp: TimePattern): Schedule {
    Schedule(ToString(tp), tp.baseWait, tp.millisecond, Wrap32(tp.second * 1000),
             Wrap32(Wrap32(tp.minute * 1000) * 60),
             Wrap32(Wrap32(Wrap32(tp.hour * 1000) * 60) * 60),
             Wrap32(Wrap32(Wrap32(Wrap32(tp.day * 1000) * 60) * 60) * 24))
  }

  /** The argument of the `k`-th `Task.Delay`. */
  function Delay(s: Schedule, k: Stage): int {
    match k
    case 0 => s.baseWait
    case 1 => s.millisecond
    case 2 => s.second
    case 3 => s.minute
    case 4 => s.hour
    case 5 => s.day
  }

  /** How the loop ended. */
  datatype Exit =
    | Cancelled                      // the flag was seen: silent
    | DelayRejected(delay: int)      // Task.Delay threw ArgumentOutOfRangeException: logged
    | HandlerFailed(message: string) // a Tick handler threw: logged
    | HandlerCancelled               // a Tick handler threw OperationCanceledException: silent

  datatype Phase = Idle | Waiting(stage: Stage) | Finished(exit: Exit)

  /** Events/TickEventArgs.cs: the pattern text and the sequence number. */
  datatype TickEventArgs = TickEventArgs(pattern: string, sequence: int32)

  /** One `TriggerTickEvent` call and the clock when it happened. */
  datatype Tick = Tick(args: TickEventArgs, at: int)

  /** What the subscribed handlers did when the tick was raised. */
  datatype HandlerOutcome = Returned | Threw(message: string) | ThrewCancellation

  datatype Event = Start | Stop | Resume(handler: HandlerOutcome)

  datatype Job = Job(cancelled: bool, sequence: int32, phase: Phase, clock: int, ticks: seq<Tick>)

  /** A job just constructed. */
  const Initial: Job := Job(false, 0, Idle, 0, [])

  /** Whether the loop printed "CronJob error: ..." when it ended this way. */
  predicate Logged(e: Exit) {
    e.DelayRejected? || e.HandlerFailed?
  }

  /** The line written for a handler exception. The text of .NET's own
      ArgumentOutOfRangeException message is not modelled. */
  function LogLine(e: Exit): (line: string)
    requires e.HandlerFailed?
    ensures |line| >= 15 && line[..15] == "CronJob error: " && line[15..] == e.message
  {
    "CronJob error: " + e.message
  }

  /** `await Task.Delay(d, token)`: a delay below -1 throws at once; any
      other one is pending until it runs out (-1 never does). */
  function StartDelay(s: Schedule, j: Job, k: Stage): (r: Job)
    ensures r.phase.Finished? <==> Delay(s, k) < -1
    ensures r.phase.Finished? ==> r.phase.exit == DelayRejected(Delay(s, k)) && Logged(r.phase.exit)
    ensures !r.phase.Finished? ==> r.phase == Waiting(k)
    ensures r == j.(phase := r.phase)
  {
    var d := Delay(s, k);
    if d < -1 then j.(phase := Finished(DelayRejected(d))) else j.(phase := Waiting(k))
  }

  /** One step of the machine. */
  function Next(s: Schedule, j: Job, ev: Event): Job {
    match ev
    case Start =>
      if !j.phase.Idle? then j
      else if j.cancelled then j.(phase := Finished(Cancelled))
      else StartDelay(s, j, 0)
    case Stop => j.(cancelled := true)
    case Resume(handler) =>
      if !j.phase.Waiting? then j
      else if j.cancelled then j.(phase := Finished(Cancelled))
      else
        var k := j.phase.stage;
        var d := Delay(s, k);
        if d == -1 then j
        else
          var j1 := j.(clock := j.clock + d);
          if k < 5 then StartDelay(s, j1, k + 1)
          else
            var tick := Tick(TickEventArgs(s.text, j1.sequence), j1.clock);
            var j2 := j1.(ticks := j1.ticks + [tick]);
            match handler
            case Returned => StartDelay(s, j2.(sequence := Wrap32(j2.sequence + 1)), 1)
            case Threw(m) => j2.(phase := Finished(HandlerFailed(m)))
            case ThrewCancellation => j2.(phase := Finished(HandlerCancelled))
  }

  /** The machine after a run of events. */
  function Run(s: Schedule, j: Job, events: seq<Event>): Job
    decreases |events|
  {
    if events == [] then j else Run(s, Next(s, j, events[0]), events[1..])
  }

  /** CronJob.cs: the parsed pattern and the state its loop updates. */
  class CronJob {
    const pattern: TimePattern
    const schedule: Schedule
    var cancelled: bool
    var sequence: int32
    var phase: Phase
    var clock: int
    var ticks: seq<Tick>

    function State(): Job
      reads this
    {
      Job(cancelled, sequence, phase, clock, ticks)
    }

    constructor FromPattern(pattern: TimePattern)
      ensures this.pattern == pattern && schedule == ScheduleOf(pattern) && State() == Initial
    {
      this.pattern := pattern;
      schedule := ScheduleOf(pattern);
      cancelled, sequence, phase, clock, ticks := false, 0, Idle, 0, [];
    }

    /** `new CronJob(pattern)`: `TimePattern.TryParse` throws on a bad pattern. */
    static method New(text: string, parseAnchor: string -> Option<int>, now: int)
      returns (r: Result<CronJob, FormatError>)
      ensures r.Success? <==> TryParse(text, parseAnchor, now).Success?
      ensures r.Failure? ==> r.error == TryParse(text, parseAnchor, now).error
      ensures r.Success? ==> && fresh(r.value)
                             && r.value.pattern == TryParse(text, parseAnchor, now).value
                             && r.value.schedule == ScheduleOf(r.value.pattern)
                             && r.value.State() == Initial
    {
      var parsed := TryParse(text, parseAnchor, now);
      if parsed.Failure? {
        return Failure(parsed.error);
      }
      var job := new CronJob.FromPattern(parsed.value);
      return Success(job);
    }

    method Start()
      modifies this
      ensures State() == Next(schedule, old(State()), Event.Start)
    {
      if phase.Idle? {
        if cancelled {
          phase := Finished(Cancelled);
        } else {
          BeginDelay(0);
        }
      }
    }

    method Stop()
      modifies this
      ensures State() == Next(schedule, old(State()), Event.Stop)
    {
      cancelled := true;
    }

    /** The pending `Task.Delay` runs out. */
    method Resume(handler: HandlerOutcome)
      modifies this
      ensures State() == Next(schedule, old(State()), Event.Resume(handler))
    {
      if !phase.Waiting? {
        return;
      }
      if cancelled {
        phase := Finished(Cancelled);
        return;
      }
      var k := phase.stage;
      var d := Delay(schedule, k);
      if d == -1 {
        return;
      }
      clock := clock + d;
      if k < 5 {
        BeginDelay(k + 1);
        return;
      }
      TriggerTickEvent();
      match handler
      case Returned =>
        sequence := Wrap32(sequence + 1);
        BeginDelay(1);
      case Threw(m) =>
        phase := Finished(HandlerFailed(m));
      case ThrewCancellation =>
        phase := Finished(HandlerCancelled);
    }

    method BeginDelay(k: Stage)
      modifies this
      ensures State() == StartDelay(schedule, old(State()), k)
    {
      var d := Delay(schedule, k);
      if d < -1 {
        phase := Finished(DelayRejected(d));
      } else {
        phase := Waiting(k);
      }
    }

    method TriggerTickEvent()
      modifies this
      ensures ticks == old(ticks) + [Tick(TickEventArgs(schedule.text, sequence), clock)]
      ensures cancelled == old(cancelled) && sequence == old(sequence) && phase == old(phase) && clock == old(clock)
    {
      ticks := ticks + [Tick(TickEventArgs(schedule.text, sequence), clock)];
    }
  }

  // ---------------------------------------------------------------------
  // The waits

  /** The multiplication factor of each wait of a round. */
  function Factor(k: Stage): int
    requires k >= 1
  {
    match k
    case 1 => 1
    case 2 => 1000
    case 3 => 60000
    case 4 => 3600000
    case 5 => 86400000
  }

  /** The field each wait of a round scales. */
  function Field(tp: TimePattern, k: Stage): int
    requires k >= 1
  {
    match k
    case 1 => tp.millisecond
    case 2 => tp.second
    case 3 => tp.minute
    case 4 => tp.hour
    case 5 => tp.day
  }

  /** The ticks carry `ToString`, the first wait is `BaseWait`, and every
      later wait is its field times its factor, wrapped once to Int32. */
  lemma ScheduleOfPattern(tp: TimePattern, k: Stage)
    requires InInt32(tp.millisecond)
    ensures ScheduleOf(tp).text == ToString(tp) && Delay(ScheduleOf(tp), 0) == tp.baseWait
    ensures k >= 1 ==> Delay(ScheduleOf(tp), k) == Wrap32(Field(tp, k) * Factor(k))
  {
    if k == 3 {
      MinuteWait(tp);
    } else if k == 4 {
      HourWait(tp);
    } else if k == 5 {
      DayWait(tp);
    }
  }

  /** The chained int products of the minute wait wrap like one product. */
  lemma MinuteWait(tp: TimePattern)
    ensures Delay(ScheduleOf(tp), 3) == Wrap32(Field(tp, 3) * Factor(3))
  {
    WrapMul(tp.minute * 1000, 60);
  }

  /** The chained int products of the hour wait wrap like one product. */
  lemma HourWait(tp: TimePattern)
    ensures Delay(ScheduleOf(tp), 4) == Wrap32(Field(tp, 4) * Factor(4))
  {
    WrapMul(tp.hour * 1000, 60);
    WrapMul(tp.hour * 1000 * 60, 60);
    WrapMul(Wrap32(tp.hour * 1000) * 60, 60);
  }

  /** The chained int products of the day wait wrap like one product. */
  lemma DayWait(tp: TimePattern)
    ensures Delay(ScheduleOf(tp), 5) == Wrap32(Field(tp, 5) * Factor(5))
  {
    WrapMul(tp.day * 1000, 60);
    WrapMul(tp.day * 1000 * 60, 60);
    WrapMul(Wrap32(tp.day * 1000) * 60, 60);
    WrapMul(tp.day * 1000 * 60 * 60, 24);
    WrapMul(Wrap32(tp.day * 1000 * 60) * 60, 24);
    WrapMul(Wrap32(Wrap32(tp.day * 1000) * 60) * 60, 24);
  }

  /** The sum of the waits 1 to `k - 1` of a round. */
  function Partial(s: Schedule, k: nat): int
    requires 1 <= k <= 6
  {
    if k == 1 then 0 else Partial(s, k - 1) + Delay(s, k - 1)
  }

  /** The length of one round: the sum of its five waits. */
  function Cycle(s: Schedule): int {
    Partial(s, 6)
  }

  /** Without overflow, one round lasts exactly the pattern's period. */
  lemma CycleIsPeriod(tp: TimePattern)
    requires forall k: Stage :: k >= 1 ==> InInt32(Field(tp, k) * Factor(k))
    ensures Cycle(ScheduleOf(tp)) == Period(tp)
  {
    assert InInt32(Field(tp, 1) * Factor(1));
    ScheduleOfPattern(tp, 1);
    ScheduleOfPattern(tp, 2);
    ScheduleOfPattern(tp, 3);
    ScheduleOfPattern(tp, 4);
    ScheduleOfPattern(tp, 5);
    assert InInt32(Field(tp, 2) * Factor(2)) && InInt32(Field(tp, 3) * Factor(3));
    assert InInt32(Field(tp, 4) * Factor(4)) && InInt32(Field(tp, 5) * Factor(5));
    var s := ScheduleOf(tp);
    assert Delay(s, 1) == tp.millisecond && Delay(s, 2) == tp.second * 1000;
    assert Delay(s, 3) == tp.minute * 60000 && Delay(s, 4) == tp.hour * 3600000;
    assert Delay(s, 5) == tp.day * 86400000;
    assert Partial(s, 2) == Delay(s, 1);
    assert Partial(s, 3) == Delay(s, 1) + Delay(s, 2);
    assert Partial(s, 4) == Partial(s, 3) + Delay(s, 3);
    assert Partial(s, 5) == Partial(s, 4) + Delay(s, 4);
  }

  /** A day field of 25 overflows to a negative day wait, which throws. */
  lemma DayOverflowThrows(tp: TimePattern, j: Job)
    requires tp.day == 25 && InInt32(tp.millisecond)
    ensures Delay(ScheduleOf(tp), 5) == 2160000000 - TwoTo32
    ensures StartDelay(ScheduleOf(tp), j, 5).phase == Finished(DelayRejected(2160000000 - TwoTo32))
  {
    ScheduleOfPattern(tp, 5);
  }

  /** The clock after `BaseWait` and `n` whole rounds. */
  function Elapsed(s: Schedule, n: nat): int {
    if n == 0 then s.baseWait else Elapsed(s, n - 1) + Cycle(s)
  }

  lemma {:induction false} ElapsedIsLinear(s: Schedule, n: nat)
    ensures Elapsed(s, n) == s.baseWait + n * Cycle(s)
  {
    if n > 0 {
      ElapsedIsLinear(s, n - 1);
      assert n * Cycle(s) == (n - 1) * Cycle(s) + Cycle(s);
    }
  }

  // ---------------------------------------------------------------------
  // The invariant of the loop

  /** The loop ended inside `TriggerTickEvent`, before `Sequence++`. */
  predicate HandlerEscaped(p: Phase) {
    p.Finished? && (p.exit.HandlerFailed? || p.exit.HandlerCancelled?)
  }

  /** What every reachable state satisfies: the `i`-th tick carries the
      pattern text and sequence number `i` (wrapped) and comes after
      `BaseWait` and `i + 1` rounds; `Sequence` counts the ticks whose
      handlers returned; the clock is the time of the waits done so far. */
  predicate Inv(s: Schedule, j: Job) {
    && (forall i :: 0 <= i < |j.ticks| ==>
          j.ticks[i] == Tick(TickEventArgs(s.text, Wrap32(i)), Elapsed(s, i + 1)))
    && (HandlerEscaped(j.phase) ==> |j.ticks| > 0)
    && j.sequence == Wrap32(|j.ticks| - (if HandlerEscaped(j.phase) then 1 else 0))
    && (j.phase.Idle? ==> j.ticks == [] && j.clock == 0)
    && (j.phase.Waiting? && j.phase.stage == 0 ==> j.ticks == [] && j.clock == 0)
    && (j.phase.Waiting? && j.phase.stage > 0 ==> j.clock == Elapsed(s, |j.ticks|) + Partial(s, j.phase.stage))
  }

  lemma InitialInv(s: Schedule)
    ensures Inv(s, Initial)
  {
  }

  /** The step that raises a tick keeps the invariant. */
  lemma TickStepInv(s: Schedule, j: Job, handler: HandlerOutcome)
    requires Inv(s, j) && j.phase == Waiting(5) && !j.cancelled && Delay(s, 5) != -1
    ensures Inv(s, Next(s, j, Resume(handler)))
  {
    var n := |j.ticks|;
    var r := Next(s, j, Resume(handler));
    assert r.ticks == j.ticks + [Tick(TickEventArgs(s.text, j.sequence), Elapsed(s, n + 1))];
    assert j.sequence == Wrap32(n);
    if handler.Returned? {
      WrapCongruent(Wrap32(n) + 1, n + 1);
    }
  }

  lemma NextInv(s: Schedule, j: Job, ev: Event)
    requires Inv(s, j)
    ensures Inv(s, Next(s, j, ev))
  {
    if ev.Resume? && j.phase.Waiting? && !j.cancelled && Delay(s, j.phase.stage) != -1 && j.phase.stage == 5 {
      TickStepInv(s, j, ev.handler);
    }
  }

  lemma {:induction false} RunInv(s: Schedule, j: Job, events: seq<Event>)
    requires Inv(s, j)
    ensures Inv(s, Run(s, j, events))
    decreases |events|
  {
    if events != [] {
      NextInv(s, j, events[0]);
      RunInv(s, Next(s, j, events[0]), events[1..]);
    }
  }

  /** From construction, whatever happens: the `i`-th tick is raised with
      the five-field pattern text and sequence number `i` (as an unchecked
      Int32), after `BaseWait` and `i + 1` full rounds, never at `BaseWait`
      itself; and `Sequence` is the number of ticks whose handlers returned. */
  lemma TickPayloads(s: Schedule, events: seq<Event>)
    ensures var j := Run(s, Initial, events);
      && (forall i :: 0 <= i < |j.ticks| ==>
            && j.ticks[i].args == TickEventArgs(s.text, Wrap32(i))
            && j.ticks[i].at == s.baseWait + (i + 1) * Cycle(s))
      && j.sequence == Wrap32(|j.ticks| - (if HandlerEscaped(j.phase) then 1 else 0))
  {
    InitialInv(s);
    RunInv(s, Initial, events);
    var j := Run(s, Initial, events);
    forall i | 0 <= i < |j.ticks|
      ensures j.ticks[i].at == s.baseWait + (i + 1) * Cycle(s)
    {
      ElapsedIsLinear(s, i + 1);
    }
  }

  // ---------------------------------------------------------------------
  // Cancellation and the sequence number

  /** `Stop` only sets the flag. */
  lemma StopOnlyCancels(s: Schedule, j: Job)
    ensures Next(s, j, Stop) == j.(cancelled := true)
  {
  }

  /** Each step keeps the ticks already raised, adds at most one, and
      changes `Sequence` only together with a new tick whose handlers
      returned; the new tick carries the old `Sequence`. */
  lemma StepTicks(s: Schedule, j: Job, ev: Event)
    ensures var r := Next(s, j, ev);
      && r.ticks[..|j.ticks|] == j.ticks
      && |j.ticks| <= |r.ticks| <= |j.ticks| + 1
      && (r.sequence != j.sequence ==> |r.ticks| == |j.ticks| + 1 && ev.Resume? && ev.handler.Returned?)
      && (|r.ticks| > |j.ticks| ==> r.ticks[|j.ticks|].args.sequence == j.sequence)
  {
    var r := Next(s, j, ev);
    if |r.ticks| > |j.ticks| {
      assert r.ticks[..|j.ticks|] == j.ticks;
    }
  }

  /** Once cancellation has been requested nothing is raised and the
      sequence number is fixed, whatever happens next. */
  lemma {:induction false} NoTickAfterCancel(s: Schedule, j: Job, events: seq<Event>)
    requires j.cancelled
    ensures var r := Run(s, j, events);
      r.cancelled && r.ticks == j.ticks && r.sequence == j.sequence
    decreases |events|
  {
    if events != [] {
      NoTickAfterCancel(s, Next(s, j, events[0]), events[1..]);
    }
  }

  lemma RunOne(s: Schedule, j: Job, ev: Event)
    ensures Run(s, j, [ev]) == Next(s, j, ev)
  {
    assert [ev][1..] == [];
  }

  lemma {:induction false} RunAppend(s: Schedule, j: Job, a: seq<Event>, b: seq<Event>)
    ensures Run(s, j, a + b) == Run(s, Run(s, j, a), b)
    decreases |a|
  {
    if a == [] {
      assert a + b == b;
    } else {
      assert (a + b)[0] == a[0];
      assert (a + b)[1..] == a[1..] + b;
      RunAppend(s, Next(s, j, a[0]), a[1..], b);
    }
  }

  /** After `Stop`, the loop ends silently when its pending delay ends. */
  lemma CancelledLoopExits(s: Schedule, j: Job, handler: HandlerOutcome)
    requires j.phase.Waiting?
    ensures Run(s, j, [Stop, Resume(handler)]).phase == Finished(Cancelled)
  {
    RunAppend(s, j, [Stop], [Resume(handler)]);
    assert [Stop] + [Resume(handler)] == [Stop, Resume(handler)];
    RunOne(s, j, Stop);
    RunOne(s, Next(s, j, Stop), Resume(handler));
  }

  // ---------------------------------------------------------------------
  // Counting ticks

  function Resumes(n: nat): (r: seq<Event>)
    ensures |r| == n && forall i :: 0 <= i < n ==> r[i] == Resume(Returned)
  {
    if n == 0 then [] else Resumes(n - 1) + [Resume(Returned)]
  }

  /** Every wait runs out normally: none throws, none is infinite. */
  predicate Runnable(s: Schedule) {
    forall k: Stage :: Delay(s, k) >= 0
  }

  /** With waits that all run out and handlers that return, a started job
      whose delays have ended `1 + 5q + r` times is at wait `r + 1` of a
      round, has raised `q` ticks, counts `q` in `Sequence` and has waited
      `BaseWait`, `q` rounds and the first `r` waits of the next one. */
  lemma {:induction false} CountTicks(s: Schedule, q: nat, r: nat)
    requires Runnable(s) && r < 5
    ensures var j := Run(s, Initial, [Start] + Resumes(1 + 5 * q + r));
      && j.phase == Waiting(r + 1) && |j.ticks| == q && !j.cancelled && j.sequence == Wrap32(q)
      && j.clock == Elapsed(s, q) + Partial(s, r + 1)
    decreases q, r
  {
    var m := 1 + 5 * q + r;
    assert Delay(s, 0) >= 0 && Delay(s, 1) >= 0;
    if q == 0 && r == 0 {
      assert [Start] + Resumes(1) == [Start] + [Resume(Returned)];
      RunAppend(s, Initial, [Start], [Resume(Returned)]);
      RunOne(s, Initial, Start);
      RunOne(s, Next(s, Initial, Start), Resume(Returned));
    } else {
      var q', r' := if r > 0 then q else q - 1, if r > 0 then r - 1 else 4;
      CountTicks(s, q', r');
      assert 1 + 5 * q' + r' == m - 1;
      assert [Start] + Resumes(m) == ([Start] + Resumes(m - 1)) + [Resume(Returned)];
      RunAppend(s, Initial, [Start] + Resumes(m - 1), [Resume(Returned)]);
      var p := Run(s, Initial, [Start] + Resumes(m - 1));
      RunOne(s, p, Resume(Returned));
      assert Delay(s, r' + 1) >= 0;
      if r' == 4 {
        WrapCongruent(Wrap32(q') + 1, q' + 1);
      }
    }
  }

  /** A started job whose first five waits have run out has raised no
      tick yet: the first one needs `BaseWait` and a whole round. */
  lemma NoTickAtBaseWait(s: Schedule)
    requires Runnable(s)
    ensures Run(s, Initial, [Start] + Resumes(5)).ticks == []
  {
    CountTicks(s, 0, 4);
  }

  /** A millisecond field below -1 makes the first wait of the round
      throw, once `BaseWait` has passed, and the error is logged. */
  lemma NegativeMillisecondLogged(s: Schedule)
    requires s.baseWait >= 0 && s.millisecond < -1
    ensures var j := Run(s, Initial, [Start, Resume(Returned)]);
      j.phase == Finished(DelayRejected(s.millisecond)) && Logged(j.phase.exit) && j.ticks == []
  {
    RunAppend(s, Initial, [Start], [Resume(Returned)]);
    assert [Start] + [Resume(Returned)] == [Start, Resume(Returned)];
    RunOne(s, Initial, Start);
    RunOne(s, Next(s, Initial, Start), Resume(Returned));
  }
}
