/** The scheduler loop of Dadrass.Dev.Cron/CronJob.cs (`Action`, `Start`,
    `Stop`, `OnTick`), the simpler of the two `CronJob` classes.

    Its loop is the loop of CronJob.cs without the sequence number: the
    same six `Task.Delay` calls on the same unchecked products, the same
    look at the cancellation flag after each of them, and a `Tick` that
    carries `EventArgs.Empty`, so all a tick records is when it happened.
    Its `catch` swallows every exception, so no ending is logged.

    `SimpleNext` is one step; `Forget` maps a state of the CronJob.cs
    machine to a state of this one, and each step of the two commutes
    with it: this loop is the CronJob.cs loop with the sequence number
    and the tick payloads forgotten. */
module SimpleScheduling {
  import opened Numbers
  import opened TimePattern
  import opened Scheduling

  /** The state `Action` updates: the flag, where the loop is, the time
      waited so far and when each tick was raised. */
  datatype SimpleJob = SimpleJob(cancelled: bool, phase: Phase, clock: int, ticks: seq<int>)

  const SimpleInitial: SimpleJob := SimpleJob(false, Idle, 0, [])

  /** `await Task.Delay(d, token)`: a delay below -1 throws at once, and
      the `catch` ends the loop; any other one is pending. */
  function SimpleStartDelay(s: Schedule, j: SimpleJob, k: Stage): (r: SimpleJob)
    ensures r.phase.Finished? <==> Delay(s, k) < -1
    ensures r.phase.Finished? ==> r.phase.exit == DelayRejected(Delay(s, k))
    ensures !r.phase.Finished? ==> r.phase == Waiting(k)
    ensures r == j.(phase := r.phase)
  {
    var d := Delay(s, k);
    if d < -1 then j.(phase := Finished(DelayRejected(d))) else j.(phase := Waiting(k))
  }

  /** One step of the machine. */
  function SimpleNext(s: Schedule, j: SimpleJob, ev: Event): SimpleJob {
    match ev
    case Start =>
      if !j.phase.Idle? then j
      else if j.cancelled then j.(phase := Finished(Cancelled))
      else SimpleStartDelay(s, j, 0)
    case Stop => j.(cancelled := true)
    case Resume(handler) =>
      if !j.phase.Waiting? then j
      else if j.cancelled then j.(phase := Finished(Cancelled))
      else
        var k := j.phase.stage;
        var d := Delay(s, k);
        if d == -1 then j
        else
          var j1 := j.(clock := j.clock + d);
          if k < 5 then SimpleStartDelay(s, j1, k + 1)
          else
            var j2 := j1.(ticks := j1.ticks + [j1.clock]);
            match handler
            case Returned => SimpleStartDelay(s, j2, 1)
            case Threw(m) => j2.(phase := Finished(HandlerFailed(m)))
            case ThrewCancellation => j2.(phase := Finished(HandlerCancelled))
  }

  /** The machine after a run of events. */
  function SimpleRun(s: Schedule, j: SimpleJob, events: seq<Event>): SimpleJob
    decreases |events|
  {
    if events == [] then j else SimpleRun(s, SimpleNext(s, j, events[0]), events[1..])
  }

  /** Dadrass.Dev.Cron/CronJob.cs: the pattern's waits and the state its loop updates. */
  class SimpleCronJob {
    const schedule: Schedule
    var cancelled: bool
    var phase: Phase
    var clock: int
    var ticks: seq<int>

    function State(): SimpleJob
      reads this
    {
      SimpleJob(cancelled, phase, clock, ticks)
    }

    /** `new CronJob(pattern)`, from a pattern already parsed. */
    constructor (pattern: TimePattern)
      ensures schedule == ScheduleOf(pattern) && State() == SimpleInitial
    {
      schedule := ScheduleOf(pattern);
      cancelled, phase, clock, ticks := false, Idle, 0, [];
    }

    method Start()
      modifies this
      ensures State() == SimpleNext(schedule, old(State()), Event.Start)
    {
      if phase.Idle? {
        if cancelled {
          phase := Finished(Cancelled);
        } else {
          BeginDelay(0);
        }
      }
    }

    method Stop()
      modifies this
      ensures State() == SimpleNext(schedule, old(State()), Event.Stop)
    {
      cancelled := true;
    }

    /** The pending `Task.Delay` runs out. */
    method Resume(handler: HandlerOutcome)
      modifies this
      ensures State() == SimpleNext(schedule, old(State()), Event.Resume(handler))
    {
      if !phase.Waiting? {
        return;
      }
      if cancelled {
        phase := Finished(Cancelled);
        return;
      }
      var k := phase.stage;
      var d := Delay(schedule, k);
      if d == -1 {
        return;
      }
      clock := clock + d;
      if k < 5 {
        BeginDelay(k + 1);
        return;
      }
      OnTick();
      match handler
      case Returned =>
        BeginDelay(1);
      case Threw(m) =>
        phase := Finished(HandlerFailed(m));
      case ThrewCancellation =>
        phase := Finished(HandlerCancelled);
    }

    method BeginDelay(k: Stage)
      modifies this
      ensures State() == SimpleStartDelay(schedule, old(State()), k)
    {
      var d := Delay(schedule, k);
      if d < -1 {
        phase := Finished(DelayRejected(d));
      } else {
        phase := Waiting(k);
      }
    }

    method OnTick()
      modifies this
      ensures ticks == old(ticks) + [clock]
      ensures cancelled == old(cancelled) && phase == old(phase) && clock == old(clock)
    {
      ticks := ticks + [clock];
    }
  }

  // ---------------------------------------------------------------------
  // The CronJob.cs loop with its sequence number forgotten

  /** When each tick was raised. */
  function Times(ticks: seq<Tick>): (r: seq<int>)
    ensures |r| == |ticks| && forall i :: 0 <= i < |ticks| ==> r[i] == ticks[i].at
  {
    seq(|ticks|, i requires 0 <= i < |ticks| => ticks[i].at)
  }

  /** A CronJob.cs state seen without its sequence number and tick payloads. */
  function Forget(j: Job): SimpleJob {
    SimpleJob(j.cancelled, j.phase, j.clock, Times(j.ticks))
  }

  /** A CronJob.cs state that this state is the forgetting of. */
  function Remember(j: SimpleJob): (r: Job)
    ensures Forget(r) == j
  {
    var ticks := seq(|j.ticks|, i requires 0 <= i < |j.ticks| => Tick(TickEventArgs("", 0), j.ticks[i]));
    assert Times(ticks) == j.ticks;
    Job(j.cancelled, 0, j.phase, j.clock, ticks)
  }

  lemma ForgetInitial()
    ensures Forget(Initial) == SimpleInitial
  {
  }

  lemma ForgetStartDelay(s: Schedule, j: Job, k: Stage)
    ensures SimpleStartDelay(s, Forget(j), k) == Forget(StartDelay(s, j, k))
  {
  }

  /** Each step of the two loops commutes with forgetting. */
  lemma ForgetNext(s: Schedule, j: Job, ev: Event)
    ensures SimpleNext(s, Forget(j), ev) == Forget(Next(s, j, ev))
  {
    if ev.Resume? && j.phase.Waiting? && !j.cancelled && j.phase.stage == 5 && Delay(s, 5) != -1 {
      var j1 := j.(clock := j.clock + Delay(s, 5));
      var tick := Tick(TickEventArgs(s.text, j1.sequence), j1.clock);
      assert Times(j1.ticks + [tick]) == Times(j.ticks) + [j1.clock];
    }
  }

  /** So does every run of events. */
  lemma {:induction false} ForgetRun(s: Schedule, j: Job, events: seq<Event>)
    ensures SimpleRun(s, Forget(j), events) == Forget(Run(s, j, events))
    decreases |events|
  {
    if events != [] {
      ForgetNext(s, j, events[0]);
      ForgetRun(s, Next(s, j, events[0]), events[1..]);
    }
  }

  /** From construction, whatever happens, the `i`-th tick is raised after
      `BaseWait` and `i + 1` full rounds. */
  lemma SimpleTickTimes(s: Schedule, events: seq<Event>)
    ensures var j := SimpleRun(s, SimpleInitial, events);
      forall i :: 0 <= i < |j.ticks| ==> j.ticks[i] == s.baseWait + (i + 1) * Cycle(s)
  {
    ForgetInitial();
    ForgetRun(s, Initial, events);
    TickPayloads(s, events);
  }

  /** Once cancellation has been requested no tick is raised, whatever happens next. */
  lemma SimpleNoTickAfterCancel(s: Schedule, j: SimpleJob, events: seq<Event>)
    requires j.cancelled
    ensures var r := SimpleRun(s, j, events);
      r.cancelled && r.ticks == j.ticks
  {
    ForgetRun(s, Remember(j), events);
    NoTickAfterCancel(s, Remember(j), events);
  }

  /** With waits that all run out and handlers that return, a started job
      whose delays have ended `1 + 5q + r` times has raised `q` ticks and
      is at wait `r + 1` of a round. */
  lemma SimpleCountTicks(s: Schedule, q: nat, r: nat)
    requires Runnable(s) && r < 5
    ensures var j := SimpleRun(s, SimpleInitial, [Start] + Resumes(1 + 5 * q + r));
      j.phase == Waiting(r + 1) && |j.ticks| == q && j.clock == Elapsed(s, q) + Partial(s, r + 1)
  {
    ForgetInitial();
    ForgetRun(s, Initial, [Start] + Resumes(1 + 5 * q + r));
    CountTicks(s, q, r);
  }
}
