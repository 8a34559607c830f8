// timer/timer_engine.go: jobs read from the timer configuration, each firing
// a pending task into the auto scheduler once its interval has passed since
// its last run. Durations and instants are ticks of one second; a job that
// never ran has `lastRun` None (Go's zero `time.Time`). Parsing the interval
// text (`time.ParseDuration`) is the parameter `parse`.
module GoTimer {
  import opened Wrappers
  import opened GoTypes
  import Clock
  import GoTask
  import GoPriorityQueue
  import GoGlobalState
  import GoAutoScheduler

  /** One entry of `config.TimerConfig.Jobs`, its task template flattened in. */
  datatype JobConfig = JobConfig(name: string, interval: string, targetAgent: string,
                                 title: string, description: string, priority: string)

  datatype TimerConfig = TimerConfig(enabled: bool, jobs: seq<JobConfig>)

  /** A runtime job. The interval may be zero or negative, as a parsed Go duration can be. */
  datatype TimerJob = TimerJob(name: string, interval: int, targetAgent: string, title: string,
                               description: string, priority: string, lastRun: Option<nat>, enabled: bool)

  /** The job a configuration entry with a parsed interval becomes: enabled,
      never run, and Medium when it names no priority. */
  function NewJob(c: JobConfig, interval: int): (j: TimerJob)
    ensures j.name == c.name && j.interval == interval && j.targetAgent == c.targetAgent
    ensures j.title == c.title && j.description == c.description
    ensures j.priority == if c.priority == "" then GoPriorityQueue.Medium else c.priority
    ensures j.lastRun == None && j.enabled
  {
    TimerJob(c.name, interval, c.targetAgent, c.title, c.description,
             if c.priority == "" then GoPriorityQueue.Medium else c.priority, None, true)
  }

  /** The configured jobs whose interval parses, in configuration order. */
  function Configured(cs: seq<JobConfig>, parse: string -> Option<int>): (js: seq<TimerJob>)
    ensures |js| <= |cs|
    ensures forall k :: 0 <= k < |js| ==> js[k].enabled && js[k].lastRun == None && js[k].priority != ""
    decreases |cs|
  {
    if cs == [] then []
    else
      var c := cs[|cs| - 1];
      var rest := Configured(cs[..|cs| - 1], parse);
      match parse(c.interval)
      case None => rest
      case Some(d) => rest + [NewJob(c, d)]
  }

  /** `NewTimerEngine`'s job list: none for a nil or disabled configuration. */
  function JobsOf(cfg: Option<TimerConfig>, parse: string -> Option<int>): seq<TimerJob>
  {
    if cfg.Some? && cfg.value.enabled then Configured(cfg.value.jobs, parse) else []
  }

  /** When every interval parses, every configured job is kept, in order. */
  lemma {:induction false} ConfiguredKeepsAll(cs: seq<JobConfig>, parse: string -> Option<int>)
    requires forall k :: 0 <= k < |cs| ==> parse(cs[k].interval).Some?
    ensures |Configured(cs, parse)| == |cs|
    ensures forall k :: 0 <= k < |cs| ==> Configured(cs, parse)[k] == NewJob(cs[k], parse(cs[k].interval).value)
    decreases |cs|
  {
    if cs != [] {
      var init := cs[..|cs| - 1];
      ConfiguredKeepsAll(init, parse);
      assert forall k :: 0 <= k < |init| ==> init[k] == cs[k];
    }
  }

  /** A configuration entry whose interval does not parse yields no job. */
  lemma {:induction false} ConfiguredSkips(cs: seq<JobConfig>, c: JobConfig, parse: string -> Option<int>)
    requires parse(c.interval).None?
    ensures Configured(cs + [c], parse) == Configured(cs, parse)
  {
    assert (cs + [c])[..|cs|] == cs;
  }

  /** The firing rule of `checkAndFire`. */
  predicate Due(j: TimerJob, now: nat)
  {
    j.enabled && (j.lastRun.None? || now - j.lastRun.value >= j.interval)
  }

  /** The task `fireJob` builds at `now`. */
  function FiredTask(j: TimerJob, now: nat): GoTask.Fields
  {
    GoTask.Fields(GoTask.GenerateTaskID(now), j.title, j.description, j.targetAgent, "timer_engine",
                  GoTask.Pending, j.priority, [], [], None, now, now,
                  map["source" := Str("timer"), "timer_job" := Str(j.name), "fired_at" := Str(Clock.Format(now))])
  }

  /** The tasks one check fires, in job order: one per due job. */
  function Fired(js: seq<TimerJob>, now: nat): (ts: seq<GoTask.Fields>)
    ensures |ts| <= |js|
    decreases |js|
  {
    if js == [] then []
    else
      var j := js[|js| - 1];
      Fired(js[..|js| - 1], now) + (if Due(j, now) then [FiredTask(j, now)] else [])
  }

  lemma FiredSnoc(js: seq<TimerJob>, j: TimerJob, now: nat)
    ensures Fired(js + [j], now) == Fired(js, now) + (if Due(j, now) then [FiredTask(j, now)] else [])
  {
    assert (js + [j])[..|js|] == js;
  }

  /** A fired task is the task of a due job, and every due job has its task
      fired; each is pending, assigned by the timer engine, marked as coming
      from the timer, and carries the one ID of the tick. */
  lemma {:induction false} FiredTasks(js: seq<TimerJob>, now: nat)
    ensures forall k :: 0 <= k < |js| && Due(js[k], now) ==> FiredTask(js[k], now) in Fired(js, now)
    ensures forall t :: t in Fired(js, now) ==> exists j :: j in js && Due(j, now) && t == FiredTask(j, now)
    ensures forall t :: t in Fired(js, now) ==>
      t.id == GoTask.GenerateTaskID(now) && t.assignedBy == "timer_engine" && t.status == GoTask.Pending &&
      "source" in t.metadata && t.metadata["source"] == Str("timer") && "timer_job" in t.metadata
    decreases |js|
  {
    if js != [] {
      var init := js[..|js| - 1];
      FiredTasks(init, now);
      assert js == init + [js[|js| - 1]];
      FiredSnoc(init, js[|js| - 1], now);
      forall k | 0 <= k < |init| ensures init[k] == js[k] { }
    }
  }

  /** A job after the check at `now`: stamped when it fired, untouched otherwise. */
  function Advance(j: TimerJob, now: nat): (r: TimerJob)
    ensures Due(j, now) ==> r == j.(lastRun := Some(now))
    ensures !Due(j, now) ==> r == j
  {
    if Due(j, now) then j.(lastRun := Some(now)) else j
  }

  /** The job list after the check at `now`. */
  function AfterCheck(js: seq<TimerJob>, now: nat): (r: seq<TimerJob>)
    ensures |r| == |js|
    decreases |js|
  {
    if js == [] then [] else AfterCheck(js[..|js| - 1], now) + [Advance(js[|js| - 1], now)]
  }

  /** Each job is advanced on its own, and keeps its place. */
  lemma {:induction false} AfterCheckAt(js: seq<TimerJob>, now: nat)
    ensures forall k :: 0 <= k < |js| ==> AfterCheck(js, now)[k] == Advance(js[k], now)
    decreases |js|
  {
    if js != [] {
      var init := js[..|js| - 1];
      AfterCheckAt(init, now);
      assert forall k :: 0 <= k < |init| ==> init[k] == js[k];
    }
  }

  /** The queues after the scheduler's `AddTask` of each task under its own priority. */
  function Enqueued(q: map<string, seq<GoTask.Fields>>, ts: seq<GoTask.Fields>): map<string, seq<GoTask.Fields>>
    decreases |ts|
  {
    if ts == [] then q
    else
      var t := ts[|ts| - 1];
      var init := Enqueued(q, ts[..|ts| - 1]);
      init[t.priority := (if t.priority in init then init[t.priority] else []) + [t]]
  }

  /** The global state's task map after the same `AddTask` calls. */
  function Recorded(m: map<string, Task>, ts: seq<GoTask.Fields>): map<string, Task>
    decreases |ts|
  {
    if ts == [] then m
    else
      var t := ts[|ts| - 1];
      Recorded(m, ts[..|ts| - 1])[t.id := GoAutoScheduler.ToTypesTask(t)]
  }

  lemma {:induction false} EnqueuedAppend(q: map<string, seq<GoTask.Fields>>, a: seq<GoTask.Fields>, b: seq<GoTask.Fields>)
    ensures Enqueued(q, a + b) == Enqueued(Enqueued(q, a), b)
    decreases |b|
  {
    if b == [] {
      assert a + b == a;
    } else {
      var init := b[..|b| - 1];
      EnqueuedAppend(q, a, init);
      assert (a + b)[..|a + b| - 1] == a + init;
    }
  }

  lemma {:induction false} RecordedAppend(m: map<string, Task>, a: seq<GoTask.Fields>, b: seq<GoTask.Fields>)
    ensures Recorded(m, a + b) == Recorded(Recorded(m, a), b)
    decreases |b|
  {
    if b == [] {
      assert a + b == a;
    } else {
      var init := b[..|b| - 1];
      RecordedAppend(m, a, init);
      assert (a + b)[..|a + b| - 1] == a + init;
    }
  }

  /** All tasks of one check share one ID, so the global state keeps only the
      last of them. */
  lemma {:induction false} OnlyLastRecorded(m: map<string, Task>, ts: seq<GoTask.Fields>, id: string)
    requires ts != [] && forall k :: 0 <= k < |ts| ==> ts[k].id == id
    ensures Recorded(m, ts) == m[id := GoAutoScheduler.ToTypesTask(ts[|ts| - 1])]
    decreases |ts|
  {
    var init := ts[..|ts| - 1];
    if init != [] {
      OnlyLastRecorded(m, init, id);
      assert init[|init| - 1] == ts[|ts| - 2];
    }
  }

  /** The first check after construction fires every job, in job order. */
  lemma {:induction false} FirstCheckFiresAll(js: seq<TimerJob>, now: nat)
    requires forall k :: 0 <= k < |js| ==> js[k].enabled && js[k].lastRun == None
    ensures |Fired(js, now)| == |js|
    ensures forall k :: 0 <= k < |js| ==> Fired(js, now)[k] == FiredTask(js[k], now)
    decreases |js|
  {
    if js != [] {
      var init := js[..|js| - 1];
      FirstCheckFiresAll(init, now);
      assert js == init + [js[|js| - 1]];
      FiredSnoc(init, js[|js| - 1], now);
      assert Due(js[|js| - 1], now);
    }
  }

  /** Every configured job fires at the first check. */
  lemma ConfiguredFireAtFirstCheck(cfg: Option<TimerConfig>, parse: string -> Option<int>, now: nat)
    ensures |Fired(JobsOf(cfg, parse), now)| == |JobsOf(cfg, parse)|
  {
    FirstCheckFiresAll(JobsOf(cfg, parse), now);
  }

  /** A second check at the same instant fires nothing when every interval is positive. */
  lemma {:induction false} NoRefireAtSameTick(js: seq<TimerJob>, now: nat)
    requires forall k :: 0 <= k < |js| ==> js[k].interval > 0
    ensures Fired(AfterCheck(js, now), now) == []
    decreases |js|
  {
    if js != [] {
      var init := js[..|js| - 1];
      NoRefireAtSameTick(init, now);
      var a := AfterCheck(js, now);
      assert a[..|a| - 1] == AfterCheck(init, now);
      assert !Due(a[|a| - 1], now);
    }
  }

  class TimerEngine {
    var jobs: seq<TimerJob>
    const scheduler: GoAutoScheduler.AutoScheduler
    /** Whether the tick loop goroutine runs. */
    var running: bool
    /** Whether `stopCh` is closed. */
    var stopped: bool

    /** `NewTimerEngine`. */
    constructor (s: GoAutoScheduler.AutoScheduler, cfg: Option<TimerConfig>, parse: string -> Option<int>)
      ensures scheduler == s && jobs == JobsOf(cfg, parse) && !running && !stopped
    {
      var js := [];
      if cfg.Some? && cfg.value.enabled {
        var cs := cfg.value.jobs;
        var i := 0;
        while i < |cs|
          invariant 0 <= i <= |cs|
          invariant js == Configured(cs[..i], parse)
        {
          assert cs[..i + 1][..i] == cs[..i];
          var d := parse(cs[i].interval);
          if d.Some? {
            js := js + [NewJob(cs[i], d.value)];
          }
          i := i + 1;
        }
        assert cs[..i] == cs;
      }
      scheduler, jobs := s, js;
      running, stopped := false, false;
    }

    /** There is no tick loop without jobs. */
    method Start()
      modifies this
      ensures running == (|old(jobs)| > 0 || old(running))
      ensures jobs == old(jobs) && stopped == old(stopped)
    {
      if |jobs| == 0 {
        return;
      }
      running := true;
    }

    /** Closes `stopCh` and waits for the tick loop to end. Closing it a
        second time panics in Go: `panicked`, and nothing changes. */
    method Stop() returns (panicked: bool)
      modifies this
      ensures panicked <==> old(stopped)
      ensures !panicked ==> stopped && !running && jobs == old(jobs)
      ensures panicked ==> stopped == old(stopped) && running == old(running) && jobs == old(jobs)
    {
      if stopped {
        return true;
      }
      stopped, running := true, false;
      return false;
    }

    /** `fireJob`: the scheduler's `AddTask` of the job's task under the job's priority. */
    method FireJob(j: TimerJob, now: nat)
      modifies scheduler, if scheduler.globalState.Some? then {scheduler.globalState.value} else {}
      ensures scheduler.taskQueues == Enqueued(old(scheduler.taskQueues), [FiredTask(j, now)])
      ensures GoAutoScheduler.QueueTotal(scheduler.taskQueues) == old(GoAutoScheduler.QueueTotal(scheduler.taskQueues)) + 1
      ensures scheduler.agentLoads == old(scheduler.agentLoads) && scheduler.globalState == old(scheduler.globalState)
      ensures scheduler.tickInterval == old(scheduler.tickInterval)
      ensures scheduler.globalState.Some? ==> scheduler.globalState.value.Snapshot() == old(scheduler.globalState.value.Snapshot()).(
        tasks := Recorded(old(scheduler.globalState.value.tasks), [FiredTask(j, now)]),
        version := old(scheduler.globalState.value.version) + 1)
      ensures old(scheduler.Valid()) ==> scheduler.Valid()
    {
      scheduler.AddTask(FiredTask(j, now), j.priority);
    }

    /** What the first `i` rounds of `checkAndFire` have done to the scheduler,
        starting from queues `q0` holding `total0` tasks and a global state
        that was `snap0`. */
    ghost predicate Progress(js: seq<TimerJob>, i: nat, now: nat, q0: map<string, seq<GoTask.Fields>>, total0: nat,
                             loads0: map<string, GoAutoScheduler.AgentLoad>, tick0: nat,
                             gs: Option<GoGlobalState.GlobalState>, snap0: Option<GoGlobalState.Fields>, valid: bool)
      reads scheduler, if gs.Some? then {gs.value} else {}
      requires i <= |js|
    {
      scheduler.taskQueues == Enqueued(q0, Fired(js[..i], now)) &&
      GoAutoScheduler.QueueTotal(scheduler.taskQueues) == total0 + |Fired(js[..i], now)| &&
      scheduler.agentLoads == loads0 && scheduler.globalState == gs && scheduler.tickInterval == tick0 &&
      (gs.Some? ==> snap0.Some? && gs.value.Snapshot() == snap0.value.(
        tasks := Recorded(snap0.value.tasks, Fired(js[..i], now)),
        version := snap0.value.version + |Fired(js[..i], now)|)) &&
      (valid ==> scheduler.Valid())
    }

    /** Round `i` of `checkAndFire`: job `i` fires if it is due. */
    method CheckJob(js: seq<TimerJob>, i: nat, now: nat, ghost q0: map<string, seq<GoTask.Fields>>, ghost total0: nat,
                    ghost loads0: map<string, GoAutoScheduler.AgentLoad>, ghost tick0: nat,
                    ghost gs: Option<GoGlobalState.GlobalState>, ghost snap0: Option<GoGlobalState.Fields>, ghost valid: bool)
      requires i < |js| && Progress(js, i, now, q0, total0, loads0, tick0, gs, snap0, valid)
      modifies scheduler, if gs.Some? then {gs.value} else {}
      ensures Progress(js, i + 1, now, q0, total0, loads0, tick0, gs, snap0, valid)
    {
      assert js[..i + 1] == js[..i] + [js[i]];
      FiredSnoc(js[..i], js[i], now);
      var j := js[i];
      if Due(j, now) {
        EnqueuedAppend(q0, Fired(js[..i], now), [FiredTask(j, now)]);
        if gs.Some? {
          RecordedAppend(snap0.value.tasks, Fired(js[..i], now), [FiredTask(j, now)]);
        }
        FireJob(j, now);
      } else {
        assert Fired(js[..i + 1], now) == Fired(js[..i], now);
      }
    }

    /** The loop of `checkAndFire` over the jobs `js`: every due job fires, in
        job order; `out` is the list with each fired job stamped with `now`. */
    method FireDue(js: seq<TimerJob>, now: nat) returns (out: seq<TimerJob>)
      modifies scheduler, if scheduler.globalState.Some? then {scheduler.globalState.value} else {}
      ensures out == AfterCheck(js, now)
      ensures scheduler.taskQueues == Enqueued(old(scheduler.taskQueues), Fired(js, now))
      ensures GoAutoScheduler.QueueTotal(scheduler.taskQueues) ==
        old(GoAutoScheduler.QueueTotal(scheduler.taskQueues)) + |Fired(js, now)|
      ensures scheduler.agentLoads == old(scheduler.agentLoads) && scheduler.globalState == old(scheduler.globalState)
      ensures scheduler.tickInterval == old(scheduler.tickInterval)
      ensures scheduler.globalState.Some? ==> scheduler.globalState.value.Snapshot() == old(scheduler.globalState.value.Snapshot()).(
        tasks := Recorded(old(scheduler.globalState.value.tasks), Fired(js, now)),
        version := old(scheduler.globalState.value.version) + |Fired(js, now)|)
      ensures old(scheduler.Valid()) ==> scheduler.Valid()
    {
      ghost var gs := scheduler.globalState;
      ghost var q0 := scheduler.taskQueues;
      ghost var total0 := GoAutoScheduler.QueueTotal(q0);
      ghost var snap0 := if gs.Some? then Some(gs.value.Snapshot()) else None;
      ghost var valid := scheduler.Valid();
      assert js[..0] == [];
      out := [];
      var i := 0;
      while i < |js|
        invariant 0 <= i <= |js| && out == AfterCheck(js[..i], now)
        invariant Progress(js, i, now, q0, total0, old(scheduler.agentLoads), old(scheduler.tickInterval), gs, snap0, valid)
      {
        CheckJob(js, i, now, q0, total0, old(scheduler.agentLoads), old(scheduler.tickInterval), gs, snap0, valid);
        assert js[..i + 1][..i] == js[..i];
        out := out + [Advance(js[i], now)];
        i := i + 1;
      }
      assert js[..i] == js;
    }

    /** `checkAndFire`: every due job fires, in job order, and is stamped with `now`. */
    method CheckAndFire(now: nat)
      modifies this, scheduler, if scheduler.globalState.Some? then {scheduler.globalState.value} else {}
      ensures jobs == AfterCheck(old(jobs), now)
      ensures running == old(running) && stopped == old(stopped)
      ensures scheduler.taskQueues == Enqueued(old(scheduler.taskQueues), Fired(old(jobs), now))
      ensures GoAutoScheduler.QueueTotal(scheduler.taskQueues) ==
        old(GoAutoScheduler.QueueTotal(scheduler.taskQueues)) + |Fired(old(jobs), now)|
      ensures scheduler.agentLoads == old(scheduler.agentLoads) && scheduler.globalState == old(scheduler.globalState)
      ensures scheduler.tickInterval == old(scheduler.tickInterval)
      ensures scheduler.globalState.Some? ==> scheduler.globalState.value.Snapshot() == old(scheduler.globalState.value.Snapshot()).(
        tasks := Recorded(old(scheduler.globalState.value.tasks), Fired(old(jobs), now)),
        version := old(scheduler.globalState.value.version) + |Fired(old(jobs), now)|)
      ensures old(scheduler.Valid()) ==> scheduler.Valid()
    {
      jobs := FireDue(jobs, now);
    }

    /** `AddJob` appends the job. */
    method AddJob(j: TimerJob)
      modifies this
      ensures jobs == old(jobs) + [j] && running == old(running) && stopped == old(stopped)
    {
      jobs := jobs + [j];
    }

    /** `GetJobs`: the jobs in their order. */
    function GetJobs(): (r: seq<TimerJob>)
      reads this
      ensures |r| == |jobs| && forall k :: 0 <= k < |r| ==> r[k] == jobs[k]
    {
      jobs
    }
  }
}
