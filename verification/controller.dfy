/** The main loop of njlr.py (`Controller.run`): one tick calls the engine
    operations in a fixed order and advances the clock; the loop stops one
    tick after every process has finished, or once the clock passes 90. */
module Controller {
  import opened Wrappers
  import opened Processes
  import opened Queues
  import opened Scheduler
  import opened Invariant

  /** The clock value past which the loop gives up. */
  const MaxTime: int := 90

  /** Arrivals: the processes arriving at this tick join the arriving list
      in name order, then the arriving and returning lists drain into
      level 1. From here on the horizon includes the current tick. */
  function Admit(cfg: Config, s: State): (r: State)
    requires Inv(cfg, s, s.time)
    ensures Inv(cfg, r, s.time + 1) && r.arriving == [] && r.returning == []
    ensures r.time == s.time && r.procs == s.procs && r.io == s.io && r.finished == s.finished
  {
    UpdateArrivingInv(cfg, s);
    ArrivingToQueueInv(cfg, UpdateArriving(s), s.time + 1);
    ArrivingToQueue(UpdateArriving(s))
  }

  /** Dispatch, then the preemption check (which dispatches again into a
      CPU it leaves vacant). */
  function Schedule(cfg: Config, s: State, h: int): (r: State)
    requires Inv(cfg, s, h)
    ensures Inv(cfg, r, h)
    ensures r.time == s.time && r.procs == s.procs && r.io == s.io && r.finished == s.finished
    ensures RespectsPriority(r)
    ensures r.cpu.None? ==> r.contextSwitch || HighestReady(r.queues) == 4
  {
    InvQueueRefs(cfg, s, h);
    QueueToCpuInv(cfg, s, h);
    InvQueueRefs(cfg, QueueToCpu(s), h);
    CheckPreemptionInv(cfg, QueueToCpu(s), h);
    CheckPreemptionRespectsPriority(cfg, QueueToCpu(s), h);
    CheckPreemption(cfg, QueueToCpu(s))
  }

  /** The CPU tick and the end of a context switch whose time is up. */
  function Tick(cfg: Config, s: State, h: int): (r: State)
    requires Inv(cfg, s, h)
    ensures Inv(cfg, r, h)
    ensures r.time == s.time && |r.procs| == |s.procs| && r.finished == s.finished
    ensures r.contextSwitch <==> RunCpu(s).contextSwitch && RunCpu(s).switchTimePass < cfg.switchDuration
  {
    RunCpuInv(cfg, s, h);
    ClearContextSwitchInv(cfg, RunCpu(s), h);
    ClearContextSwitch(cfg, RunCpu(s))
  }

  /** The I/O tick, then the decision about the occupant. */
  function Settle(cfg: Config, s: State, h: int): (r: State)
    requires Inv(cfg, s, h)
    ensures Inv(cfg, r, h)
    ensures r.time == s.time && |r.procs| == |s.procs| && s.finished <= r.finished
  {
    IoLoopInv(cfg, s, h, 0);
    RunCpu2Inv(cfg, RunIo(s), h);
    RunCpu2(cfg, RunIo(s))
  }

  /** The first half of a tick: arrivals, dispatch, preemption, the CPU
      tick and the end of a context switch. */
  function Front(cfg: Config, s: State): (r: State)
    requires Inv(cfg, s, s.time)
    ensures Inv(cfg, r, s.time + 1)
    ensures r.time == s.time && |r.procs| == |s.procs| && r.finished == s.finished
  {
    Tick(cfg, Schedule(cfg, Admit(cfg, s), s.time + 1), s.time + 1)
  }

  /** The tick without the clock: the first half, the I/O tick and the
      decision about the occupant. */
  function Body(cfg: Config, s: State): (r: State)
    requires Inv(cfg, s, s.time)
    ensures Inv(cfg, r, s.time + 1)
    ensures r.time == s.time && |r.procs| == |s.procs| && s.finished <= r.finished
  {
    Settle(cfg, Front(cfg, s), s.time + 1)
  }

  /** `update_time`, which brings the arrival horizon back to the clock. */
  function Advance(cfg: Config, s: State, h: int): (r: State)
    requires h == s.time + 1 && Inv(cfg, s, h)
    ensures Inv(cfg, r, r.time)
    ensures r.time == s.time + 1 && r.procs == s.procs && r.finished == s.finished
  {
    UpdateTimeInv(cfg, s);
    UpdateTime(s)
  }

  /** One pass of the loop body. The invariant carries over to the next
      tick, the clock advances by one and the finished list only grows. */
  function Step(cfg: Config, s: State): (r: State)
    requires Inv(cfg, s, s.time)
    ensures Inv(cfg, r, r.time)
    ensures r.time == s.time + 1 && |r.procs| == |s.procs|
    ensures s.finished <= r.finished
  {
    Advance(cfg, Body(cfg, s), s.time + 1)
  }

  /** The loop from state `s` on; `retNext` is the source's `ret_next`, set
      once the finished list has reached the number of processes. The loop
      ends after a tick that began with `retNext` set or that moved the clock
      past `MaxTime`; a tick that ends with every process finished is
      followed by exactly one more. */
  function Run(cfg: Config, s: State, retNext: bool): (r: State)
    requires Inv(cfg, s, s.time)
    requires retNext ==> |s.finished| >= |s.procs|
    ensures Inv(cfg, r, r.time) && |r.procs| == |s.procs|
    ensures r.time > s.time && s.finished <= r.finished
    ensures s.time <= MaxTime ==> r.time <= MaxTime + 1
    ensures retNext ==> r == Step(cfg, s)
    ensures !retNext && Step(cfg, s).time > MaxTime ==> r == Step(cfg, s)
    ensures !retNext && Step(cfg, s).time <= MaxTime && |Step(cfg, s).finished| >= |s.procs| ==>
      r == Step(cfg, Step(cfg, s))
    ensures r.time > MaxTime || |r.finished| >= |r.procs|
    decreases MaxTime + 1 - s.time
  {
    var s1 := Step(cfg, s);
    if retNext || s1.time > MaxTime then s1
    else Run(cfg, s1, |s1.finished| >= |s1.procs|)
  }

  /** The whole simulation of a table of freshly created, well-formed
      processes, from clock 0. */
  function Simulate(cfg: Config, procs: seq<Process>): (r: State)
    requires ConfigOk(cfg)
    requires forall j :: 0 <= j < |procs| ==> WellFormed(procs[j]) && IsFresh(procs[j])
    ensures Inv(cfg, r, r.time) && |r.procs| == |procs|
    ensures Inv(cfg, Init(procs), 0) && 1 <= r.time <= MaxTime + 1
    ensures r.time > MaxTime || |r.finished| >= |procs|
    ensures r.time <= MaxTime ==> forall j :: 0 <= j < |procs| ==> j in r.finished
    ensures CompletedInTime(r)
  {
    InitInv(cfg, procs);
    var r := Run(cfg, Init(procs), false);
    Outcome(cfg, r);
    r
  }

  /** The stop rule at the start of a simulation: when the first tick
      already finishes every process, the simulation is that tick and one
      more. */
  lemma SimulateStops(cfg: Config, procs: seq<Process>)
    requires ConfigOk(cfg)
    requires forall j :: 0 <= j < |procs| ==> WellFormed(procs[j]) && IsFresh(procs[j])
    ensures Inv(cfg, Init(procs), 0)
    ensures |Step(cfg, Init(procs)).finished| >= |procs| ==>
      Simulate(cfg, procs) == Step(cfg, Step(cfg, Init(procs)))
  {
    InitInv(cfg, procs);
  }

  /** Each finished process took at least one tick from arrival to
      completion, and completed by the end of the current tick. */
  predicate CompletedInTime(s: State)
  {
    forall j :: j in s.finished ==>
      j < |s.procs| && 1 <= Turnaround(s.procs[j]) && s.procs[j].completionTime <= s.time + 1
  }

  /** What a run's final state says about the processes: when the clock did
      not pass the limit every process finished, and each finished one took
      at least a tick. */
  lemma Outcome(cfg: Config, r: State)
    requires Inv(cfg, r, r.time)
    requires r.time > MaxTime || |r.finished| >= |r.procs|
    ensures r.time <= MaxTime ==> forall j :: 0 <= j < |r.procs| ==> j in r.finished
    ensures CompletedInTime(r)
  {
    if r.time <= MaxTime {
      AllFinished(cfg, r, r.time);
    }
  }
}
