/** What a run of the simulation gives each process: a tick of the clock
    serves the occupant one CPU tick and each process in I/O one I/O tick,
    and nobody before arriving, so a process that finishes has been in the
    system at least as long as its bursts add up to. */
module Service {
  import opened Wrappers
  import opened Processes
  import opened Queues
  import opened Scheduler
  import opened Invariant
  import opened Controller
  import opened Accounting

  /** The invariant gives `run_cpu` what its account needs. */
  lemma InvOccupantAccount(cfg: Config, s: State, h: int)
    requires Inv(cfg, s, h)
    ensures OccupantAccount(s)
  {
    if s.cpu.Some? {
      OccupantOnlyInCpu(cfg, s, h);
    }
  }

  /** The invariant gives `run_io` what its account needs. */
  lemma InvIoAccount(cfg: Config, s: State, h: int)
    requires Inv(cfg, s, h)
    ensures IoReady(s) && IoAccount(s)
  {
    InvIoReady(cfg, s, h);
    forall k | 0 <= k < |s.io|
      ensures s.io[k] < |s.procs| && s.io[k] !in s.finished
      ensures |s.procs[s.io[k]].ioBurst| <= |s.procs[s.io[k]].cpuBurst|
    {
      OnlyInIo(cfg, s, h, k);
      assert WellFormed(s.procs[s.io[k]]);
    }
  }

  /** Whoever a tick may serve has arrived by then. */
  lemma ServedArrived(cfg: Config, s: State, h: int)
    requires Inv(cfg, s, h)
    ensures forall j :: j in Occupant(s) + Rest(s, 0) ==> j < |s.procs| && s.procs[j].arrival < h
  {
    forall j | j in Occupant(s) + Rest(s, 0) ensures j < |s.procs| && s.procs[j].arrival < h {
      if j in Occupant(s) {
        assert multiset(CpuSeq(s))[j] == 1;
      } else {
        var k :| 0 <= k < |s.io| && s.io[k] == j;
        assert j in s.io;
      }
      PlacedArrived(cfg, s, h, j);
    }
  }

  /** The CPU tick serves the occupant, and leaves it with its remaining
      time matching its tick counter. */
  lemma TickLedger(cfg: Config, s: State, h: int)
    requires Inv(cfg, s, h)
    ensures Ledger(s, Tick(cfg, s, h), Occupant(s))
    ensures OccupantSettled(Tick(cfg, s, h))
    ensures Tick(cfg, s, h).io == s.io && Tick(cfg, s, h).cpu == s.cpu
  {
    InvOccupantAccount(cfg, s, h);
    InvQueueRefs(cfg, s, h);
    RunCpuLedger(s);
    var x := RunCpu(s);
    LedgerKeep(x, ClearContextSwitch(cfg, x));
    LedgerTrans(s, x, ClearContextSwitch(cfg, x), Occupant(s), {});
  }

  /** The I/O tick serves the processes in I/O; the decision about the
      occupant serves nobody. */
  lemma SettleLedger(cfg: Config, s: State, h: int)
    requires Inv(cfg, s, h) && OccupantSettled(s)
    ensures Ledger(s, Settle(cfg, s, h), Rest(s, 0))
  {
    InvIoAccount(cfg, s, h);
    RunIoLedger(s);
    IoLoopInv(cfg, s, h, 0);
    var z := RunIo(s);
    InvOccupantAccount(cfg, z, h);
    InvQueueRefs(cfg, z, h);
    if s.cpu.Some? {
      OccupantOnlyInCpu(cfg, s, h);
      assert z.procs[s.cpu.value] == s.procs[s.cpu.value];
    }
    RunCpu2Ledger(cfg, z);
    LedgerTrans(s, z, RunCpu2(cfg, z), Rest(s, 0), {});
  }

  /** One pass of the loop serves each process at most one tick, and only
      processes that have arrived by the end of it. */
  lemma StepLedger(cfg: Config, s: State) returns (served: set<nat>)
    requires Inv(cfg, s, s.time)
    ensures Ledger(s, Step(cfg, s), served)
    ensures forall j :: j in served ==> j < |s.procs| && s.procs[j].arrival <= s.time
  {
    var h := s.time + 1;
    var a := Schedule(cfg, Admit(cfg, s), h);
    LedgerKeep(s, a);
    TickLedger(cfg, a, h);
    var y := Tick(cfg, a, h);
    LedgerTrans(s, a, y, {}, Occupant(a));
    SettleLedger(cfg, y, h);
    var w := Settle(cfg, y, h);
    if a.cpu.Some? {
      OccupantOnlyInCpu(cfg, a, h);
    }
    assert Occupant(a) !! Rest(y, 0);
    LedgerTrans(s, y, w, Occupant(a), Rest(y, 0));
    LedgerKeep(w, Advance(cfg, w, h));
    LedgerTrans(s, w, Advance(cfg, w, h), Occupant(a) + Rest(y, 0), {});
    served := Occupant(a) + Rest(a, 0);
    ServedArrived(cfg, a, h);
  }

  /** Every process has been in the system at least as long as the service
      it has had: up to its completion when it has finished, otherwise up to
      the clock (or its arrival, while it has yet to arrive). */
  predicate Budget(s: State)
  {
    forall j :: 0 <= j < |s.procs| ==>
      Spent(s, j) + s.procs[j].arrival <=
        if j in s.finished then s.procs[j].completionTime
        else if s.procs[j].arrival > s.time then s.procs[j].arrival
        else s.time
  }

  lemma InitBudget(procs: seq<Process>)
    requires forall j :: 0 <= j < |procs| ==> IsFresh(procs[j])
    ensures Budget(Init(procs))
  {
  }

  /** A pass that serves only arrived processes, one tick at most, and whose
      newly finished processes complete after arriving, keeps the budget. */
  lemma BudgetCarries(s: State, r: State, served: set<nat>)
    requires Budget(s) && Ledger(s, r, served) && r.time == s.time + 1
    requires forall j :: j in served ==> j < |s.procs| && s.procs[j].arrival <= s.time
    requires forall j :: j in r.finished ==> j < |r.procs| && r.procs[j].arrival < r.procs[j].completionTime
    ensures Budget(r)
  {
    forall j | 0 <= j < |r.procs|
      ensures Spent(r, j) + r.procs[j].arrival <=
        if j in r.finished then r.procs[j].completionTime
        else if r.procs[j].arrival > r.time then r.procs[j].arrival
        else r.time
    {
      if j in s.finished {
        assert j in r.finished by { assert s.finished == r.finished[..|s.finished|]; }
      }
    }
  }

  /** One pass of the loop keeps the budget. */
  lemma StepBudget(cfg: Config, s: State)
    requires Inv(cfg, s, s.time) && Budget(s)
    ensures Budget(Step(cfg, s)) && Kept(s, Step(cfg, s))
  {
    var served := StepLedger(cfg, s);
    var r := Step(cfg, s);
    assert FinishedOk(r);
    BudgetCarries(s, r, served);
  }

  /** Every process keeps its arrival time and bursts from `s` to `r`. */
  predicate Kept(s: State, r: State)
  {
    |r.procs| == |s.procs| && forall j :: 0 <= j < |s.procs| ==> SameBursts(s.procs[j], r.procs[j])
  }

  lemma KeptTrans(a: State, b: State, c: State)
    requires Kept(a, b) && Kept(b, c)
    ensures Kept(a, c)
  {
  }

  /** The loop keeps the budget to its end. */
  lemma {:induction false} RunBudget(cfg: Config, s: State, retNext: bool)
    requires Inv(cfg, s, s.time) && Budget(s)
    requires retNext ==> |s.finished| >= |s.procs|
    ensures Budget(Run(cfg, s, retNext)) && Kept(s, Run(cfg, s, retNext))
    decreases MaxTime + 1 - s.time
  {
    var r := Run(cfg, s, retNext);
    StepBudget(cfg, s);
    var s1 := Step(cfg, s);
    if retNext || s1.time > MaxTime {
      assert r == s1;
    } else {
      var next := |s1.finished| >= |s1.procs|;
      RunBudget(cfg, s1, next);
      assert r == Run(cfg, s1, next);
      KeptTrans(s, s1, r);
    }
  }

  /** Within the budget, a finished process has been in the system at least
      as long as all its bursts, so it has waited at least as long as its
      I/O bursts. */
  lemma FinishedService(s: State)
    requires Budget(s)
    ensures forall j :: j in s.finished && j < |s.procs| ==>
      && Turnaround(s.procs[j]) >= Sum(s.procs[j].cpuBurst) + Sum(s.procs[j].ioBurst)
      && Waiting(s.procs[j]) >= Sum(s.procs[j].ioBurst)
  {
    forall j | j in s.finished && j < |s.procs|
      ensures Turnaround(s.procs[j]) >= Sum(s.procs[j].cpuBurst) + Sum(s.procs[j].ioBurst)
    {
      assert Spent(s, j) + s.procs[j].arrival <= s.procs[j].completionTime;
    }
  }

  /** `get_turnaround_time` and `get_waiting_time` after a whole simulation:
      every finished process spent at least its CPU and I/O bursts in the
      system, and waited at least its I/O bursts. */
  lemma SimulateService(cfg: Config, procs: seq<Process>)
    requires ConfigOk(cfg)
    requires forall j :: 0 <= j < |procs| ==> WellFormed(procs[j]) && IsFresh(procs[j])
    ensures var r := Simulate(cfg, procs);
      forall j :: j in r.finished ==>
        && j < |r.procs| && r.procs[j].cpuBurst == procs[j].cpuBurst && r.procs[j].ioBurst == procs[j].ioBurst
        && Turnaround(r.procs[j]) >= Sum(procs[j].cpuBurst) + Sum(procs[j].ioBurst)
        && Waiting(r.procs[j]) >= Sum(procs[j].ioBurst)
  {
    InitInv(cfg, procs);
    InitBudget(procs);
    RunBudget(cfg, Init(procs), false);
    var r := Simulate(cfg, procs);
    assert r == Run(cfg, Init(procs), false);
    FinishedService(r);
  }
}
