/** Service accounting for the engine of njlr.py: how many ticks of CPU and
    I/O a process has been given, read off its burst index, its tick counter
    and the list that holds it. `run_cpu` and `run_io` are the only places
    that hand out a tick; every other operation moves a process without
    changing what it has been given. */
module Accounting {
  import opened Wrappers
  import opened Processes
  import opened Queues
  import opened Scheduler
  import opened Invariant

  /** The sum of the first `k` elements of `xs`, or of all of them when `k`
      is at least `|xs|`. */
  function SumTo(xs: seq<int>, k: int): int
    decreases |xs|
  {
    if k <= 0 || |xs| == 0 then 0 else xs[0] + SumTo(xs[1..], k - 1)
  }

  lemma {:induction false} SumToAll(xs: seq<int>, k: int)
    requires k >= |xs|
    ensures SumTo(xs, k) == Sum(xs)
    decreases |xs|
  {
    if |xs| > 0 {
      SumToAll(xs[1..], k - 1);
    }
  }

  lemma {:induction false} SumToNext(xs: seq<int>, k: int)
    requires 0 <= k < |xs|
    ensures SumTo(xs, k + 1) == SumTo(xs, k) + xs[k]
    decreases |xs|
  {
    if k > 0 {
      SumToNext(xs[1..], k - 1);
    }
  }

  /** The ticks of service process `j` has had: every burst before its
      burst index, plus the ticks counted in the burst it is at. A process in
      the I/O list is at the I/O burst of its index, past the CPU burst of the
      same index; a finished process has had every burst. */
  function Spent(s: State, j: nat): int
    requires j < |s.procs|
  {
    var p := s.procs[j];
    if j in s.finished then Sum(p.cpuBurst) + Sum(p.ioBurst)
    else if j in s.io then SumTo(p.cpuBurst, p.idx + 1) + SumTo(p.ioBurst, p.idx) + p.quantumPassed
    else SumTo(p.cpuBurst, p.idx) + SumTo(p.ioBurst, p.idx) + p.quantumPassed
  }

  /** The fields fixed at creation: arrival time and burst lists. */
  predicate SameBursts(p: Process, q: Process)
  {
    q.arrival == p.arrival && q.cpuBurst == p.cpuBurst && q.ioBurst == p.ioBurst
  }

  /** From `s` to `r` only the processes in `ticked` gained service, one
      tick at most; arrival times and bursts stay, finished processes stay as they are,
      and a process that finishes in between completes one past the clock of
      `s`. */
  predicate Ledger(s: State, r: State, ticked: set<nat>)
  {
    && |r.procs| == |s.procs| && s.finished <= r.finished
    && forall j :: 0 <= j < |s.procs| ==>
         && SameBursts(s.procs[j], r.procs[j])
         && Spent(r, j) <= Spent(s, j) + (if j in ticked then 1 else 0)
         && (j in s.finished ==> r.procs[j] == s.procs[j])
         && (j in r.finished && j !in s.finished ==> r.procs[j].completionTime == s.time + 1)
  }

  /** The occupant, as a set. */
  function Occupant(s: State): set<nat>
  {
    if s.cpu.Some? then {s.cpu.value} else {}
  }

  /** Two accounts in a row, with disjoint ticks, before the clock moves. */
  lemma LedgerTrans(a: State, b: State, c: State, t1: set<nat>, t2: set<nat>)
    requires Ledger(a, b, t1) && Ledger(b, c, t2) && t1 !! t2 && b.time == a.time
    ensures Ledger(a, c, t1 + t2)
  {
    assert a.finished <= c.finished by {
      assert c.finished[..|a.finished|] == b.finished[..|a.finished|];
    }
    forall j | 0 <= j < |a.procs|
      ensures Spent(c, j) <= Spent(a, j) + (if j in t1 + t2 then 1 else 0)
      ensures j in c.finished && j !in a.finished ==> c.procs[j].completionTime == a.time + 1
    {
      if j in a.finished {
        assert j in b.finished by { assert a.finished == b.finished[..|a.finished|]; }
      }
    }
  }

  /** Allowing more processes a tick loses nothing. */
  lemma LedgerWiden(s: State, r: State, t: set<nat>, u: set<nat>)
    requires Ledger(s, r, t) && t <= u
    ensures Ledger(s, r, u)
  {
  }

  /** An operation that leaves the table, the I/O list and the finished list
      alone gives no service. */
  lemma LedgerKeep(s: State, r: State)
    requires r.procs == s.procs && r.io == s.io && r.finished == s.finished
    ensures Ledger(s, r, {})
  {
    assert forall j :: 0 <= j < |s.procs| ==> Spent(r, j) == Spent(s, j);
  }

  /** `a` and `b` hold the same ids, `x` aside. */
  ghost predicate SameElse(a: seq<nat>, b: seq<nat>, x: nat)
  {
    forall y :: y != x ==> (y in a <==> y in b)
  }

  /** An operation that changes one record, and moves only that process
      between the I/O and finished lists, is accounted for by that process
      alone. */
  lemma LedgerOne(s: State, r: State, id: nat, t: set<nat>)
    requires id < |s.procs| && |r.procs| == |s.procs| && r.procs == s.procs[id := r.procs[id]]
    requires s.finished <= r.finished
    requires SameElse(s.io, r.io, id) && SameElse(s.finished, r.finished, id)
    requires SameBursts(s.procs[id], r.procs[id])
    requires Spent(r, id) <= Spent(s, id) + (if id in t then 1 else 0)
    requires id in s.finished ==> r.procs[id] == s.procs[id]
    requires id in r.finished && id !in s.finished ==> r.procs[id].completionTime == s.time + 1
    ensures Ledger(s, r, t)
  {
    forall j | 0 <= j < |s.procs| && j != id
      ensures Spent(r, j) == Spent(s, j)
    {
      assert r.procs[j] == s.procs[j];
    }
  }

  // ---------------------------------------------------------------------
  // The CPU

  /** What `run_cpu` needs of the occupant for the account: it is at a CPU
      burst and is neither in the I/O list nor finished. */
  predicate OccupantAccount(s: State)
  {
    s.cpu.Some? ==>
      && s.cpu.value < |s.procs| && AtCpuBurst(s.procs[s.cpu.value])
      && s.cpu.value !in s.io && s.cpu.value !in s.finished
  }

  /** `run_cpu` gives the occupant one tick, and nothing to anyone else. */
  lemma RunCpuLedger(s: State)
    requires OccupantAccount(s)
    ensures Ledger(s, RunCpu(s), Occupant(s))
  {
    var r := RunCpu(s);
    if s.contextSwitch || Vacant(s) {
      LedgerKeep(s, r);
    } else {
      var id := s.cpu.value;
      assert Spent(r, id) == Spent(s, id) + 1;
      LedgerOne(s, r, id, Occupant(s));
    }
  }

  /** The occupant's remaining time matches its tick counter, as `run_cpu`
      leaves it, and its bursts alternate from a CPU burst. */
  predicate OccupantSettled(s: State)
  {
    s.cpu.Some? ==>
      && s.cpu.value < |s.procs| && AtCpuBurst(s.procs[s.cpu.value])
      && var p := s.procs[s.cpu.value];
      && p.burstRemaining == p.cpuBurst[p.idx] - p.quantumPassed
      && |p.cpuBurst| <= |p.ioBurst| + 1
  }

  /** Finishing at the last CPU burst: the burst ran to its end, so the
      process had every burst. */
  lemma RetireLedger(cfg: Config, s: State)
    requires OccupantAccount(s) && s.cpu.Some? && OccupantSettled(s)
    requires 1 <= s.procs[s.cpu.value].queueNumber <= 3
    requires BurstExhausted(s.procs[s.cpu.value]) && s.procs[s.cpu.value].idx >= |s.procs[s.cpu.value].ioBurst|
    ensures Ledger(s, RunCpu2(cfg, s), {})
  {
    var id := s.cpu.value;
    var p := s.procs[id];
    RunCpu2Completes(cfg, s);
    var r := RunCpu2(cfg, s);
    assert Spent(r, id) == Spent(s, id) by {
      SumToAll(p.ioBurst, p.idx);
      SumToNext(p.cpuBurst, p.idx);
      SumToAll(p.cpuBurst, p.idx + 1);
    }
    LedgerOne(s, r, id, {});
  }

  /** Leaving for I/O at the end of a CPU burst: the process is now at the
      I/O burst of the same index, the CPU burst behind it. */
  lemma ToIoLedger(cfg: Config, s: State)
    requires OccupantAccount(s) && s.cpu.Some? && OccupantSettled(s)
    requires 1 <= s.procs[s.cpu.value].queueNumber <= 3
    requires BurstExhausted(s.procs[s.cpu.value]) && s.procs[s.cpu.value].idx < |s.procs[s.cpu.value].ioBurst|
    ensures Ledger(s, RunCpu2(cfg, s), {})
  {
    var id := s.cpu.value;
    var p := s.procs[id];
    RunCpu2ToIo(cfg, s);
    var r := RunCpu2(cfg, s);
    assert Spent(r, id) == Spent(s, id) by {
      SumToNext(p.cpuBurst, p.idx);
    }
    LedgerOne(s, r, id, {});
  }

  /** Demotion moves the occupant without touching its burst index or tick
      counter. */
  lemma DemoteLedger(cfg: Config, s: State)
    requires OccupantAccount(s) && s.cpu.Some?
    requires 1 <= s.procs[s.cpu.value].queueNumber <= 3
    requires !BurstExhausted(s.procs[s.cpu.value]) && AllotmentReached(cfg, s.procs[s.cpu.value])
    ensures Ledger(s, RunCpu2(cfg, s), {})
  {
    RunCpu2Demotes(cfg, s);
    LedgerOne(s, RunCpu2(cfg, s), s.cpu.value, {});
  }

  /** So does the return to level 1. */
  lemma CycleBackLedger(cfg: Config, s: State)
    requires OccupantAccount(s) && s.cpu.Some?
    requires 1 <= s.procs[s.cpu.value].queueNumber <= 3
    requires !BurstExhausted(s.procs[s.cpu.value]) && !AllotmentReached(cfg, s.procs[s.cpu.value])
    requires QuantumExpired(s.procs[s.cpu.value])
    ensures Ledger(s, RunCpu2(cfg, s), {})
  {
    RunCpu2CyclesBack(cfg, s);
    LedgerOne(s, RunCpu2(cfg, s), s.cpu.value, {});
  }

  /** `run_cpu2` gives no service: whichever branch fires, the occupant's
      account carries over to the list it moves to. */
  lemma RunCpu2Ledger(cfg: Config, s: State)
    requires OccupantAccount(s) && OccupantSettled(s)
    requires CpuRef(s) && 1 <= CpuProcess(s).queueNumber <= 3
    requires s.cpu.None? ==> cfg.q1Allotment != 0
    ensures Ledger(s, RunCpu2(cfg, s), {})
  {
    if s.cpu.None? {
      LedgerKeep(s, RunCpu2(cfg, s));
    } else {
      var p := s.procs[s.cpu.value];
      if BurstExhausted(p) && p.idx >= |p.ioBurst| {
        RetireLedger(cfg, s);
      } else if BurstExhausted(p) {
        ToIoLedger(cfg, s);
      } else if AllotmentReached(cfg, p) {
        DemoteLedger(cfg, s);
      } else if QuantumExpired(p) {
        CycleBackLedger(cfg, s);
      } else {
        LedgerKeep(s, RunCpu2(cfg, s));
      }
    }
  }

  // ---------------------------------------------------------------------
  // I/O

  lemma RemoveAtKeeps(xs: seq<nat>, i: nat, x: nat)
    requires i < |xs| && x in xs && x != xs[i]
    ensures x in RemoveAt(xs, i)
  {
    var k :| 0 <= k < |xs| && xs[k] == x;
    if k < i {
      assert RemoveAt(xs, i)[k] == x;
    } else {
      assert RemoveAt(xs, i)[k - 1] == x;
    }
  }

  /** Removing position `i` of a list without repeats removes exactly the id
      there. */
  lemma RemoveAtSameElse(xs: seq<nat>, i: nat)
    requires i < |xs| && NoDup(xs)
    ensures SameElse(xs, RemoveAt(xs, i), xs[i])
    ensures xs[i] !in RemoveAt(xs, i)
  {
    forall y | y != xs[i] ensures y in xs <==> y in RemoveAt(xs, i) {
      if y in xs {
        RemoveAtKeeps(xs, i, y);
      }
      if y in RemoveAt(xs, i) {
        RemoveAtIn(xs, i, y);
      }
    }
    forall k | 0 <= k < |RemoveAt(xs, i)| ensures RemoveAt(xs, i)[k] != xs[i] {
      if k < i {
        assert RemoveAt(xs, i)[k] == xs[k];
      } else {
        assert RemoveAt(xs, i)[k] == xs[k + 1];
      }
    }
  }

  /** What `run_io` needs of the I/O list for the account: no process in it
      has finished, and none has more I/O bursts than CPU bursts. */
  predicate IoAccount(s: State)
  {
    forall k :: 0 <= k < |s.io| ==>
      && s.io[k] < |s.procs| && s.io[k] !in s.finished
      && |s.procs[s.io[k]].ioBurst| <= |s.procs[s.io[k]].cpuBurst|
  }

  /** `r` is `s` after the process at position `i` of the I/O list, at
      burst index `idx`, ended that I/O burst and left the list: into a
      queue, or into the finished list when no CPU burst follows. */
  ghost predicate EndedIo(s: State, r: State, i: nat)
    requires i < |s.io| && s.io[i] < |s.procs|
  {
    var id := s.io[i]; var p := s.procs[id];
    && |r.procs| == |s.procs|
    && r.io == RemoveAt(s.io, i) && r.procs == s.procs[id := r.procs[id]]
    && var q := r.procs[id];
    && 0 <= p.idx < |p.ioBurst| && q.idx == p.idx + 1 && q.quantumPassed == 0
    && p.quantumPassed + 1 == p.ioBurst[p.idx]
    && q.arrival == p.arrival && q.cpuBurst == p.cpuBurst && q.ioBurst == p.ioBurst
    && (q.idx != |q.cpuBurst| ==> r.finished == s.finished)
    && (q.idx == |q.cpuBurst| ==> r.finished == s.finished + [id] && q.completionTime == s.time + 1)
  }

  /** `run_io`'s step has that shape when the tick ends the I/O burst. */
  lemma IoStepLeaves(s: State, i: nat)
    requires IoReady(s) && i < |s.io|
    requires IoTick(s.procs[s.io[i]]).ioRemaining == 0
    ensures EndedIo(s, IoStep(s, i), i)
  {
    assert IoStep(s, i) == LeaveIo(s, i, IoTick(s.procs[s.io[i]]));
  }

  /** Leaving I/O gives the process its last tick of the burst. */
  lemma EndedIoLedger(s: State, r: State, i: nat)
    requires IoReady(s) && IoAccount(s) && i < |s.io| && EndedIo(s, r, i)
    ensures Ledger(s, r, {s.io[i]})
  {
    var id := s.io[i];
    var p := s.procs[id];
    var q := r.procs[id];
    RemoveAtSameElse(s.io, i);
    assert Spent(r, id) == Spent(s, id) + 1 by {
      SumToNext(p.ioBurst, p.idx);
      if q.idx == |q.cpuBurst| {
        SumToAll(p.ioBurst, p.idx + 1);
        SumToAll(p.cpuBurst, p.idx + 1);
      }
    }
    LedgerOne(s, r, id, {id});
  }

  /** The last tick of an I/O burst moves the process out: into a queue at
      its next CPU burst, or into the finished list after its last burst. */
  lemma IoLeaveLedger(s: State, i: nat)
    requires IoReady(s) && IoAccount(s) && i < |s.io|
    requires IoTick(s.procs[s.io[i]]).ioRemaining == 0
    ensures Ledger(s, IoStep(s, i), {s.io[i]})
  {
    IoStepLeaves(s, i);
    EndedIoLedger(s, IoStep(s, i), i);
  }

  /** Any other I/O tick stays in the I/O list. */
  lemma IoStayLedger(s: State, i: nat)
    requires IoReady(s) && IoAccount(s) && i < |s.io|
    requires IoTick(s.procs[s.io[i]]).ioRemaining != 0
    ensures Ledger(s, IoStep(s, i), {s.io[i]})
  {
    var id := s.io[i];
    var r := IoStep(s, i);
    assert r == s.(procs := s.procs[id := IoTick(s.procs[id])]);
    LedgerOne(s, r, id, {id});
  }

  /** The tick `run_io` gives the process at position `i` of the I/O list. */
  lemma IoStepLedger(s: State, i: nat)
    requires IoReady(s) && IoAccount(s) && i < |s.io|
    ensures Ledger(s, IoStep(s, i), {s.io[i]})
  {
    if IoTick(s.procs[s.io[i]]).ioRemaining == 0 {
      IoLeaveLedger(s, i);
    } else {
      IoStayLedger(s, i);
    }
  }

  /** The processes `IoLoop` may still tick from position `i` on. */
  function Rest(s: State, i: nat): set<nat>
  {
    set k | i <= k < |s.io| :: s.io[k]
  }

  /** The I/O step keeps what the account needs, and the processes left to
      tick after it were left to tick before it, other than the one it
      ticked. */
  lemma IoStepRest(s: State, i: nat)
    requires IoReady(s) && IoAccount(s) && i < |s.io|
    ensures IoAccount(IoStep(s, i))
    ensures Rest(IoStep(s, i), i + 1) <= Rest(s, i) - {s.io[i]}
  {
    if IoTick(s.procs[s.io[i]]).ioRemaining == 0 {
      IoLeaveRest(s, i);
    } else {
      IoStayRest(s, i);
    }
  }

  lemma IoLeaveRest(s: State, i: nat)
    requires IoReady(s) && IoAccount(s) && i < |s.io|
    requires IoTick(s.procs[s.io[i]]).ioRemaining == 0
    ensures IoAccount(IoStep(s, i))
    ensures Rest(IoStep(s, i), i + 1) <= Rest(s, i) - {s.io[i]}
  {
    IoStepLeaves(s, i);
    EndedIoAccount(s, IoStep(s, i), i);
    EndedIoRest(s, IoStep(s, i), i);
  }

  lemma EndedIoAccount(s: State, r: State, i: nat)
    requires IoReady(s) && IoAccount(s) && i < |s.io| && EndedIo(s, r, i)
    ensures IoAccount(r)
  {
    forall k | 0 <= k < |r.io|
      ensures r.io[k] < |r.procs| && r.io[k] !in r.finished
      ensures |r.procs[r.io[k]].ioBurst| <= |r.procs[r.io[k]].cpuBurst|
    {
      var m := if k < i then k else k + 1;
      assert r.io[k] == s.io[m] && m != i;
      assert r.procs[s.io[m]] == s.procs[s.io[m]];
    }
  }

  lemma EndedIoRest(s: State, r: State, i: nat)
    requires IoReady(s) && i < |s.io| && EndedIo(s, r, i)
    ensures Rest(r, i + 1) <= Rest(s, i) - {s.io[i]}
  {
    forall x | x in Rest(r, i + 1) ensures x in Rest(s, i) && x != s.io[i] {
      var k :| i + 1 <= k < |r.io| && r.io[k] == x;
      assert x == s.io[k + 1];
    }
  }

  lemma IoStayRest(s: State, i: nat)
    requires IoReady(s) && IoAccount(s) && i < |s.io|
    requires IoTick(s.procs[s.io[i]]).ioRemaining != 0
    ensures IoAccount(IoStep(s, i))
    ensures Rest(IoStep(s, i), i + 1) <= Rest(s, i) - {s.io[i]}
  {
    var id := s.io[i];
    var r := IoStep(s, i);
    assert r == s.(procs := s.procs[id := IoTick(s.procs[id])]);
    forall x | x in Rest(r, i + 1) ensures x in Rest(s, i) && x != id {
      var k :| i + 1 <= k < |r.io| && r.io[k] == x;
      assert x == s.io[k];
    }
  }

  /** The rest of `run_io` from position `i` ticks each process it may
      still tick at most once. */
  lemma {:induction false} IoLoopLedger(s: State, i: nat)
    requires IoReady(s) && IoAccount(s)
    ensures Ledger(s, IoLoop(s, i), Rest(s, i))
    decreases |s.io| - i
  {
    if i < |s.io| {
      var s1 := IoStep(s, i);
      IoStepLedger(s, i);
      IoStepRest(s, i);
      IoLoopLedger(s1, i + 1);
      LedgerTrans(s, s1, IoLoop(s1, i + 1), {s.io[i]}, Rest(s1, i + 1));
      LedgerWiden(s, IoLoop(s, i), {s.io[i]} + Rest(s1, i + 1), Rest(s, i));
    } else {
      LedgerKeep(s, s);
      LedgerWiden(s, s, {}, Rest(s, i));
    }
  }

  /** `run_io` ticks each process of the I/O list at most once, and nobody
      else. */
  lemma RunIoLedger(s: State)
    requires IoReady(s) && IoAccount(s)
    ensures Ledger(s, RunIo(s), Rest(s, 0))
  {
    IoLoopLedger(s, 0);
  }
}
