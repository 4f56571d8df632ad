/** The scheduling engine of njlr.py (`MFLQScheduler`): the three level
    queues, the single CPU slot, the I/O list, the context-switch timer and the
    clock, with one function per engine operation. Processes live in a table
    indexed by id; every list and the CPU slot hold ids into it. */
module Scheduler {
  import opened Wrappers
  import opened Processes
  import opened Queues
  import Text

  /** `Q1_QUANTUM`: the round-robin quantum of level 1. */
  const Q1Quantum: int := 4

  /** The scheduler parameters the source reads before simulating:
      `allotments[0]`, `allotments[1]` and the context-switch duration. */
  datatype Config = Config(q1Allotment: int, q2Allotment: int, switchDuration: int)
  {
    /** `allotments[level - 1]` for the two levels that have one. */
    function Allotment(level: int): int
      requires level == 1 || level == 2
    {
      if level == 1 then q1Allotment else q2Allotment
    }
  }

  datatype State = State(
    procs: seq<Process>,    // process_list; an id is an index into it
    queues: Levels,         // priority_queues
    cpu: Option<nat>,       // None where the source holds its empty-named placeholder
    io: seq<nat>,           // io_list
    arriving: seq<nat>,     // arriving_list
    returning: seq<nat>,    // returning_from_cpu
    finished: seq<nat>,     // finished_execution
    switchTimePass: int,
    contextSwitch: bool,
    time: int)

  /** The scheduler before the first tick: the process table as read, no
      process placed anywhere, every queue empty with round robin, FCFS and
      SJF at levels 1 to 3, an idle CPU with no switch under way, clock 0. */
  function Init(procs: seq<Process>): (r: State)
    ensures r.procs == procs && r.time == 0
    ensures r.cpu == None && !r.contextSwitch && r.switchTimePass == 0
    ensures Placed(r) == multiset{} && HighestReady(r.queues) == 4
    ensures r.queues.q1.discipline == RoundRobin && r.queues.q2.discipline == Fcfs
    ensures r.queues.q3.discipline == Sjf
  {
    State(procs, EmptyLevels(), None, [], [], [], [], 0, false, 0)
  }

  /** The placeholder the source installs in an empty CPU,
      `Process("", -1, [-1], [-1], -1)` with the remaining fields defaulted:
      its name is empty, its queue number 1 and its quantum counter 0. */
  const Placeholder: Process := Process("", -1, [-1], [-1], -1, 0, 0, 0, 0, 1, 0)

  predicate CpuRef(s: State)
  {
    s.cpu.Some? ==> s.cpu.value < |s.procs|
  }

  /** Every id the queues hold, and the occupant, indexes the process table. */
  predicate QueueRefs(s: State)
  {
    && CpuRef(s)
    && forall l :: 1 <= l <= 3 ==> AllIn(|s.procs|, s.queues.Get(l).items)
  }

  /** No process has the placeholder's empty name. */
  predicate Named(s: State)
  {
    forall j :: 0 <= j < |s.procs| ==> s.procs[j].name != ""
  }

  /** `self.cpu` as the source sees it: the occupant, or the placeholder. */
  function CpuProcess(s: State): Process
    requires CpuRef(s)
  {
    if s.cpu.Some? then s.procs[s.cpu.value] else Placeholder
  }

  /** The source's test `self.cpu.name == ""`. */
  predicate Vacant(s: State)
    requires CpuRef(s)
  {
    CpuProcess(s).name == ""
  }

  function CpuSeq(s: State): seq<nat>
  {
    if s.cpu.Some? then [s.cpu.value] else []
  }

  /** Every id that sits in some list or in the CPU, with multiplicity. */
  function Placed(s: State): multiset<nat>
  {
    s.queues.Contents() + Held(s)
  }

  /** The ids outside the level queues: in the arriving, returning, I/O and
      finished lists and in the CPU. */
  function Held(s: State): multiset<nat>
  {
    multiset(s.arriving) + multiset(s.returning) + multiset(CpuSeq(s)) + multiset(s.io) + multiset(s.finished)
  }

  predicate AllIn(n: nat, ids: seq<nat>)
  {
    forall i :: 0 <= i < |ids| ==> ids[i] < n
  }

  predicate NoDup(ids: seq<nat>)
  {
    forall i, j :: 0 <= i < j < |ids| ==> ids[i] != ids[j]
  }

  /** `update_time`. */
  function UpdateTime(s: State): (r: State)
    ensures r.time == s.time + 1
    ensures r.(time := s.time) == s
  {
    s.(time := s.time + 1)
  }

  // ---------------------------------------------------------------------
  // Arrivals

  /** The ids from `from` on, in table order, of the processes arriving at `t`. */
  function ArrivalsFrom(procs: seq<Process>, t: int, from: nat): (r: seq<nat>)
    requires from <= |procs|
    ensures forall i :: 0 <= i < |r| ==> from <= r[i] < |procs|
    ensures forall id :: id in r <==> from <= id < |procs| && procs[id].arrival == t
    ensures forall i, j :: 0 <= i < j < |r| ==> r[i] < r[j]
    decreases |procs| - from
  {
    if from == |procs| then []
    else if procs[from].arrival == t then [from] + ArrivalsFrom(procs, t, from + 1)
    else ArrivalsFrom(procs, t, from + 1)
  }

  /** The processes of the table whose arrival time is `t`, in table order. */
  function ArrivalsAt(procs: seq<Process>, t: int): seq<nat>
  {
    ArrivalsFrom(procs, t, 0)
  }

  predicate SortedByName(procs: seq<Process>, ids: seq<nat>)
    requires AllIn(|procs|, ids)
  {
    forall i, j :: 0 <= i < j < |ids| ==> Text.LexLe(procs[ids[i]].name, procs[ids[j]].name)
  }

  /** Inserts `id` in front of the first id whose name is not smaller, so that
      it stays behind the ids of smaller names and ahead of equal ones. */
  function InsertByName(procs: seq<Process>, id: nat, ids: seq<nat>): (r: seq<nat>)
    requires id < |procs| && AllIn(|procs|, ids)
    ensures multiset(r) == multiset(ids) + multiset{id}
    ensures AllIn(|procs|, r)
    ensures SortedByName(procs, ids) ==> SortedByName(procs, r)
    decreases |ids|
  {
    if |ids| == 0 then [id]
    else if Text.LexLe(procs[id].name, procs[ids[0]].name) then
      InsertFrontSorted(procs, id, ids);
      [id] + ids
    else
      var rest := InsertByName(procs, id, ids[1..]);
      InsertBehindSorted(procs, id, ids, rest);
      [ids[0]] + rest
  }

  /** An id no greater than the head of a sorted list keeps it sorted in front. */
  lemma InsertFrontSorted(procs: seq<Process>, id: nat, ids: seq<nat>)
    requires id < |procs| && AllIn(|procs|, ids) && |ids| > 0
    requires Text.LexLe(procs[id].name, procs[ids[0]].name)
    ensures SortedByName(procs, ids) ==> SortedByName(procs, [id] + ids)
  {
    if SortedByName(procs, ids) {
      var r := [id] + ids;
      forall j | 1 <= j < |r| ensures Text.LexLe(procs[id].name, procs[r[j]].name) {
        if j > 1 {
          Text.LexLeTransitive(procs[id].name, procs[ids[0]].name, procs[ids[j - 1]].name);
        }
      }
    }
  }

  /** Keeping the head of a sorted list in front of the rest with `id`
      inserted keeps it sorted, when `id`'s name is greater than the head's. */
  lemma InsertBehindSorted(procs: seq<Process>, id: nat, ids: seq<nat>, rest: seq<nat>)
    requires id < |procs| && AllIn(|procs|, ids) && |ids| > 0 && AllIn(|procs|, rest)
    requires !Text.LexLe(procs[id].name, procs[ids[0]].name)
    requires multiset(rest) == multiset(ids[1..]) + multiset{id}
    requires SortedByName(procs, ids[1..]) ==> SortedByName(procs, rest)
    ensures multiset([ids[0]] + rest) == multiset(ids) + multiset{id}
    ensures SortedByName(procs, ids) ==> SortedByName(procs, [ids[0]] + rest)
  {
    assert ids == [ids[0]] + ids[1..];
    if SortedByName(procs, ids) {
      assert SortedByName(procs, ids[1..]);
      var r := [ids[0]] + rest;
      Text.LexLeTotal(procs[id].name, procs[ids[0]].name);
      forall j | 1 <= j < |r| ensures Text.LexLe(procs[ids[0]].name, procs[r[j]].name) {
        assert r[j] in multiset(rest);
        if r[j] != id {
          assert r[j] in multiset(ids[1..]);
          var k :| 0 <= k < |ids[1..]| && ids[1..][k] == r[j];
          assert ids[k + 1] == r[j];
        }
      }
    }
  }

  /** Python's `sorted(ids, key = lambda p: p.name)`: a stable insertion sort
      on names. */
  function SortByName(procs: seq<Process>, ids: seq<nat>): (r: seq<nat>)
    requires AllIn(|procs|, ids)
    ensures multiset(r) == multiset(ids)
    ensures AllIn(|procs|, r)
    ensures SortedByName(procs, r)
    decreases |ids|
  {
    if |ids| == 0 then []
    else
      assert ids == [ids[0]] + ids[1..];
      InsertByName(procs, ids[0], SortByName(procs, ids[1..]))
  }

  /** `update_arriving`: adds every process whose arrival time is the current
      time to the arriving list and sorts that list by name. */
  function UpdateArriving(s: State): (r: State)
    requires AllIn(|s.procs|, s.arriving)
    ensures multiset(r.arriving) == multiset(s.arriving) + multiset(ArrivalsAt(s.procs, s.time))
    ensures AllIn(|r.procs|, r.arriving) && SortedByName(r.procs, r.arriving)
    ensures r.(arriving := s.arriving) == s
  {
    var newcomers := ArrivalsAt(s.procs, s.time);
    s.(arriving := SortByName(s.procs, s.arriving + newcomers))
  }

  /** `arriving_to_queue`: the arriving processes and then the processes
      returning from a level-1 quantum join the tail of level 1, in list
      order; both lists end up empty. */
  function ArrivingToQueue(s: State): (r: State)
    ensures r.queues.q1.items == s.queues.q1.items + s.arriving + s.returning
    ensures r.queues.q1.discipline == s.queues.q1.discipline
    ensures r.arriving == [] && r.returning == []
    ensures r.procs == s.procs && r.cpu == s.cpu && r.io == s.io && r.finished == s.finished
    ensures r.(queues := s.queues, arriving := s.arriving, returning := s.returning) == s
    ensures r.queues.q2 == s.queues.q2 && r.queues.q3 == s.queues.q3
    ensures Placed(r) == Placed(s)
  {
    var q1 := AddAll(AddAll(s.queues.q1, s.arriving), s.returning);
    s.(queues := s.queues.(q1 := q1), arriving := [], returning := [])
  }

  // ---------------------------------------------------------------------
  // Dispatch and the CPU

  /** The head of level `l` takes the CPU. */
  function Dispatch(s: State, l: int): (r: State)
    requires 1 <= l <= 3 && |s.queues.Get(l).items| > 0
    ensures r.cpu == Some(s.queues.Get(l).items[0])
    ensures r.queues == s.queues.Set(l, s.queues.Get(l).(items := s.queues.Get(l).items[1..]))
    ensures r.(cpu := s.cpu, queues := s.queues) == s
  {
    var (id, q) := RemoveProcess(s.queues.Get(l));
    s.(cpu := Some(id), queues := s.queues.Set(l, q))
  }

  /** `queue_to_cpu`: when no context switch is pending and the CPU is
      vacant, the head of the lowest-numbered non-empty level takes the CPU;
      otherwise nothing changes. The source tests the levels one by one in
      order 1, 2, 3, which is the level `HighestReady` names. */
  function QueueToCpu(s: State): (r: State)
    requires CpuRef(s)
    ensures (s.contextSwitch || !Vacant(s) || HighestReady(s.queues) == 4) ==> r == s
    ensures !s.contextSwitch && Vacant(s) && HighestReady(s.queues) <= 3 ==>
      var l := HighestReady(s.queues);
      && r.cpu == Some(s.queues.Get(l).items[0])
      && r.queues.Get(l).items == s.queues.Get(l).items[1..]
      && (forall m :: 1 <= m <= 3 && m != l ==> r.queues.Get(m) == s.queues.Get(m))
      && r.(cpu := s.cpu, queues := s.queues) == s
    ensures r.procs == s.procs
    ensures QueueRefs(s) ==> QueueRefs(r)
  {
    if s.contextSwitch || !Vacant(s) then s
    else
      var l := HighestReady(s.queues);
      if l == 4 then s else Dispatch(s, l)
  }

  /** `run_cpu`: a pending context switch or a vacant CPU lets one tick of
      switching time pass; otherwise the occupant runs one tick of its
      current burst. */
  function RunCpu(s: State): (r: State)
    requires CpuRef(s)
    requires !s.contextSwitch && !Vacant(s) ==> 0 <= CpuProcess(s).idx < |CpuProcess(s).cpuBurst|
    ensures |r.procs| == |s.procs|
    ensures s.contextSwitch || Vacant(s) ==> r == s.(switchTimePass := s.switchTimePass + 1)
    ensures !s.contextSwitch && !Vacant(s) ==>
      var id := s.cpu.value; var p := r.procs[id];
      && p.(quantumPassed := s.procs[id].quantumPassed, burstRemaining := s.procs[id].burstRemaining) == s.procs[id]
      && p.quantumPassed == s.procs[id].quantumPassed + 1
      && p.burstRemaining == p.cpuBurst[p.idx] - p.quantumPassed
      && r.procs == s.procs[id := p]
      && r.(procs := s.procs) == s
  {
    if s.contextSwitch || Vacant(s) then s.(switchTimePass := s.switchTimePass + 1)
    else
      var id := s.cpu.value;
      var p := s.procs[id];
      s.(procs := s.procs[id := UpdateBurst(p.(quantumPassed := p.quantumPassed + 1))])
  }

  /** `empty_cpu`: the CPU becomes vacant, the switch timer restarts, and a
      context switch begins exactly when its duration is positive. */
  function EmptyCpu(cfg: Config, s: State): (r: State)
    ensures r.cpu == None && r.switchTimePass == 0
    ensures r.contextSwitch <==> s.contextSwitch || cfg.switchDuration > 0
    ensures r.(cpu := s.cpu, switchTimePass := s.switchTimePass, contextSwitch := s.contextSwitch) == s
  {
    var s1 := if cfg.switchDuration > 0 then s.(contextSwitch := true) else s;
    s1.(switchTimePass := 0, cpu := None)
  }

  /** `clear_context_switch`: the switch ends once its duration has passed. */
  function ClearContextSwitch(cfg: Config, s: State): (r: State)
    ensures r.contextSwitch <==> s.contextSwitch && s.switchTimePass < cfg.switchDuration
    ensures r.(contextSwitch := s.contextSwitch) == s
  {
    if s.switchTimePass >= cfg.switchDuration then s.(contextSwitch := false) else s
  }

  /** `add_to_queue` on the scheduler. */
  function Enqueue(s: State, level: int, id: nat): (r: State)
    requires 1 <= level <= 3
    ensures r.queues.Get(level).items == s.queues.Get(level).items + [id]
    ensures forall l :: 1 <= l <= 3 && l != level ==> r.queues.Get(l) == s.queues.Get(l)
    ensures Placed(r) == Placed(s) + multiset{id}
    ensures r.(queues := s.queues) == s
    ensures QueueRefs(s) && id < |s.procs| ==> QueueRefs(r)
  {
    PlacedWithQueues(s, AddToQueue(s.queues, level, id));
    AddOne(s.queues.Contents(), Held(s), id);
    s.(queues := AddToQueue(s.queues, level, id))
  }

  lemma AddOne(a: multiset<nat>, b: multiset<nat>, x: nat)
    ensures (a + multiset{x}) + b == (a + b) + multiset{x}
  {
  }

  /** Replacing the level queues changes only the queue part of the placed ids. */
  lemma PlacedWithQueues(s: State, qs: Levels)
    ensures Placed(s.(queues := qs)) == qs.Contents() + Held(s)
  {
  }

  /** `move_to_io`: the occupant's counters restart for its I/O burst and it
      joins the tail of the I/O list (the CPU is emptied by the caller). */
  function MoveToIo(s: State): (r: State)
    requires s.cpu.Some? && s.cpu.value < |s.procs|
    ensures r.io == s.io + [s.cpu.value]
    ensures |r.procs| == |s.procs|
    ensures r.procs[s.cpu.value] == s.procs[s.cpu.value].(quantumPassed := 0, q1RunCounter := 0)
    ensures r.procs == s.procs[s.cpu.value := r.procs[s.cpu.value]]
    ensures r.(procs := s.procs, io := s.io) == s
  {
    var id := s.cpu.value;
    s.(procs := s.procs[id := s.procs[id].(quantumPassed := 0, q1RunCounter := 0)], io := s.io + [id])
  }

  /** `move_process_down_queue`: the occupant joins the tail of the next level
      and its queue number grows by one, its level-1 round counter cleared.
      Queue number 3 would index past the three queues, hence the
      precondition; the source's branch for numbers above 3 re-queues at
      level 3. */
  function MoveProcessDownQueue(s: State): (r: State)
    requires s.cpu.Some? && s.cpu.value < |s.procs|
    requires 1 <= s.procs[s.cpu.value].queueNumber != 3
    ensures |r.procs| == |s.procs|
    ensures var id := s.cpu.value; var p := s.procs[id];
      p.queueNumber < 3 ==>
        && r.queues.Get(p.queueNumber + 1).items == s.queues.Get(p.queueNumber + 1).items + [id]
        && r.procs[id] == p.(queueNumber := p.queueNumber + 1, q1RunCounter := 0)
        && (forall l :: 1 <= l <= 3 && l != p.queueNumber + 1 ==> r.queues.Get(l) == s.queues.Get(l))
    ensures r.procs == s.procs[s.cpu.value := r.procs[s.cpu.value]]
    ensures Placed(r) == Placed(s) + multiset{s.cpu.value}
    ensures r.(procs := s.procs, queues := s.queues) == s
  {
    var id := s.cpu.value;
    var p := s.procs[id];
    if p.queueNumber <= 3 then
      var s1 := s.(procs := s.procs[id := p.(q1RunCounter := 0, queueNumber := p.queueNumber + 1)]);
      PlacedIgnoresProcs(s, s1.procs);
      Enqueue(s1, p.queueNumber + 1, id)
    else
      Enqueue(s, 3, id)
  }

  /** The placed ids do not depend on the process records. */
  lemma PlacedIgnoresProcs(s: State, procs: seq<Process>)
    ensures Placed(s.(procs := procs)) == Placed(s)
  {
  }

  /** The CPU burst of the occupant has just run out. */
  predicate BurstExhausted(p: Process)
  {
    p.burstRemaining == 0 && p.name != ""
  }

  /** The occupant has used its level's whole allotment (level 3 has none). */
  predicate AllotmentReached(cfg: Config, p: Process)
    requires 1 <= p.queueNumber <= 3
  {
    p.queueNumber != 3 && p.quantumPassed == cfg.Allotment(p.queueNumber)
  }

  /** The occupant has used its first level-1 quantum. */
  predicate QuantumExpired(p: Process)
  {
    p.quantumPassed == Q1Quantum && p.queueNumber == 1 && p.q1RunCounter == 0
  }

  /** A process ran its last burst to the end: it joins the finished list
      with completion time one past the current tick. */
  function Retire(s: State, id: nat): (r: State)
    requires id < |s.procs|
    ensures r.finished == s.finished + [id]
    ensures r.procs == s.procs[id := s.procs[id].(completionTime := s.time + 1)]
    ensures Placed(r) == Placed(s) + multiset{id}
    ensures r.(procs := s.procs, finished := s.finished) == s
  {
    s.(finished := s.finished + [id], procs := s.procs[id := s.procs[id].(completionTime := s.time + 1)])
  }

  /** The occupant used its first level-1 quantum: its round counter goes up
      and it is set aside to rejoin level 1 at the next tick. */
  function CycleBack(s: State): (r: State)
    requires s.cpu.Some? && s.cpu.value < |s.procs|
    ensures r.returning == s.returning + [s.cpu.value]
    ensures r.procs == s.procs[s.cpu.value := s.procs[s.cpu.value].(q1RunCounter := s.procs[s.cpu.value].q1RunCounter + 1)]
    ensures r.(procs := s.procs, returning := s.returning) == s
  {
    var id := s.cpu.value;
    s.(procs := s.procs[id := s.procs[id].(q1RunCounter := s.procs[id].q1RunCounter + 1)], returning := s.returning + [id])
  }

  /** Some branch of `run_cpu2` fires for this occupant. */
  predicate Fires(cfg: Config, p: Process)
    requires 1 <= p.queueNumber <= 3
  {
    BurstExhausted(p) || AllotmentReached(cfg, p) || QuantumExpired(p)
  }

  /** `run_cpu2`, the decision after the CPU tick, checked in this order:
      burst exhausted (done, or off to I/O), allotment reached (demotion),
      first level-1 quantum used (back to level 1). Whichever fires empties
      the CPU; at most one fires. The guards read the placeholder when the
      CPU is vacant, whose quantum counter 0 must differ from the level-1
      allotment for the placeholder never to be demoted. */
  function RunCpu2(cfg: Config, s: State): (r: State)
    requires CpuRef(s)
    requires 1 <= CpuProcess(s).queueNumber <= 3
    requires s.cpu.None? ==> cfg.q1Allotment != 0
    ensures s.cpu.None? ==> r == s
    ensures s.cpu.Some? && !Fires(cfg, s.procs[s.cpu.value]) ==> r == s
    ensures s.cpu.Some? && Fires(cfg, s.procs[s.cpu.value]) ==>
      && r.cpu == None && r.switchTimePass == 0
      && (r.contextSwitch <==> s.contextSwitch || cfg.switchDuration > 0)
    ensures r.time == s.time && r.arriving == s.arriving && |r.procs| == |s.procs|
  {
    if s.cpu.None? then s
    else
      var p := s.procs[s.cpu.value];
      if BurstExhausted(p) then
        if p.idx >= |p.ioBurst| then EmptyCpu(cfg, Retire(s, s.cpu.value))
        else EmptyCpu(cfg, MoveToIo(s))
      else if AllotmentReached(cfg, p) then EmptyCpu(cfg, MoveProcessDownQueue(s))
      else if QuantumExpired(p) then EmptyCpu(cfg, CycleBack(s))
      else s
  }

  /** Burst exhausted at the last burst: the process is done, with
      completion time one past the current tick. */
  lemma RunCpu2Completes(cfg: Config, s: State)
    requires s.cpu.Some? && s.cpu.value < |s.procs| && 1 <= s.procs[s.cpu.value].queueNumber <= 3
    requires BurstExhausted(s.procs[s.cpu.value]) && s.procs[s.cpu.value].idx >= |s.procs[s.cpu.value].ioBurst|
    ensures var r := RunCpu2(cfg, s); var id := s.cpu.value;
      && r.finished == s.finished + [id]
      && r.procs == s.procs[id := s.procs[id].(completionTime := s.time + 1)]
      && r.cpu == None && r.io == s.io && r.queues == s.queues && r.returning == s.returning
  {
  }

  /** Burst exhausted with an I/O burst to follow: the process joins the tail
      of the I/O list with its quantum and round counters reset. */
  lemma RunCpu2ToIo(cfg: Config, s: State)
    requires s.cpu.Some? && s.cpu.value < |s.procs| && 1 <= s.procs[s.cpu.value].queueNumber <= 3
    requires BurstExhausted(s.procs[s.cpu.value]) && s.procs[s.cpu.value].idx < |s.procs[s.cpu.value].ioBurst|
    ensures var r := RunCpu2(cfg, s); var id := s.cpu.value;
      && r.io == s.io + [id]
      && r.procs == s.procs[id := s.procs[id].(quantumPassed := 0, q1RunCounter := 0)]
      && r.cpu == None && r.finished == s.finished && r.queues == s.queues && r.returning == s.returning
  {
  }

  /** Allotment reached (and the burst not exhausted): the queue number grows
      by exactly one, never past 3, the process joins the tail of that next
      level, and its round counter is cleared. */
  lemma RunCpu2Demotes(cfg: Config, s: State)
    requires s.cpu.Some? && s.cpu.value < |s.procs| && 1 <= s.procs[s.cpu.value].queueNumber <= 3
    requires !BurstExhausted(s.procs[s.cpu.value]) && AllotmentReached(cfg, s.procs[s.cpu.value])
    ensures var r := RunCpu2(cfg, s); var id := s.cpu.value; var p := s.procs[id];
      && p.queueNumber + 1 <= 3
      && r.queues.Get(p.queueNumber + 1).items == s.queues.Get(p.queueNumber + 1).items + [id]
      && (forall l :: 1 <= l <= 3 && l != p.queueNumber + 1 ==> r.queues.Get(l) == s.queues.Get(l))
      && r.procs == s.procs[id := p.(queueNumber := p.queueNumber + 1, q1RunCounter := 0)]
      && r.cpu == None && r.io == s.io && r.finished == s.finished && r.returning == s.returning
  {
    RunCpu2DemotesIs(cfg, s);
    DemotedAndEmptied(cfg, s);
  }

  lemma RunCpu2DemotesIs(cfg: Config, s: State)
    requires s.cpu.Some? && s.cpu.value < |s.procs| && 1 <= s.procs[s.cpu.value].queueNumber <= 3
    requires !BurstExhausted(s.procs[s.cpu.value]) && AllotmentReached(cfg, s.procs[s.cpu.value])
    ensures s.procs[s.cpu.value].queueNumber != 3
    ensures RunCpu2(cfg, s) == EmptyCpu(cfg, MoveProcessDownQueue(s))
  {
  }

  lemma DemotedAndEmptied(cfg: Config, s: State)
    requires s.cpu.Some? && s.cpu.value < |s.procs| && 1 <= s.procs[s.cpu.value].queueNumber < 3
    ensures var r := EmptyCpu(cfg, MoveProcessDownQueue(s)); var id := s.cpu.value; var p := s.procs[id];
      && r.queues.Get(p.queueNumber + 1).items == s.queues.Get(p.queueNumber + 1).items + [id]
      && (forall l :: 1 <= l <= 3 && l != p.queueNumber + 1 ==> r.queues.Get(l) == s.queues.Get(l))
      && r.procs == s.procs[id := p.(queueNumber := p.queueNumber + 1, q1RunCounter := 0)]
      && r.cpu == None && r.io == s.io && r.finished == s.finished && r.returning == s.returning
  {
  }

  /** First level-1 quantum used (neither of the above): the process is set
      aside to rejoin level 1, its round counter going from 0 to 1, so this
      happens at most once per stay at level 1. */
  lemma RunCpu2CyclesBack(cfg: Config, s: State)
    requires s.cpu.Some? && s.cpu.value < |s.procs| && 1 <= s.procs[s.cpu.value].queueNumber <= 3
    requires !BurstExhausted(s.procs[s.cpu.value]) && !AllotmentReached(cfg, s.procs[s.cpu.value])
    requires QuantumExpired(s.procs[s.cpu.value])
    ensures var r := RunCpu2(cfg, s); var id := s.cpu.value;
      && r.returning == s.returning + [id]
      && r.procs == s.procs[id := s.procs[id].(q1RunCounter := 1)]
      && r.cpu == None && r.io == s.io && r.finished == s.finished && r.queues == s.queues
  {
  }

  /** The preemption itself: the occupant goes back to the tail of its own
      level, the CPU is emptied and dispatch is retried. When a level
      numbered below the occupant's holds a process, as `check_preemption`
      requires, the retried dispatch takes the head of the lowest such level,
      unless emptying the CPU started a context switch. */
  function Preempt(cfg: Config, s: State): (r: State)
    requires QueueRefs(s) && s.cpu.Some?
    requires 1 <= s.procs[s.cpu.value].queueNumber <= 3
    ensures QueueRefs(r)
    ensures var id := s.cpu.value; var q := s.procs[id].queueNumber; var l := HighestReady(s.queues);
      l < q ==>
        && r.queues.Get(q).items == s.queues.Get(q).items + [id]
        && (r.contextSwitch <==> s.contextSwitch || cfg.switchDuration > 0)
        && r.switchTimePass == 0
        && (r.contextSwitch ==> r.cpu == None && r.queues.Get(l) == s.queues.Get(l))
        && (!r.contextSwitch ==>
              && r.cpu == Some(s.queues.Get(l).items[0])
              && r.queues.Get(l).items == s.queues.Get(l).items[1..])
        && (forall m :: 1 <= m <= 3 && m != l && m != q ==> r.queues.Get(m) == s.queues.Get(m))
    ensures r.procs == s.procs && r.time == s.time
    ensures r.io == s.io && r.finished == s.finished
    ensures r.arriving == s.arriving && r.returning == s.returning
  {
    var e := EmptyCpu(cfg, Enqueue(s, s.procs[s.cpu.value].queueNumber, s.cpu.value));
    EvictedReady(s, e);
    QueueToCpu(e)
  }

  /** Putting the occupant back at its own level leaves the lowest non-empty
      level as it was when that level is numbered below the occupant's. */
  lemma EvictedReady(s: State, e: State)
    requires s.cpu.Some? && s.cpu.value < |s.procs| && 1 <= s.procs[s.cpu.value].queueNumber <= 3
    requires var q := s.procs[s.cpu.value].queueNumber;
      forall l :: 1 <= l <= 3 && l != q ==> e.queues.Get(l) == s.queues.Get(l)
    ensures HighestReady(s.queues) < s.procs[s.cpu.value].queueNumber ==>
      HighestReady(e.queues) == HighestReady(s.queues)
  {
  }

  /** `check_preemption`: if a level numbered below the occupant's queue
      number holds a process, the occupant is preempted; afterwards a vacant
      CPU is always offered to dispatch, so the CPU is left vacant only while
      a switch is pending or when nothing is ready. */
  function CheckPreemption(cfg: Config, s: State): (r: State)
    requires QueueRefs(s)
    requires 1 <= CpuProcess(s).queueNumber <= 3
    ensures QueueRefs(r)
    ensures Named(s) && r.cpu.None? ==> r.contextSwitch || HighestReady(r.queues) == 4
    ensures Named(s) && s.cpu.Some? && HighestReady(s.queues) < CpuProcess(s).queueNumber ==> r == Preempt(cfg, s)
    ensures Named(s) && s.cpu.Some? && HighestReady(s.queues) >= CpuProcess(s).queueNumber ==> r == s
    ensures s.cpu.None? ==> r == QueueToCpu(s)
    ensures r.procs == s.procs && r.time == s.time
    ensures r.io == s.io && r.finished == s.finished
    ensures r.arriving == s.arriving && r.returning == s.returning
  {
    var s1 :=
      if s.cpu.Some? && HighestReady(s.queues) < CpuProcess(s).queueNumber then Preempt(cfg, s)
      else s;
    OfferCpu(s1)
  }

  /** A vacant CPU offered to dispatch: it stays vacant only while a switch
      is pending or when every queue is empty. */
  function OfferCpu(s: State): (r: State)
    requires QueueRefs(s)
    ensures QueueRefs(r)
    ensures Named(s) && r.cpu.None? ==> r.contextSwitch || HighestReady(r.queues) == 4
    ensures r.procs == s.procs && r.time == s.time
    ensures r.io == s.io && r.finished == s.finished
    ensures r.arriving == s.arriving && r.returning == s.returning
  {
    if Vacant(s) then QueueToCpu(s) else s
  }

  // ---------------------------------------------------------------------
  // I/O

  /** A process can take an I/O tick: it is at one of its I/O bursts and has
      a queue to return to. */
  predicate IoShape(p: Process)
  {
    0 <= p.idx < |p.ioBurst| && 1 <= p.queueNumber <= 3
  }

  /** What `run_io` needs of the I/O list: ids index the table, each names a
      process at an I/O burst, and no id is listed twice. */
  predicate IoReady(s: State)
  {
    && NoDup(s.io)
    && forall k :: 0 <= k < |s.io| ==> s.io[k] < |s.procs| && IoShape(s.procs[s.io[k]])
  }

  /** Two versions of a process that agree on everything but the counters
      `run_io` moves (`idx`, `quantumPassed`, `ioRemaining`, `completionTime`). */
  predicate SameButIoCounters(p: Process, q: Process)
  {
    q == p.(idx := q.idx, quantumPassed := q.quantumPassed, ioRemaining := q.ioRemaining,
            completionTime := q.completionTime)
  }

  /** One I/O tick of a process: `quantum_passed += 1` then `update_io`. */
  function IoTick(p: Process): (r: Process)
    requires IoShape(p)
    ensures r.quantumPassed == p.quantumPassed + 1
    ensures r.ioRemaining == p.ioBurst[p.idx] - r.quantumPassed
    ensures SameButIoCounters(p, r) && r.idx == p.idx
  {
    UpdateIo(p.(quantumPassed := p.quantumPassed + 1))
  }

  function RemoveAt(xs: seq<nat>, i: nat): seq<nat>
    requires i < |xs|
  {
    xs[..i] + xs[i + 1..]
  }

  /** The process at position `i` of the I/O list, `p` after its tick, has
      finished its I/O burst: its burst index advances, its counter restarts,
      and it leaves the I/O list, either for the queue of its unchanged queue
      number when a CPU burst remains or for the finished list with
      completion time one past the current tick. */
  function LeaveIo(s: State, i: nat, p: Process): (r: State)
    requires i < |s.io| && s.io[i] < |s.procs| && 1 <= p.queueNumber <= 3
    ensures r.io == RemoveAt(s.io, i)
    ensures |r.procs| == |s.procs|
    ensures r.procs == s.procs[s.io[i] := r.procs[s.io[i]]]
    ensures var q := r.procs[s.io[i]];
      && SameButIoCounters(p, q) && q.idx == p.idx + 1 && q.quantumPassed == 0 && q.ioRemaining == p.ioRemaining
      && (q.idx != |q.cpuBurst| ==>
            && r.queues.Get(q.queueNumber).items == s.queues.Get(q.queueNumber).items + [s.io[i]]
            && (forall l :: 1 <= l <= 3 && l != q.queueNumber ==> r.queues.Get(l) == s.queues.Get(l))
            && r.finished == s.finished && q.completionTime == p.completionTime)
      && (q.idx == |q.cpuBurst| ==>
            r.queues == s.queues && r.finished == s.finished + [s.io[i]] && q.completionTime == s.time + 1)
    ensures r.(procs := s.procs, queues := s.queues, io := s.io, finished := s.finished) == s
  {
    var id := s.io[i];
    var q := p.(idx := p.idx + 1, quantumPassed := 0);
    var s1 := s.(io := RemoveAt(s.io, i), procs := s.procs[id := q]);
    if q.idx != |q.cpuBurst| then Enqueue(s1, q.queueNumber, id) else Retire(s1, id)
  }

  /** The body of `run_io` from position `i` of the I/O list on. Python's list
      iterator keeps an index: after the process at `i` is removed, the
      next one shifts into slot `i` and the iterator goes on at `i + 1`, so
      that process is passed over for this tick. */
  function IoLoop(s: State, i: nat): (r: State)
    requires IoReady(s)
    ensures |r.procs| == |s.procs|
    ensures forall j :: 0 <= j < |s.procs| ==> SameButIoCounters(s.procs[j], r.procs[j])
    ensures r.cpu == s.cpu && r.arriving == s.arriving && r.returning == s.returning
    ensures r.time == s.time && r.switchTimePass == s.switchTimePass && r.contextSwitch == s.contextSwitch
    ensures s.finished <= r.finished
    decreases |s.io| - i
  {
    if i >= |s.io| then s
    else
      var s1 := IoStep(s, i);
      CountersTrans(s.procs, s1.procs, IoLoop(s1, i + 1).procs);
      IoLoop(s1, i + 1)
  }

  /** What `run_io` does to the process at position `i` of the I/O list: one
      tick, and the move out of I/O when the tick ends its burst. */
  function IoStep(s: State, i: nat): (r: State)
    requires IoReady(s) && i < |s.io|
    ensures IoReady(r) && |r.io| <= |s.io|
    ensures |r.procs| == |s.procs|
    ensures forall j :: 0 <= j < |s.procs| ==> SameButIoCounters(s.procs[j], r.procs[j])
    ensures r.cpu == s.cpu && r.arriving == s.arriving && r.returning == s.returning
    ensures r.time == s.time && r.switchTimePass == s.switchTimePass && r.contextSwitch == s.contextSwitch
    ensures s.finished <= r.finished
  {
    var id := s.io[i];
    var p := IoTick(s.procs[id]);
    if p.ioRemaining == 0 then
      LeaveIoKeepsReady(s, i, p);
      OneChanged(s.procs, LeaveIo(s, i, p).procs, id);
      LeaveIo(s, i, p)
    else
      TickKeepsReady(s, i);
      OneChanged(s.procs, s.procs[id := p], id);
      s.(procs := s.procs[id := p])
  }

  /** A table in which one record changed only in its I/O counters. */
  lemma OneChanged(a: seq<Process>, b: seq<Process>, id: nat)
    requires id < |a| == |b| && b == a[id := b[id]] && SameButIoCounters(a[id], b[id])
    ensures |b| == |a| && forall j :: 0 <= j < |a| ==> SameButIoCounters(a[j], b[j])
  {
  }

  /** Changes confined to the I/O counters compose. */
  lemma CountersTrans(a: seq<Process>, b: seq<Process>, c: seq<Process>)
    requires |a| == |b| == |c|
    requires forall j :: 0 <= j < |a| ==> SameButIoCounters(a[j], b[j])
    requires forall j :: 0 <= j < |b| ==> SameButIoCounters(b[j], c[j])
    ensures forall j :: 0 <= j < |a| ==> SameButIoCounters(a[j], c[j])
  {
  }

  lemma LeaveIoKeepsReady(s: State, i: nat, p: Process)
    requires IoReady(s) && i < |s.io| && p == IoTick(s.procs[s.io[i]])
    ensures IoReady(LeaveIo(s, i, p))
  {
    DropKeepsReady(s, i, LeaveIo(s, i, p));
  }

  /** Removing position `i` of the I/O list, while only the record of the
      process listed there changes, keeps the I/O list ready. */
  lemma DropKeepsReady(s: State, i: nat, r: State)
    requires IoReady(s) && i < |s.io|
    requires r.io == RemoveAt(s.io, i) && |r.procs| == |s.procs| && r.procs == s.procs[s.io[i] := r.procs[s.io[i]]]
    ensures IoReady(r)
  {
    var id := s.io[i];
    forall a, b | 0 <= a < b < |r.io| ensures r.io[a] != r.io[b] {
      var a' := if a < i then a else a + 1;
      var b' := if b < i then b else b + 1;
      assert r.io[a] == s.io[a'] && r.io[b] == s.io[b'];
    }
    forall k | 0 <= k < |r.io| ensures r.io[k] < |r.procs| && IoShape(r.procs[r.io[k]]) {
      var k' := if k < i then k else k + 1;
      assert r.io[k] == s.io[k'];
      assert s.io[k'] != id;
    }
  }

  lemma TickKeepsReady(s: State, i: nat)
    requires IoReady(s) && i < |s.io|
    ensures IoReady(s.(procs := s.procs[s.io[i] := IoTick(s.procs[s.io[i]])]))
  {
    var s1 := s.(procs := s.procs[s.io[i] := IoTick(s.procs[s.io[i]])]);
    forall k | 0 <= k < |s1.io| ensures IoShape(s1.procs[s1.io[k]]) {
      if s.io[k] == s.io[i] {}
    }
  }

  /** The sweep from position `i` touches only the processes listed from
      position `i` on. */
  lemma {:induction false} IoLoopFrame(s: State, i: nat)
    requires IoReady(s) && i <= |s.io|
    ensures forall j :: 0 <= j < |s.procs| && j !in s.io[i..] ==> IoLoop(s, i).procs[j] == s.procs[j]
    decreases |s.io| - i, 1
  {
    if i < |s.io| {
      if IoTick(s.procs[s.io[i]]).ioRemaining == 0 {
        IoLoopFrameLeave(s, i);
      } else {
        IoLoopFrameStay(s, i);
      }
    }
  }

  lemma {:induction false} IoLoopFrameLeave(s: State, i: nat)
    requires IoReady(s) && i < |s.io| && IoTick(s.procs[s.io[i]]).ioRemaining == 0
    ensures forall j :: 0 <= j < |s.procs| && j !in s.io[i..] ==> IoLoop(s, i).procs[j] == s.procs[j]
    decreases |s.io| - i, 0
  {
    var s1 := LeaveIoNext(s, i);
    if i + 1 <= |s1.io| {
      IoLoopFrame(s1, i + 1);
    }
    DropFrame(s, i, s1, IoLoop(s1, i + 1));
  }

  /** The state the sweep goes on from after the process at position `i`
      leaves I/O. */
  function LeaveIoNext(s: State, i: nat): (s1: State)
    requires IoReady(s) && i < |s.io| && IoTick(s.procs[s.io[i]]).ioRemaining == 0
    ensures s1 == LeaveIo(s, i, IoTick(s.procs[s.io[i]]))
    ensures IoReady(s1) && IoLoop(s, i) == IoLoop(s1, i + 1)
    ensures s1.io == RemoveAt(s.io, i) && |s1.procs| == |s.procs| && s1.procs == s.procs[s.io[i] := s1.procs[s.io[i]]]
  {
    LeaveIoKeepsReady(s, i, IoTick(s.procs[s.io[i]]));
    LeaveIo(s, i, IoTick(s.procs[s.io[i]]))
  }

  /** How a record-frame of the sweep after a removal at `i` carries over to
      the sweep that made the removal: the removed process keeps the record
      the removal gave it, and the one that moved into slot `i` is passed
      over. */
  lemma DropFrame(s: State, i: nat, s1: State, r: State)
    requires IoReady(s) && i < |s.io|
    requires s1.io == RemoveAt(s.io, i) && |s1.procs| == |s.procs| && s1.procs == s.procs[s.io[i] := s1.procs[s.io[i]]]
    requires |r.procs| == |s1.procs|
    requires i + 1 <= |s1.io| ==>
      forall j :: 0 <= j < |s1.procs| && j !in s1.io[i + 1..] ==> r.procs[j] == s1.procs[j]
    requires i + 1 > |s1.io| ==> r.procs == s1.procs
    ensures forall j :: 0 <= j < |s.procs| && j !in s.io[i..] ==> r.procs[j] == s.procs[j]
    ensures r.procs[s.io[i]] == s1.procs[s.io[i]]
    ensures i + 1 < |s.io| ==> r.procs[s.io[i + 1]] == s.procs[s.io[i + 1]]
  {
    var id := s.io[i];
    if i + 1 <= |s1.io| {
      assert s.io[i..] == [id] + [s.io[i + 1]] + s1.io[i + 1..];
      assert s1.io[i + 1..] == s.io[i + 2..];
      assert id !in s.io[i + 2..] by {
        forall k | i + 2 <= k < |s.io| ensures s.io[k] != id {}
      }
      assert s.io[i + 1] !in s.io[i + 2..] by {
        forall k | i + 2 <= k < |s.io| ensures s.io[k] != s.io[i + 1] {}
      }
    }
  }

  lemma {:induction false} IoLoopFrameStay(s: State, i: nat)
    requires IoReady(s) && i < |s.io| && IoTick(s.procs[s.io[i]]).ioRemaining != 0
    ensures forall j :: 0 <= j < |s.procs| && j !in s.io[i..] ==> IoLoop(s, i).procs[j] == s.procs[j]
    decreases |s.io| - i, 0
  {
    var id := s.io[i];
    var s1 := s.(procs := s.procs[id := IoTick(s.procs[id])]);
    TickKeepsReady(s, i);
    assert IoLoop(s, i) == IoLoop(s1, i + 1);
    IoLoopFrame(s1, i + 1);
    assert s.io[i..] == [id] + s.io[i + 1..];
  }

  /** The process at the sweep position gets exactly its one tick: its
      record ends as `IoTick` left it, or, when that tick ended its I/O
      burst, as `LeaveIo` left it. */
  lemma IoLoopHead(s: State, i: nat)
    requires IoReady(s) && i < |s.io|
    ensures var id := s.io[i]; var p := IoTick(s.procs[id]);
      && (p.ioRemaining != 0 ==> IoLoop(s, i).procs[id] == p)
      && (p.ioRemaining == 0 ==> IoLoop(s, i).procs[id] == LeaveIo(s, i, p).procs[id])
  {
    if IoTick(s.procs[s.io[i]]).ioRemaining == 0 {
      IoLoopHeadLeaves(s, i);
    } else {
      IoLoopHeadStays(s, i);
    }
  }

  lemma IoLoopHeadLeaves(s: State, i: nat)
    requires IoReady(s) && i < |s.io| && IoTick(s.procs[s.io[i]]).ioRemaining == 0
    ensures var id := s.io[i];
      IoLoop(s, i).procs[id] == LeaveIo(s, i, IoTick(s.procs[id])).procs[id]
  {
    var s1 := LeaveIoNext(s, i);
    if i + 1 <= |s1.io| {
      IoLoopFrame(s1, i + 1);
    }
    DropFrame(s, i, s1, IoLoop(s1, i + 1));
  }

  lemma IoLoopHeadStays(s: State, i: nat)
    requires IoReady(s) && i < |s.io| && IoTick(s.procs[s.io[i]]).ioRemaining != 0
    ensures IoLoop(s, i).procs[s.io[i]] == IoTick(s.procs[s.io[i]])
  {
    var id := s.io[i];
    var s1 := s.(procs := s.procs[id := IoTick(s.procs[id])]);
    TickKeepsReady(s, i);
    assert IoLoop(s, i) == IoLoop(s1, i + 1);
    IoLoopFrame(s1, i + 1);
    assert id !in s.io[i + 1..];
  }

  /** The pass-over: when the process at position `i` finishes its I/O burst
      and is removed, the process right behind it moves into position `i`,
      which the sweep has already visited, so it gets no tick this time. */
  lemma IoLoopSkipsNext(s: State, i: nat)
    requires IoReady(s) && i + 1 < |s.io| && IoTick(s.procs[s.io[i]]).ioRemaining == 0
    ensures IoLoop(s, i).procs[s.io[i + 1]] == s.procs[s.io[i + 1]]
  {
    var s1 := LeaveIoNext(s, i);
    IoLoopFrame(s1, i + 1);
    DropFrame(s, i, s1, IoLoop(s1, i + 1));
  }

  /** When no process of the sweep finishes its I/O burst, every one of them
      gets exactly one tick and the I/O list is unchanged. */
  lemma {:induction false} IoLoopAllTicked(s: State, i: nat)
    requires IoReady(s) && i <= |s.io|
    requires forall k :: i <= k < |s.io| ==> IoTick(s.procs[s.io[k]]).ioRemaining != 0
    ensures IoLoop(s, i).io == s.io
    ensures forall k :: i <= k < |s.io| ==> IoLoop(s, i).procs[s.io[k]] == IoTick(s.procs[s.io[k]])
    decreases |s.io| - i
  {
    if i < |s.io| {
      var id := s.io[i];
      var s1 := s.(procs := s.procs[id := IoTick(s.procs[id])]);
      TickKeepsReady(s, i);
      forall k | i + 1 <= k < |s.io| ensures s1.procs[s.io[k]] == s.procs[s.io[k]] {
        assert s.io[k] != id;
      }
      IoLoopAllTicked(s1, i + 1);
      IoLoopHead(s, i);
    }
  }

  /** `run_io`: one I/O tick for the processes of the I/O list, in list
      order, with the pass-over after each removal described at `IoLoop`. */
  function RunIo(s: State): (r: State)
    requires IoReady(s)
    ensures |r.procs| == |s.procs|
    ensures forall j :: 0 <= j < |s.procs| ==> SameButIoCounters(s.procs[j], r.procs[j])
    ensures forall j :: 0 <= j < |s.procs| && j !in s.io ==> r.procs[j] == s.procs[j]
    ensures s.finished <= r.finished && r.cpu == s.cpu && r.time == s.time
  {
    IoLoopFrame(s, 0);
    IoLoop(s, 0)
  }
}
