/** The invariant the engine keeps between ticks, and its preservation by
    each engine operation. `h` is the arrival horizon: the processes that
    have arrived are those whose arrival time lies in [0, h). At the start
    of a tick h is the current time; once the tick's arrivals are admitted
    it is one more. */
module Invariant {
  import opened Wrappers
  import opened Processes
  import opened Queues
  import opened Scheduler

  /** The level-1 allotment differs from the placeholder's quantum counter 0;
      the source's input loop asks for at least 4. */
  predicate ConfigOk(cfg: Config)
  {
    cfg.q1Allotment != 0
  }

  /** What every process of the table satisfies throughout: a non-empty name,
      at least one CPU burst, CPU and I/O bursts alternating from a CPU burst
      (as a parsed line gives them), a queue number between 1 and 3, a
      non-negative burst index. */
  predicate WellFormed(p: Process)
  {
    && p.name != ""
    && |p.cpuBurst| >= 1 && |p.ioBurst| <= |p.cpuBurst| <= |p.ioBurst| + 1
    && 1 <= p.queueNumber <= 3 && 0 <= p.idx
  }

  predicate AtCpuBurst(p: Process)
  {
    0 <= p.idx < |p.cpuBurst|
  }

  predicate TableOk(s: State)
  {
    forall j :: 0 <= j < |s.procs| ==> WellFormed(s.procs[j])
  }

  /** Every waiting process is at a CPU burst and sits in the queue of its own
      queue number. */
  predicate QueuesOk(s: State)
  {
    forall l, id {:trigger id in s.queues.Get(l).items} :: 1 <= l <= 3 && id in s.queues.Get(l).items ==>
      id < |s.procs| && AtCpuBurst(s.procs[id]) && s.procs[id].queueNumber == l
  }

  /** The arriving and returning lists hold level-1 processes at a CPU burst. */
  predicate Level1Ok(s: State, ids: seq<nat>)
  {
    forall id :: id in ids ==> id < |s.procs| && AtCpuBurst(s.procs[id]) && s.procs[id].queueNumber == 1
  }

  /** The occupant is at a CPU burst, and no switch is pending while the CPU
      is occupied. */
  predicate CpuOk(s: State)
  {
    s.cpu.Some? ==> s.cpu.value < |s.procs| && AtCpuBurst(s.procs[s.cpu.value]) && !s.contextSwitch
  }

  predicate IoOk(s: State)
  {
    forall id :: id in s.io ==> id < |s.procs| && IoShape(s.procs[id])
  }

  /** A finished process completed after it arrived and no later than the
      end of the current tick. */
  predicate FinishedOk(s: State)
  {
    forall id :: id in s.finished ==>
      id < |s.procs| && s.procs[id].arrival < s.procs[id].completionTime <= s.time + 1
  }

  predicate Arrived(s: State, h: int, id: nat)
  {
    id < |s.procs| && 0 <= s.procs[id].arrival < h
  }

  /** Each arrived process is in exactly one place (a queue, the arriving or
      returning list, the CPU, the I/O list or the finished list), and no
      other process is anywhere. */
  ghost predicate Exact(s: State, h: int)
  {
    forall id :: Placed(s)[id] == if Arrived(s, h, id) then 1 else 0
  }

  /** The processes yet to arrive are as they were created. */
  predicate Untouched(s: State, h: int)
  {
    forall j :: 0 <= j < |s.procs| && s.procs[j].arrival >= h ==> IsFresh(s.procs[j])
  }

  ghost predicate Inv(cfg: Config, s: State, h: int)
  {
    && ConfigOk(cfg) && 0 <= s.time && h <= s.time + 1
    && TableOk(s) && QueuesOk(s)
    && Level1Ok(s, s.arriving) && Level1Ok(s, s.returning)
    && CpuOk(s) && IoOk(s) && FinishedOk(s)
    && Exact(s, h) && Untouched(s, h)
  }

  // ---------------------------------------------------------------------
  // Consequences

  lemma CountAtLeastTwo(xs: seq<nat>, a: nat, b: nat)
    requires a < b < |xs| && xs[a] == xs[b]
    ensures multiset(xs)[xs[a]] >= 2
  {
    assert xs == xs[..b] + [xs[b]] + xs[b + 1..];
    assert xs[a] in multiset(xs[..b]) by { assert xs[..b][a] == xs[a]; }
  }

  /** The invariant gives `run_io` what it needs. */
  lemma InvIoReady(cfg: Config, s: State, h: int)
    requires Inv(cfg, s, h)
    ensures IoReady(s)
  {
    forall a, b | 0 <= a < b < |s.io| ensures s.io[a] != s.io[b] {
      var x := s.io[a];
      assert Placed(s)[x] >= multiset(s.io)[x];
      assert Placed(s)[x] <= 1;
      if s.io[a] == s.io[b] {
        CountAtLeastTwo(s.io, a, b);
      }
    }
    forall k | 0 <= k < |s.io| ensures s.io[k] < |s.procs| && IoShape(s.procs[s.io[k]]) {
      assert s.io[k] in s.io;
    }
  }

  lemma InvQueueRefs(cfg: Config, s: State, h: int)
    requires Inv(cfg, s, h)
    ensures QueueRefs(s) && Named(s)
    ensures s.cpu.None? <==> Vacant(s)
  {
    forall l | 1 <= l <= 3 ensures AllIn(|s.procs|, s.queues.Get(l).items) {
      var q := s.queues.Get(l).items;
      forall k | 0 <= k < |q| ensures q[k] < |s.procs| {
        assert QueuesOk(s);
        assert q[k] in q;
      }
    }
  }

  /** The occupant is nowhere but in the CPU. */
  lemma OccupantOnlyInCpu(cfg: Config, s: State, h: int)
    requires Inv(cfg, s, h) && s.cpu.Some?
    ensures var id := s.cpu.value;
      && id !in s.queues.q1.items && id !in s.queues.q2.items && id !in s.queues.q3.items
      && id !in s.arriving && id !in s.returning && id !in s.io && id !in s.finished
  {
    var id := s.cpu.value;
    assert Placed(s)[id] <= 1;
    assert multiset(CpuSeq(s))[id] == 1;
  }

  // ---------------------------------------------------------------------
  // Preservation, operation by operation

  /** A table of well-formed, freshly created processes starts the invariant. */
  lemma InitInv(cfg: Config, procs: seq<Process>)
    requires ConfigOk(cfg)
    requires forall j :: 0 <= j < |procs| ==> WellFormed(procs[j]) && IsFresh(procs[j])
    ensures Inv(cfg, Init(procs), 0)
  {
  }

  lemma IncreasingCount(xs: seq<nat>, x: nat)
    requires forall i, j :: 0 <= i < j < |xs| ==> xs[i] < xs[j]
    ensures multiset(xs)[x] == if x in xs then 1 else 0
  {
    if |xs| > 0 {
      assert xs == [xs[0]] + xs[1..];
      IncreasingCount(xs[1..], x);
      if x == xs[0] {
        assert x !in xs[1..];
      }
    }
  }

  lemma ArrivingRefs(cfg: Config, s: State)
    requires Inv(cfg, s, s.time)
    ensures AllIn(|s.procs|, s.arriving)
  {
    forall k | 0 <= k < |s.arriving| ensures s.arriving[k] < |s.procs| {
      assert s.arriving[k] in s.arriving;
    }
  }

  lemma ArrivalsExact(s: State, r: State)
    requires Exact(s, s.time) && 0 <= s.time
    requires r == s.(arriving := r.arriving)
    requires multiset(r.arriving) == multiset(s.arriving) + multiset(ArrivalsAt(s.procs, s.time))
    ensures Exact(r, s.time + 1)
  {
    var news := ArrivalsAt(s.procs, s.time);
    forall id ensures Placed(r)[id] == if Arrived(r, s.time + 1, id) then 1 else 0 {
      IncreasingCount(news, id);
      assert Placed(r)[id] == Placed(s)[id] + multiset(news)[id];
      assert Placed(s)[id] == if Arrived(s, s.time, id) then 1 else 0;
    }
  }

  lemma ArrivalsLevel1(s: State, r: State)
    requires Level1Ok(s, s.arriving) && TableOk(s) && Untouched(s, s.time)
    requires r == s.(arriving := r.arriving)
    requires multiset(r.arriving) == multiset(s.arriving) + multiset(ArrivalsAt(s.procs, s.time))
    ensures Level1Ok(r, r.arriving)
  {
    var news := ArrivalsAt(s.procs, s.time);
    forall id | id in r.arriving
      ensures id < |r.procs| && AtCpuBurst(r.procs[id]) && r.procs[id].queueNumber == 1
    {
      assert id in multiset(s.arriving) + multiset(news);
      if id !in s.arriving {
        assert id in news;
        assert IsFresh(s.procs[id]);
      }
    }
  }

  lemma UpdateArrivingInv(cfg: Config, s: State)
    requires Inv(cfg, s, s.time)
    ensures AllIn(|s.procs|, s.arriving)
    ensures Inv(cfg, UpdateArriving(s), s.time + 1)
  {
    ArrivingRefs(cfg, s);
    var r := UpdateArriving(s);
    ArrivalsExact(s, r);
    ArrivalsLevel1(s, r);
  }

  /** Moving ids around without touching arrival times keeps exactness. */
  lemma ExactFrame(s: State, r: State, h: int)
    requires Exact(s, h) && Placed(r) == Placed(s) && |r.procs| == |s.procs|
    requires forall j :: 0 <= j < |s.procs| ==> r.procs[j].arrival == s.procs[j].arrival
    ensures Exact(r, h)
  {
    forall id ensures Placed(r)[id] == if Arrived(r, h, id) then 1 else 0 {
      assert Placed(s)[id] == if Arrived(s, h, id) then 1 else 0;
    }
  }

  lemma ArrivingToQueueQueues(s: State)
    requires QueuesOk(s) && Level1Ok(s, s.arriving) && Level1Ok(s, s.returning)
    ensures QueuesOk(ArrivingToQueue(s))
  {
    var r := ArrivingToQueue(s);
    assert r.queues.Get(1) == r.queues.q1 && s.queues.Get(1) == s.queues.q1;
    forall l, id {:trigger id in r.queues.Get(l).items} | 1 <= l <= 3 && id in r.queues.Get(l).items
      ensures id < |r.procs| && AtCpuBurst(r.procs[id]) && r.procs[id].queueNumber == l
    {
      if l == 1 {
        assert id in s.queues.q1.items + s.arriving + s.returning;
        assert id in s.queues.Get(1).items || id in s.arriving || id in s.returning;
      } else {
        assert r.queues.Get(l) == s.queues.Get(l);
      }
    }
  }

  lemma ArrivingToQueueInv(cfg: Config, s: State, h: int)
    requires Inv(cfg, s, h)
    ensures Inv(cfg, ArrivingToQueue(s), h)
  {
    var r := ArrivingToQueue(s);
    ArrivingToQueueQueues(s);
    ExactFrame(s, r, h);
  }

  lemma DispatchPlaced(s: State, l: int)
    requires 1 <= l <= 3 && |s.queues.Get(l).items| > 0 && s.cpu.None?
    ensures Placed(Dispatch(s, l)) == Placed(s)
  {
    var r := Dispatch(s, l);
    var q := s.queues.Get(l).items;
    assert q == [q[0]] + q[1..];
    assert multiset(q) == multiset{q[0]} + multiset(q[1..]);
    assert r.queues.Contents() + multiset(q) == s.queues.Contents() + multiset(q[1..]);
    assert r.queues.Contents() + multiset{q[0]} == s.queues.Contents();
    assert multiset(CpuSeq(r)) == multiset{q[0]};
    assert multiset(CpuSeq(s)) == multiset{};
    assert r.(cpu := s.cpu, queues := s.queues) == s;
  }

  lemma DispatchQueues(s: State, l: int)
    requires 1 <= l <= 3 && |s.queues.Get(l).items| > 0 && !s.contextSwitch
    requires QueuesOk(s)
    ensures QueuesOk(Dispatch(s, l)) && CpuOk(Dispatch(s, l))
  {
    var r := Dispatch(s, l);
    var q := s.queues.Get(l).items;
    assert q[0] in q;
    forall m, id {:trigger id in r.queues.Get(m).items} | 1 <= m <= 3 && id in r.queues.Get(m).items
      ensures id < |r.procs| && AtCpuBurst(r.procs[id]) && r.procs[id].queueNumber == m
    {
      if m == l {
        assert id in q[1..];
        assert id in q;
      } else {
        assert r.queues.Get(m) == s.queues.Get(m);
      }
    }
  }

  lemma QueueToCpuInv(cfg: Config, s: State, h: int)
    requires Inv(cfg, s, h)
    ensures Inv(cfg, QueueToCpu(s), h)
  {
    InvQueueRefs(cfg, s, h);
    var r := QueueToCpu(s);
    if !s.contextSwitch && Vacant(s) && HighestReady(s.queues) <= 3 {
      var l := HighestReady(s.queues);
      assert r == Dispatch(s, l);
      DispatchPlaced(s, l);
      DispatchQueues(s, l);
      ExactFrame(s, r, h);
    }
  }

  /** A placed id has arrived. */
  lemma PlacedArrived(cfg: Config, s: State, h: int, id: nat)
    requires Inv(cfg, s, h) && id in Placed(s)
    ensures Arrived(s, h, id) && s.procs[id].arrival < h
  {
    assert Placed(s)[id] == if Arrived(s, h, id) then 1 else 0;
  }

  /** The fields of a process the invariant reads. */
  predicate SameShape(p: Process, q: Process)
  {
    && q.name == p.name && q.arrival == p.arrival
    && q.cpuBurst == p.cpuBurst && q.ioBurst == p.ioBurst
    && q.idx == p.idx && q.queueNumber == p.queueNumber
    && q.completionTime == p.completionTime
  }

  /** Changing only the counters of arrived processes (and the switch timer)
      keeps the invariant. */
  lemma CountersFrame(cfg: Config, s: State, r: State, h: int)
    requires Inv(cfg, s, h)
    requires r == s.(procs := r.procs, switchTimePass := r.switchTimePass)
    requires |r.procs| == |s.procs|
    requires forall j :: 0 <= j < |s.procs| ==> SameShape(s.procs[j], r.procs[j])
    requires forall j :: 0 <= j < |s.procs| && !Arrived(s, h, j) ==> r.procs[j] == s.procs[j]
    ensures Inv(cfg, r, h)
  {
    forall l, id {:trigger id in r.queues.Get(l).items} | 1 <= l <= 3 && id in r.queues.Get(l).items
      ensures id < |r.procs| && AtCpuBurst(r.procs[id]) && r.procs[id].queueNumber == l
    {
      assert id in s.queues.Get(l).items;
    }
    CountersLists(cfg, s, r, h);
    assert Placed(r) == Placed(s) by {
      assert Held(r) == Held(s);
    }
    ExactFrame(s, r, h);
  }

  lemma CountersLists(cfg: Config, s: State, r: State, h: int)
    requires Inv(cfg, s, h)
    requires r == s.(procs := r.procs, switchTimePass := r.switchTimePass)
    requires |r.procs| == |s.procs|
    requires forall j :: 0 <= j < |s.procs| ==> SameShape(s.procs[j], r.procs[j])
    requires forall j :: 0 <= j < |s.procs| && !Arrived(s, h, j) ==> r.procs[j] == s.procs[j]
    ensures && Level1Ok(r, r.arriving) && Level1Ok(r, r.returning) && IoOk(r) && FinishedOk(r)
      && TableOk(r) && Untouched(r, h) && CpuOk(r)
  {
    forall id | id in r.arriving ensures id < |r.procs| && AtCpuBurst(r.procs[id]) && r.procs[id].queueNumber == 1 {
      assert SameShape(s.procs[id], r.procs[id]);
    }
    forall id | id in r.returning ensures id < |r.procs| && AtCpuBurst(r.procs[id]) && r.procs[id].queueNumber == 1 {
      assert SameShape(s.procs[id], r.procs[id]);
    }
    forall id | id in r.io ensures id < |r.procs| && IoShape(r.procs[id]) {
      assert SameShape(s.procs[id], r.procs[id]);
    }
    forall id | id in r.finished
      ensures id < |r.procs| && r.procs[id].arrival < r.procs[id].completionTime <= r.time + 1
    {
      assert SameShape(s.procs[id], r.procs[id]);
    }
    forall j | 0 <= j < |r.procs| ensures WellFormed(r.procs[j]) {
      assert SameShape(s.procs[j], r.procs[j]);
    }
    forall j | 0 <= j < |r.procs| && r.procs[j].arrival >= h ensures IsFresh(r.procs[j]) {
      assert !Arrived(s, h, j);
    }
  }

  /** The first half of a preemption: the occupant back at the tail of its
      own level and the CPU emptied. */
  function Evict(cfg: Config, s: State): State
    requires s.cpu.Some? && s.cpu.value < |s.procs| && 1 <= s.procs[s.cpu.value].queueNumber <= 3
  {
    EmptyCpu(cfg, Enqueue(s, s.procs[s.cpu.value].queueNumber, s.cpu.value))
  }

  lemma EvictPlaced(cfg: Config, s: State)
    requires s.cpu.Some? && s.cpu.value < |s.procs| && 1 <= s.procs[s.cpu.value].queueNumber <= 3
    ensures Placed(Evict(cfg, s)) == Placed(s)
    ensures Evict(cfg, s).procs == s.procs
  {
    var s1 := Enqueue(s, s.procs[s.cpu.value].queueNumber, s.cpu.value);
    var e := EmptyCpu(cfg, s1);
    EmptyCpuPlaced(cfg, s1);
    assert multiset(CpuSeq(s1)) == multiset{s.cpu.value};
    CancelOne(Placed(e), Placed(s), s.cpu.value);
  }

  lemma EvictQueues(cfg: Config, s: State, h: int)
    requires Inv(cfg, s, h) && s.cpu.Some?
    ensures QueuesOk(Evict(cfg, s))
  {
    var id := s.cpu.value;
    var qn := s.procs[id].queueNumber;
    var e := Evict(cfg, s);
    forall l, x {:trigger x in e.queues.Get(l).items} | 1 <= l <= 3 && x in e.queues.Get(l).items
      ensures x < |e.procs| && AtCpuBurst(e.procs[x]) && e.procs[x].queueNumber == l
    {
      if l == qn {
        assert x in s.queues.Get(l).items + [id];
        if x != id {
          assert x in s.queues.Get(l).items;
        }
      } else {
        assert x in s.queues.Get(l).items;
      }
    }
  }

  lemma EvictInv(cfg: Config, s: State, h: int)
    requires Inv(cfg, s, h) && s.cpu.Some?
    ensures Inv(cfg, Evict(cfg, s), h)
  {
    EvictPlaced(cfg, s);
    EvictQueues(cfg, s, h);
    ExactFrame(s, Evict(cfg, s), h);
  }

  lemma PreemptInv(cfg: Config, s: State, h: int)
    requires Inv(cfg, s, h) && s.cpu.Some?
    ensures QueueRefs(s) && Inv(cfg, Preempt(cfg, s), h)
  {
    InvQueueRefs(cfg, s, h);
    EvictInv(cfg, s, h);
    QueueToCpuInv(cfg, Evict(cfg, s), h);
  }

  lemma CheckPreemptionInv(cfg: Config, s: State, h: int)
    requires Inv(cfg, s, h)
    ensures QueueRefs(s) && 1 <= CpuProcess(s).queueNumber <= 3
    ensures Inv(cfg, CheckPreemption(cfg, s), h)
  {
    InvQueueRefs(cfg, s, h);
    var s1 :=
      if s.cpu.Some? && HighestReady(s.queues) < CpuProcess(s).queueNumber then Preempt(cfg, s)
      else s;
    if s.cpu.Some? && HighestReady(s.queues) < CpuProcess(s).queueNumber {
      PreemptInv(cfg, s, h);
    }
    InvQueueRefs(cfg, s1, h);
    if Vacant(s1) {
      QueueToCpuInv(cfg, s1, h);
    }
  }

  lemma RunCpuInv(cfg: Config, s: State, h: int)
    requires Inv(cfg, s, h)
    ensures CpuRef(s) && (!s.contextSwitch && !Vacant(s) ==> 0 <= CpuProcess(s).idx < |CpuProcess(s).cpuBurst|)
    ensures Inv(cfg, RunCpu(s), h)
  {
    InvQueueRefs(cfg, s, h);
    var r := RunCpu(s);
    if !s.contextSwitch && !Vacant(s) {
      PlacedArrived(cfg, s, h, s.cpu.value);
      CountersFrame(cfg, s, r, h);
    } else {
      CountersFrame(cfg, s, r, h);
    }
  }

  lemma ClearContextSwitchInv(cfg: Config, s: State, h: int)
    requires Inv(cfg, s, h)
    ensures Inv(cfg, ClearContextSwitch(cfg, s), h)
  {
    var r := ClearContextSwitch(cfg, s);
    assert Placed(r) == Placed(s);
    forall l, id {:trigger id in r.queues.Get(l).items} | 1 <= l <= 3 && id in r.queues.Get(l).items
      ensures id < |r.procs| && AtCpuBurst(r.procs[id]) && r.procs[id].queueNumber == l
    {
      assert id in s.queues.Get(l).items;
    }
    ExactFrame(s, r, h);
  }

  // ---------------------------------------------------------------------
  // The I/O sweep

  /** A process of the I/O list is nowhere else, and only once in it. */
  lemma OnlyInIo(cfg: Config, s: State, h: int, i: nat)
    requires Inv(cfg, s, h) && i < |s.io|
    ensures var id := s.io[i];
      && id !in s.queues.q1.items && id !in s.queues.q2.items && id !in s.queues.q3.items
      && id !in s.arriving && id !in s.returning && id !in s.finished && s.cpu != Some(id)
      && id !in RemoveAt(s.io, i)
  {
    var id := s.io[i];
    assert Placed(s)[id] <= 1;
    assert s.io == s.io[..i] + [id] + s.io[i + 1..];
    assert multiset(s.io)[id] == multiset(RemoveAt(s.io, i))[id] + 1;
    assert multiset(CpuSeq(s))[id] == 0;
  }

  lemma RemoveAtIn(xs: seq<nat>, i: nat, x: nat)
    requires i < |xs| && x in RemoveAt(xs, i)
    ensures x in xs
  {
    if x in xs[..i] {
      var k :| 0 <= k < i && xs[..i][k] == x;
      assert xs[k] == x;
    } else {
      assert x in xs[i + 1..];
      var k :| 0 <= k < |xs| - i - 1 && xs[i + 1..][k] == x;
      assert xs[i + 1 + k] == x;
    }
  }

  /** A process that stays in the I/O list after its tick. */
  lemma IoTickInv(cfg: Config, s: State, h: int, i: nat)
    requires Inv(cfg, s, h) && i < |s.io|
    ensures s.io[i] < |s.procs| && IoShape(s.procs[s.io[i]])
    ensures var id := s.io[i]; Inv(cfg, s.(procs := s.procs[id := IoTick(s.procs[id])]), h)
  {
    var id := s.io[i];
    assert id in s.io;
    assert id in Placed(s);
    PlacedArrived(cfg, s, h, id);
    CountersFrame(cfg, s, s.(procs := s.procs[id := IoTick(s.procs[id])]), h);
  }

  lemma RemoveAtCount(xs: seq<nat>, i: nat)
    requires i < |xs|
    ensures multiset(xs) == multiset(RemoveAt(xs, i)) + multiset{xs[i]}
  {
    assert xs == xs[..i] + [xs[i]] + xs[i + 1..];
  }

  /** Taking one id off the I/O list takes exactly it off the placed ids. */
  lemma DropIoPlaced(s: State, i: nat)
    requires i < |s.io|
    ensures Placed(s) == Placed(s.(io := RemoveAt(s.io, i))) + multiset{s.io[i]}
  {
    RemoveAtCount(s.io, i);
  }

  /** The placed ids do not depend on the process table. */
  lemma LeaveIoPlacedRequeue(s: State, i: nat, p: Process)
    requires i < |s.io| && s.io[i] < |s.procs| && 1 <= p.queueNumber <= 3
    requires p.idx + 1 != |p.cpuBurst|
    ensures Placed(LeaveIo(s, i, p)) == Placed(s)
  {
    var id := s.io[i];
    var q := p.(idx := p.idx + 1, quantumPassed := 0);
    DropIoPlaced(s, i);
    PlacedIgnoresProcs(s.(io := RemoveAt(s.io, i)), s.procs[id := q]);
  }

  lemma LeaveIoPlacedDone(s: State, i: nat, p: Process)
    requires i < |s.io| && s.io[i] < |s.procs| && 1 <= p.queueNumber <= 3
    requires p.idx + 1 == |p.cpuBurst|
    ensures Placed(LeaveIo(s, i, p)) == Placed(s)
  {
    var id := s.io[i];
    var q := p.(idx := p.idx + 1, quantumPassed := 0);
    DropIoPlaced(s, i);
    PlacedIgnoresProcs(s.(io := RemoveAt(s.io, i)), s.procs[id := q]);
  }

  lemma LeaveIoPlaced(s: State, i: nat, p: Process)
    requires i < |s.io| && s.io[i] < |s.procs| && 1 <= p.queueNumber <= 3
    ensures Placed(LeaveIo(s, i, p)) == Placed(s)
  {
    if p.idx + 1 != |p.cpuBurst| {
      LeaveIoPlacedRequeue(s, i, p);
    } else {
      LeaveIoPlacedDone(s, i, p);
    }
  }

  /** What leaving I/O does to the state, stated without `LeaveIo`: only
      the leaving process's record changes, in its I/O counters and burst
      index; it is off the I/O list and either at the tail of its own level
      (a CPU burst remaining) or on the finished list. */
  predicate LeftIo(s: State, i: nat, r: State)
    requires i < |s.io| && s.io[i] < |s.procs|
  {
    var id := s.io[i]; var qn := s.procs[id].queueNumber;
    && |r.procs| == |s.procs| && r.procs == s.procs[id := r.procs[id]]
    && SameButIoCounters(s.procs[id], r.procs[id]) && r.procs[id].idx == s.procs[id].idx + 1
    && r.io == RemoveAt(s.io, i) && r.arriving == s.arriving && r.returning == s.returning
    && r.cpu == s.cpu && r.contextSwitch == s.contextSwitch && r.time == s.time
    && Placed(r) == Placed(s)
    && if r.procs[id].idx == |r.procs[id].cpuBurst| then
         r.queues == s.queues && r.finished == s.finished + [id] && r.procs[id].completionTime == s.time + 1
       else
         && 1 <= qn <= 3 && r.finished == s.finished
         && r.queues.Get(qn).items == s.queues.Get(qn).items + [id]
         && (forall l :: 1 <= l <= 3 && l != qn ==> r.queues.Get(l) == s.queues.Get(l))
  }

  lemma LeaveIoLeftIo(cfg: Config, s: State, h: int, i: nat)
    requires Inv(cfg, s, h) && i < |s.io|
    ensures s.io[i] < |s.procs| && IoShape(s.procs[s.io[i]])
    ensures LeftIo(s, i, LeaveIo(s, i, IoTick(s.procs[s.io[i]])))
  {
    InvIoReady(cfg, s, h);
    LeaveIoPlaced(s, i, IoTick(s.procs[s.io[i]]));
  }

  lemma LeftIoQueues(cfg: Config, s: State, h: int, i: nat, r: State)
    requires Inv(cfg, s, h) && i < |s.io| && s.io[i] < |s.procs| && LeftIo(s, i, r)
    ensures QueuesOk(r)
  {
    var id := s.io[i];
    OnlyInIo(cfg, s, h, i);
    InvIoReady(cfg, s, h);
    var q := r.procs[id];
    forall l, x {:trigger x in r.queues.Get(l).items} | 1 <= l <= 3 && x in r.queues.Get(l).items
      ensures x < |r.procs| && AtCpuBurst(r.procs[x]) && r.procs[x].queueNumber == l
    {
      if x == id {
        assert id !in s.queues.Get(l).items;
        assert q.idx != |q.cpuBurst| && l == q.queueNumber;
      } else if q.idx != |q.cpuBurst| && l == q.queueNumber {
        assert x in s.queues.Get(l).items + [id];
        assert x in s.queues.Get(l).items;
      } else {
        assert x in s.queues.Get(l).items;
      }
    }
  }

  lemma LeftIoLists(cfg: Config, s: State, h: int, i: nat, r: State)
    requires Inv(cfg, s, h) && i < |s.io| && s.io[i] < |s.procs| && LeftIo(s, i, r)
    ensures Level1Ok(r, r.arriving) && Level1Ok(r, r.returning)
    ensures CpuOk(r) && IoOk(r) && FinishedOk(r)
    ensures s.procs[s.io[i]].arrival < h
  {
    var id := s.io[i];
    OnlyInIo(cfg, s, h, i);
    assert id in s.io;
    assert id in Placed(s);
    PlacedArrived(cfg, s, h, id);
    LeftIoIo(s, i, r);
    LeftIoFinished(s, i, r);
    LeftIoOthers(s, i, r);
  }

  lemma LeftIoIo(s: State, i: nat, r: State)
    requires i < |s.io| && s.io[i] < |s.procs| && LeftIo(s, i, r)
    requires IoOk(s) && s.io[i] !in RemoveAt(s.io, i)
    ensures IoOk(r)
  {
    forall x | x in r.io ensures x < |r.procs| && IoShape(r.procs[x]) {
      RemoveAtIn(s.io, i, x);
    }
  }

  lemma LeftIoFinished(s: State, i: nat, r: State)
    requires i < |s.io| && s.io[i] < |s.procs| && LeftIo(s, i, r)
    requires FinishedOk(s) && s.io[i] !in s.finished && s.procs[s.io[i]].arrival < s.time + 1
    ensures FinishedOk(r)
  {
    var id := s.io[i];
    forall x | x in r.finished
      ensures x < |r.procs| && r.procs[x].arrival < r.procs[x].completionTime <= r.time + 1
    {
      if x != id {
        assert x in s.finished;
      }
    }
  }

  lemma LeftIoOthers(s: State, i: nat, r: State)
    requires i < |s.io| && s.io[i] < |s.procs| && LeftIo(s, i, r)
    requires Level1Ok(s, s.arriving) && Level1Ok(s, s.returning) && CpuOk(s)
    requires s.io[i] !in s.arriving && s.io[i] !in s.returning && s.cpu != Some(s.io[i])
    ensures Level1Ok(r, r.arriving) && Level1Ok(r, r.returning) && CpuOk(r)
  {
  }

  lemma LeftIoTable(s: State, h: int, i: nat, r: State)
    requires i < |s.io| && s.io[i] < |s.procs| && LeftIo(s, i, r)
    requires TableOk(s) && Untouched(s, h) && s.procs[s.io[i]].arrival < h
    ensures TableOk(r) && Untouched(r, h)
  {
  }

  /** A process that finishes its I/O burst and leaves the I/O list. */
  lemma LeaveIoInv(cfg: Config, s: State, h: int, i: nat)
    requires Inv(cfg, s, h) && i < |s.io|
    ensures s.io[i] < |s.procs| && IoShape(s.procs[s.io[i]])
    ensures Inv(cfg, LeaveIo(s, i, IoTick(s.procs[s.io[i]])), h)
  {
    LeaveIoLeftIo(cfg, s, h, i);
    LeftIoInv(cfg, s, h, i, LeaveIo(s, i, IoTick(s.procs[s.io[i]])));
  }

  lemma LeftIoInv(cfg: Config, s: State, h: int, i: nat, r: State)
    requires Inv(cfg, s, h) && i < |s.io| && s.io[i] < |s.procs| && LeftIo(s, i, r)
    ensures Inv(cfg, r, h)
  {
    LeftIoLists(cfg, s, h, i, r);
    LeftIoTable(s, h, i, r);
    LeftIoQueues(cfg, s, h, i, r);
    ExactFrame(s, r, h);
  }

  lemma {:induction false} IoLoopInv(cfg: Config, s: State, h: int, i: nat)
    requires Inv(cfg, s, h)
    ensures IoReady(s)
    ensures Inv(cfg, IoLoop(s, i), h)
    decreases |s.io| - i
  {
    InvIoReady(cfg, s, h);
    if i < |s.io| {
      IoStepInv(cfg, s, h, i);
      IoLoopInv(cfg, IoStep(s, i), h, i + 1);
    }
  }

  /** One step of the sweep keeps the invariant. */
  lemma IoStepInv(cfg: Config, s: State, h: int, i: nat)
    requires Inv(cfg, s, h) && i < |s.io|
    ensures IoReady(s) && Inv(cfg, IoStep(s, i), h)
  {
    InvIoReady(cfg, s, h);
    var id := s.io[i];
    var p := IoTick(s.procs[id]);
    if p.ioRemaining == 0 {
      LeaveIoInv(cfg, s, h, i);
    } else {
      IoTickInv(cfg, s, h, i);
    }
  }

  // ---------------------------------------------------------------------
  // After the CPU tick

  lemma EmptyCpuPlaced(cfg: Config, s: State)
    ensures Placed(s) == Placed(EmptyCpu(cfg, s)) + multiset(CpuSeq(s))
  {
  }

  /** The occupant leaves the CPU for one of the lists, its shape unchanged
      and nothing else touched: the invariant holds once the lists it may
      have joined are in order. */
  lemma OccupantMoved(cfg: Config, s: State, r: State, h: int)
    requires Inv(cfg, s, h) && s.cpu.Some?
    requires r.cpu.None? && r.queues == s.queues && r.arriving == s.arriving && r.time == s.time
    requires |r.procs| == |s.procs|
    requires forall j :: 0 <= j < |s.procs| ==>
      SameShape(s.procs[j], r.procs[j].(completionTime := s.procs[j].completionTime))
    requires r.procs == s.procs[s.cpu.value := r.procs[s.cpu.value]]
    requires Placed(r) == Placed(s)
    requires Level1Ok(r, r.returning) && IoOk(r) && FinishedOk(r)
    ensures Inv(cfg, r, h)
  {
    var id := s.cpu.value;
    assert id in Placed(s);
    PlacedArrived(cfg, s, h, id);
    forall l, x {:trigger x in r.queues.Get(l).items} | 1 <= l <= 3 && x in r.queues.Get(l).items
      ensures x < |r.procs| && AtCpuBurst(r.procs[x]) && r.procs[x].queueNumber == l
    {
      assert x in s.queues.Get(l).items;
    }
    forall x | x in r.arriving ensures x < |r.procs| && AtCpuBurst(r.procs[x]) && r.procs[x].queueNumber == 1 {
      assert x in s.arriving;
    }
    forall j | 0 <= j < |r.procs| ensures WellFormed(r.procs[j]) {
      assert SameShape(s.procs[j], r.procs[j].(completionTime := s.procs[j].completionTime));
    }
    forall j | 0 <= j < |r.procs| && r.procs[j].arrival >= h ensures IsFresh(r.procs[j]) {
      assert j != id;
    }
    ExactFrame(s, r, h);
  }

  lemma RetireInv(cfg: Config, s: State, h: int)
    requires Inv(cfg, s, h) && s.cpu.Some?
    ensures Inv(cfg, EmptyCpu(cfg, Retire(s, s.cpu.value)), h)
  {
    var id := s.cpu.value;
    var r := EmptyCpu(cfg, Retire(s, id));
    assert multiset(r.finished) == multiset(s.finished) + multiset{id};
    assert multiset(CpuSeq(s)) == multiset{id} && CpuSeq(r) == [];
    OccupantLeavesCpu(s.queues.Contents(), multiset(s.arriving), multiset(s.returning),
      multiset(s.io), multiset(s.finished), id);
    RetireAt(cfg, s, r, h);
  }

  /** The occupant on the finished list, completed one past the tick, keeps
      the invariant. */
  lemma RetireAt(cfg: Config, s: State, r: State, h: int)
    requires Inv(cfg, s, h) && s.cpu.Some?
    requires r.cpu.None? && r.queues == s.queues && r.arriving == s.arriving && r.time == s.time
    requires r.io == s.io && r.returning == s.returning && r.finished == s.finished + [s.cpu.value]
    requires r.procs == s.procs[s.cpu.value := s.procs[s.cpu.value].(completionTime := s.time + 1)]
    requires Placed(r) == Placed(s)
    ensures Inv(cfg, r, h)
  {
    var id := s.cpu.value;
    assert id in Placed(s);
    PlacedArrived(cfg, s, h, id);
    forall x | x in r.finished
      ensures x < |r.procs| && r.procs[x].arrival < r.procs[x].completionTime <= r.time + 1
    {
      if x != id {
        assert x in s.finished;
      }
    }
    OccupantMoved(cfg, s, r, h);
  }

  lemma ToIoInv(cfg: Config, s: State, h: int)
    requires Inv(cfg, s, h) && s.cpu.Some? && s.procs[s.cpu.value].idx < |s.procs[s.cpu.value].ioBurst|
    ensures Inv(cfg, EmptyCpu(cfg, MoveToIo(s)), h)
  {
    var id := s.cpu.value;
    var r := EmptyCpu(cfg, MoveToIo(s));
    assert multiset(r.io) == multiset(s.io) + multiset{id};
    assert multiset(CpuSeq(s)) == multiset{id} && CpuSeq(r) == [];
    OccupantLeavesCpu(s.queues.Contents(), multiset(s.arriving), multiset(s.returning),
      multiset(s.io), multiset(s.finished), id);
    ToIoAt(cfg, s, r, h);
  }

  /** The occupant at the tail of the I/O list keeps the invariant. */
  lemma ToIoAt(cfg: Config, s: State, r: State, h: int)
    requires Inv(cfg, s, h) && s.cpu.Some? && s.procs[s.cpu.value].idx < |s.procs[s.cpu.value].ioBurst|
    requires r.cpu.None? && r.queues == s.queues && r.arriving == s.arriving && r.time == s.time
    requires r.finished == s.finished && r.returning == s.returning && r.io == s.io + [s.cpu.value]
    requires r.procs == s.procs[s.cpu.value := s.procs[s.cpu.value].(quantumPassed := 0, q1RunCounter := 0)]
    requires Placed(r) == Placed(s)
    ensures Inv(cfg, r, h)
  {
    var id := s.cpu.value;
    forall x | x in r.io ensures x < |r.procs| && IoShape(r.procs[x]) {
      if x != id {
        assert x in s.io;
      }
    }
    OccupantMoved(cfg, s, r, h);
  }

  lemma CycleBackInv(cfg: Config, s: State, h: int)
    requires Inv(cfg, s, h) && s.cpu.Some? && s.procs[s.cpu.value].queueNumber == 1
    ensures Inv(cfg, EmptyCpu(cfg, CycleBack(s)), h)
  {
    var id := s.cpu.value;
    var r := EmptyCpu(cfg, CycleBack(s));
    assert multiset(r.returning) == multiset(s.returning) + multiset{id};
    assert multiset(CpuSeq(s)) == multiset{id} && CpuSeq(r) == [];
    OccupantLeavesCpu(s.queues.Contents(), multiset(s.arriving), multiset(s.returning),
      multiset(s.io), multiset(s.finished), id);
    CycleBackAt(cfg, s, r, h);
  }

  /** The placed ids, with the occupant's one id moved out of the CPU into
      the returning, I/O or finished list, or into a queue. */
  lemma OccupantLeavesCpu(q: multiset<nat>, a: multiset<nat>, r: multiset<nat>, i: multiset<nat>, f: multiset<nat>, x: nat)
    ensures q + (a + (r + multiset{x}) + multiset{} + i + f) == q + (a + r + multiset{x} + i + f)
    ensures q + (a + r + multiset{} + (i + multiset{x}) + f) == q + (a + r + multiset{x} + i + f)
    ensures q + (a + r + multiset{} + i + (f + multiset{x})) == q + (a + r + multiset{x} + i + f)
    ensures (q + multiset{x}) + (a + r + multiset{} + i + f) == q + (a + r + multiset{x} + i + f)
  {
  }

  /** The occupant set aside to rejoin level 1 keeps the invariant. */
  lemma CycleBackAt(cfg: Config, s: State, r: State, h: int)
    requires Inv(cfg, s, h) && s.cpu.Some? && s.procs[s.cpu.value].queueNumber == 1
    requires r.cpu.None? && r.queues == s.queues && r.arriving == s.arriving && r.time == s.time
    requires r.io == s.io && r.finished == s.finished && r.returning == s.returning + [s.cpu.value]
    requires |r.procs| == |s.procs|
    requires r.procs == s.procs[s.cpu.value := s.procs[s.cpu.value].(q1RunCounter := r.procs[s.cpu.value].q1RunCounter)]
    requires Placed(r) == Placed(s)
    ensures Inv(cfg, r, h)
  {
    var id := s.cpu.value;
    forall x | x in r.returning
      ensures x < |r.procs| && AtCpuBurst(r.procs[x]) && r.procs[x].queueNumber == 1
    {
      if x != id {
        assert x in s.returning;
      }
    }
    OccupantMoved(cfg, s, r, h);
  }

  lemma DemoteInv(cfg: Config, s: State, h: int)
    requires Inv(cfg, s, h) && s.cpu.Some? && s.procs[s.cpu.value].queueNumber < 3
    ensures Inv(cfg, EmptyCpu(cfg, MoveProcessDownQueue(s)), h)
  {
    var id := s.cpu.value;
    var m := MoveProcessDownQueue(s);
    var r := EmptyCpu(cfg, m);
    DemotedAndEmptied(cfg, s);
    assert multiset(CpuSeq(m)) == multiset{id};
    EmptyCpuPlaced(cfg, m);
    CancelOne(Placed(r), Placed(s), id);
    DemoteAt(cfg, s, r, h);
  }

  lemma CancelOne(a: multiset<nat>, b: multiset<nat>, x: nat)
    requires a + multiset{x} == b + multiset{x}
    ensures a == b
  {
    assert forall y :: a[y] == (a + multiset{x})[y] - multiset{x}[y];
    assert forall y :: b[y] == (b + multiset{x})[y] - multiset{x}[y];
  }

  /** The occupant, one level down with its round counter cleared, at the
      tail of that level keeps the invariant. */
  lemma DemoteAt(cfg: Config, s: State, r: State, h: int)
    requires Inv(cfg, s, h) && s.cpu.Some? && s.procs[s.cpu.value].queueNumber < 3
    requires var id := s.cpu.value; var p := s.procs[id];
      && r.queues.Get(p.queueNumber + 1).items == s.queues.Get(p.queueNumber + 1).items + [id]
      && (forall l :: 1 <= l <= 3 && l != p.queueNumber + 1 ==> r.queues.Get(l) == s.queues.Get(l))
      && r.procs == s.procs[id := p.(queueNumber := p.queueNumber + 1, q1RunCounter := 0)]
    requires r.cpu.None? && r.arriving == s.arriving && r.time == s.time
    requires r.io == s.io && r.finished == s.finished && r.returning == s.returning
    requires Placed(r) == Placed(s)
    ensures Inv(cfg, r, h)
  {
    DemoteQueues(cfg, s, r, h);
    DemoteLists(cfg, s, r, h);
    ExactFrame(s, r, h);
  }

  lemma DemoteQueues(cfg: Config, s: State, r: State, h: int)
    requires Inv(cfg, s, h) && s.cpu.Some? && s.procs[s.cpu.value].queueNumber < 3
    requires var id := s.cpu.value; var p := s.procs[id];
      && r.queues.Get(p.queueNumber + 1).items == s.queues.Get(p.queueNumber + 1).items + [id]
      && (forall l :: 1 <= l <= 3 && l != p.queueNumber + 1 ==> r.queues.Get(l) == s.queues.Get(l))
      && r.procs == s.procs[id := p.(queueNumber := p.queueNumber + 1, q1RunCounter := 0)]
    ensures QueuesOk(r)
  {
    var id := s.cpu.value;
    var qn := s.procs[id].queueNumber;
    OccupantOnlyInCpu(cfg, s, h);
    forall l, x {:trigger x in r.queues.Get(l).items} | 1 <= l <= 3 && x in r.queues.Get(l).items
      ensures x < |r.procs| && AtCpuBurst(r.procs[x]) && r.procs[x].queueNumber == l
    {
      if l == qn + 1 {
        assert x in s.queues.Get(l).items + [id];
        if x != id {
          assert x in s.queues.Get(l).items;
        }
      } else {
        assert x in s.queues.Get(l).items;
        assert x != id;
      }
    }
  }

  lemma DemoteLists(cfg: Config, s: State, r: State, h: int)
    requires Inv(cfg, s, h) && s.cpu.Some?
    requires var id := s.cpu.value; var p := s.procs[id];
      r.procs == s.procs[id := p.(queueNumber := p.queueNumber + 1, q1RunCounter := 0)]
    requires s.procs[s.cpu.value].queueNumber < 3
    requires r.cpu.None? && r.arriving == s.arriving && r.time == s.time
    requires r.io == s.io && r.finished == s.finished && r.returning == s.returning
    ensures && Level1Ok(r, r.arriving) && Level1Ok(r, r.returning) && IoOk(r) && FinishedOk(r)
      && TableOk(r) && Untouched(r, h) && CpuOk(r) && 0 <= r.time
  {
    var id := s.cpu.value;
    OccupantOnlyInCpu(cfg, s, h);
    assert id in Placed(s);
    PlacedArrived(cfg, s, h, id);
  }

  lemma RunCpu2Inv(cfg: Config, s: State, h: int)
    requires Inv(cfg, s, h)
    ensures CpuRef(s) && 1 <= CpuProcess(s).queueNumber <= 3
    ensures Inv(cfg, RunCpu2(cfg, s), h)
  {
    if s.cpu.Some? {
      var p := s.procs[s.cpu.value];
      if BurstExhausted(p) {
        if p.idx >= |p.ioBurst| {
          RetireInv(cfg, s, h);
        } else {
          ToIoInv(cfg, s, h);
        }
      } else if AllotmentReached(cfg, p) {
        DemoteInv(cfg, s, h);
      } else if QuantumExpired(p) {
        CycleBackInv(cfg, s, h);
      }
    }
  }

  lemma UpdateTimeInv(cfg: Config, s: State)
    requires Inv(cfg, s, s.time + 1)
    ensures Inv(cfg, UpdateTime(s), s.time + 1)
  {
    var r := UpdateTime(s);
    assert Placed(r) == Placed(s);
    forall l, id {:trigger id in r.queues.Get(l).items} | 1 <= l <= 3 && id in r.queues.Get(l).items
      ensures id < |r.procs| && AtCpuBurst(r.procs[id]) && r.procs[id].queueNumber == l
    {
      assert id in s.queues.Get(l).items;
    }
    ExactFrame(s, r, s.time + 1);
  }

  // ---------------------------------------------------------------------
  // Priority

  /** No level numbered below the occupant's queue number holds a process. */
  predicate RespectsPriority(s: State)
  {
    s.cpu.Some? && s.cpu.value < |s.procs| ==>
      forall l :: 1 <= l <= 3 && l < s.procs[s.cpu.value].queueNumber ==> |s.queues.Get(l).items| == 0
  }

  /** A dispatch installs a process of the lowest-numbered non-empty level,
      whose queue number is that level. */
  lemma DispatchRespectsPriority(cfg: Config, s: State, h: int)
    requires Inv(cfg, s, h) && s.cpu.None?
    ensures RespectsPriority(QueueToCpu(s))
  {
    InvQueueRefs(cfg, s, h);
    if !s.contextSwitch && Vacant(s) && HighestReady(s.queues) <= 3 {
      var l := HighestReady(s.queues);
      var q := s.queues.Get(l).items;
      assert q[0] in q;
      var r := QueueToCpu(s);
      assert r.procs[r.cpu.value].queueNumber == l;
      forall m | 1 <= m <= 3 && m < l ensures |r.queues.Get(m).items| == 0 {
        assert r.queues.Get(m) == s.queues.Get(m);
      }
    }
  }

  /** `check_preemption` leaves the CPU either vacant or held by a process no
      waiting process outranks. */
  lemma CheckPreemptionRespectsPriority(cfg: Config, s: State, h: int)
    requires Inv(cfg, s, h)
    ensures QueueRefs(s) && 1 <= CpuProcess(s).queueNumber <= 3
    ensures RespectsPriority(CheckPreemption(cfg, s))
  {
    InvQueueRefs(cfg, s, h);
    if s.cpu.Some? && HighestReady(s.queues) < CpuProcess(s).queueNumber {
      EvictInv(cfg, s, h);
      InvQueueRefs(cfg, Evict(cfg, s), h);
      DispatchRespectsPriority(cfg, Evict(cfg, s), h);
      var s1 := Preempt(cfg, s);
      assert s1 == QueueToCpu(Evict(cfg, s));
      PreemptInv(cfg, s, h);
      InvQueueRefs(cfg, s1, h);
      if Vacant(s1) {
        assert s1.cpu.None?;
        DispatchRespectsPriority(cfg, s1, h);
      }
    } else if Vacant(s) {
      DispatchRespectsPriority(cfg, s, h);
    }
  }

  // ---------------------------------------------------------------------
  // Completion

  lemma RemoveAtNoDup(xs: seq<nat>, k: nat)
    requires NoDup(xs) && k < |xs|
    ensures NoDup(RemoveAt(xs, k)) && xs[k] !in RemoveAt(xs, k)
  {
    var t := RemoveAt(xs, k);
    forall a | 0 <= a < |t| ensures t[a] == xs[if a < k then a else a + 1] {}
  }

  /** A list of distinct ids below `n` has at most `n` entries. */
  lemma {:induction false} DistinctBound(xs: seq<nat>, n: nat)
    requires NoDup(xs) && AllIn(n, xs)
    ensures |xs| <= n
    decreases n
  {
    if |xs| > 0 {
      assert xs[0] < n;
      if n - 1 in xs {
        var k :| 0 <= k < |xs| && xs[k] == n - 1;
        var t := RemoveAt(xs, k);
        RemoveAtNoDup(xs, k);
        forall a | 0 <= a < |t| ensures t[a] < n - 1 {
          assert t[a] == xs[if a < k then a else a + 1];
        }
        DistinctBound(t, n - 1);
      } else {
        forall a | 0 <= a < |xs| ensures xs[a] < n - 1 {
          assert xs[a] in xs;
        }
        DistinctBound(xs, n - 1);
      }
    }
  }

  /** A list of at least `n` distinct ids below `n` holds every one of them. */
  lemma {:induction false} DistinctFull(xs: seq<nat>, n: nat)
    requires NoDup(xs) && AllIn(n, xs) && |xs| >= n
    ensures forall j :: 0 <= j < n ==> j in xs
    decreases n
  {
    if n > 0 {
      if n - 1 !in xs {
        forall a | 0 <= a < |xs| ensures xs[a] < n - 1 {
          assert xs[a] in xs;
        }
        DistinctBound(xs, n - 1);
        assert false;
      }
      var k :| 0 <= k < |xs| && xs[k] == n - 1;
      var t := RemoveAt(xs, k);
      RemoveAtNoDup(xs, k);
      forall a | 0 <= a < |t| ensures t[a] < n - 1 {
        assert t[a] == xs[if a < k then a else a + 1];
      }
      DistinctFull(t, n - 1);
      forall j | 0 <= j < n ensures j in xs {
        if j < n - 1 {
          RemoveAtIn(xs, k, j);
        }
      }
    }
  }

  /** Once the finished list is as long as the process table, every process
      has finished: the list repeats no process and holds only table ids. */
  lemma AllFinished(cfg: Config, s: State, h: int)
    requires Inv(cfg, s, h) && |s.finished| >= |s.procs|
    ensures forall j :: 0 <= j < |s.procs| ==> j in s.finished
  {
    forall a, b | 0 <= a < b < |s.finished| ensures s.finished[a] != s.finished[b] {
      var x := s.finished[a];
      assert Placed(s)[x] >= multiset(s.finished)[x];
      assert Placed(s)[x] <= 1;
      if s.finished[a] == s.finished[b] {
        CountAtLeastTwo(s.finished, a, b);
      }
    }
    forall a | 0 <= a < |s.finished| ensures s.finished[a] < |s.procs| {
      assert s.finished[a] in s.finished;
    }
    DistinctFull(s.finished, |s.procs|);
  }
}
