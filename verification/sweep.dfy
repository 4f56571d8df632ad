/** The I/O sweep of njlr.py (`run_io`) described without the state it
    threads: which processes of the I/O list get their tick, which of them
    leave, and where each leaver goes, all read off the I/O list and the
    process records as they stood before the sweep. The walk below is the
    reference; `IoLoopSweep` and `RunIoSweep` prove that the state-threading
    loop of `Scheduler` does what it describes. */
module Sweep {
  import opened Processes
  import opened Queues
  import opened Scheduler

  /** This tick ends the current I/O burst of `p`: one more tick makes the
      time passed equal the burst. */
  predicate Ends(p: Process)
  {
    0 <= p.idx < |p.ioBurst| && p.quantumPassed + 1 == p.ioBurst[p.idx]
  }

  /** Every id of `ids` indexes the table. */
  predicate Listed(procs: seq<Process>, ids: seq<nat>)
  {
    forall k :: 0 <= k < |ids| ==> ids[k] < |procs|
  }

  /** The ids the sweep visits, in order, when it stands at the head of
      `ids`: after a process that stays it moves on to the next one; after
      one that leaves, the next one slides into the slot just visited and is
      passed over. */
  function Visits(procs: seq<Process>, ids: seq<nat>): seq<nat>
    requires Listed(procs, ids)
    decreases |ids|
  {
    if |ids| == 0 then []
    else if !Ends(procs[ids[0]]) then [ids[0]] + Visits(procs, ids[1..])
    else if |ids| == 1 then [ids[0]]
    else [ids[0]] + Visits(procs, ids[2..])
  }

  /** The ids still in the I/O list after the walk over `ids`, in order: the
      ones visited whose burst goes on, and the ones passed over. */
  function Stay(procs: seq<Process>, ids: seq<nat>): seq<nat>
    requires Listed(procs, ids)
    decreases |ids|
  {
    if |ids| == 0 then []
    else if !Ends(procs[ids[0]]) then [ids[0]] + Stay(procs, ids[1..])
    else if |ids| == 1 then []
    else [ids[1]] + Stay(procs, ids[2..])
  }

  /** The leavers of the walk over `ids` that have a CPU burst left and go
      back to `level`, in the order they leave. */
  function Rejoin(procs: seq<Process>, ids: seq<nat>, level: int): seq<nat>
    requires Listed(procs, ids)
    decreases |ids|
  {
    if |ids| == 0 then []
    else
      var p := procs[ids[0]];
      if !Ends(p) then Rejoin(procs, ids[1..], level)
      else
        (if p.idx + 1 != |p.cpuBurst| && p.queueNumber == level then [ids[0]] else [])
        + (if |ids| == 1 then [] else Rejoin(procs, ids[2..], level))
  }

  /** The leavers of the walk over `ids` whose last burst that was, in the
      order they leave. */
  function Done(procs: seq<Process>, ids: seq<nat>): seq<nat>
    requires Listed(procs, ids)
    decreases |ids|
  {
    if |ids| == 0 then []
    else
      var p := procs[ids[0]];
      if !Ends(p) then Done(procs, ids[1..])
      else
        (if p.idx + 1 == |p.cpuBurst| then [ids[0]] else [])
        + (if |ids| == 1 then [] else Done(procs, ids[2..]))
  }

  /** The record of a visited process after its tick at clock `t`: one more
      tick in the burst and the time left recomputed; when that ends the
      burst, it moves to its next CPU burst with the counter reset, and if
      there is none it completes at `t`. */
  function Swept(p: Process, t: int): Process
    requires IoShape(p)
  {
    if Ends(p) then
      p.(idx := p.idx + 1, quantumPassed := 0, ioRemaining := 0,
         completionTime := if p.idx + 1 == |p.cpuBurst| then t else p.completionTime)
    else
      p.(quantumPassed := p.quantumPassed + 1, ioRemaining := p.ioBurst[p.idx] - p.quantumPassed - 1)
  }

  /** The record of process `x` after a sweep over `ids` at clock `t`:
      ticked when visited, untouched otherwise. */
  function After(procs: seq<Process>, ids: seq<nat>, x: nat, t: int): Process
    requires Listed(procs, ids) && x < |procs| && IoShape(procs[x])
  {
    if x in Visits(procs, ids) then Swept(procs[x], t) else procs[x]
  }

  /** `a` and `b` hold the same records for the ids of `ids`. */
  predicate Agree(a: seq<Process>, b: seq<Process>, ids: seq<nat>)
  {
    Listed(a, ids) && Listed(b, ids) && forall k :: 0 <= k < |ids| ==> a[ids[k]] == b[ids[k]]
  }

  // Only the records of the listed ids matter to the walk.

  lemma {:induction false} VisitsFrame(a: seq<Process>, b: seq<Process>, ids: seq<nat>)
    requires Agree(a, b, ids)
    ensures Visits(a, ids) == Visits(b, ids)
    decreases |ids|
  {
    if |ids| > 1 {
      VisitsFrame(a, b, ids[1..]);
      VisitsFrame(a, b, ids[2..]);
    }
  }

  lemma {:induction false} StayFrame(a: seq<Process>, b: seq<Process>, ids: seq<nat>)
    requires Agree(a, b, ids)
    ensures Stay(a, ids) == Stay(b, ids)
    decreases |ids|
  {
    if |ids| > 1 {
      StayFrame(a, b, ids[1..]);
      StayFrame(a, b, ids[2..]);
    }
  }

  lemma {:induction false} DoneFrame(a: seq<Process>, b: seq<Process>, ids: seq<nat>)
    requires Agree(a, b, ids)
    ensures Done(a, ids) == Done(b, ids)
    decreases |ids|
  {
    if |ids| > 1 {
      DoneFrame(a, b, ids[1..]);
      DoneFrame(a, b, ids[2..]);
    }
  }

  lemma {:induction false} RejoinFrame(a: seq<Process>, b: seq<Process>, ids: seq<nat>, l: int)
    requires Agree(a, b, ids)
    ensures Rejoin(a, ids, l) == Rejoin(b, ids, l)
    decreases |ids|
  {
    if |ids| > 1 {
      RejoinFrame(a, b, ids[1..], l);
      RejoinFrame(a, b, ids[2..], l);
    }
  }

  /** The walk visits only listed ids. */
  lemma {:induction false} VisitsListed(procs: seq<Process>, ids: seq<nat>, x: nat)
    requires Listed(procs, ids) && x in Visits(procs, ids)
    ensures x in ids
    decreases |ids|
  {
    if !Ends(procs[ids[0]]) {
      if x != ids[0] {
        VisitsListed(procs, ids[1..], x);
      }
    } else if |ids| > 1 && x != ids[0] {
      VisitsListed(procs, ids[2..], x);
    }
  }

  // One step of the walk from position `i` of `io`: a process whose burst
  // goes on is followed by the walk from the next one; one whose burst ends
  // is followed, past the one it passes over, by the walk from the one
  // after.

  lemma UnfoldVisits(procs: seq<Process>, io: seq<nat>, i: nat)
    requires Listed(procs, io) && i < |io|
    ensures Listed(procs, io[i..]) && Listed(procs, io[i + 1..])
    ensures !Ends(procs[io[i]]) ==> Visits(procs, io[i..]) == [io[i]] + Visits(procs, io[i + 1..])
    ensures Ends(procs[io[i]]) && i + 1 < |io| ==> Visits(procs, io[i..]) == [io[i]] + Visits(procs, io[i + 2..])
    ensures Ends(procs[io[i]]) && i + 1 == |io| ==> Visits(procs, io[i..]) == [io[i]]
  {
    assert io[i..][1..] == io[i + 1..];
    if i + 1 < |io| {
      assert io[i..][2..] == io[i + 2..];
    }
  }

  lemma UnfoldStay(procs: seq<Process>, io: seq<nat>, i: nat)
    requires Listed(procs, io) && i < |io|
    ensures Listed(procs, io[i..]) && Listed(procs, io[i + 1..])
    ensures !Ends(procs[io[i]]) ==> Stay(procs, io[i..]) == [io[i]] + Stay(procs, io[i + 1..])
    ensures Ends(procs[io[i]]) && i + 1 < |io| ==> Stay(procs, io[i..]) == [io[i + 1]] + Stay(procs, io[i + 2..])
    ensures Ends(procs[io[i]]) && i + 1 == |io| ==> Stay(procs, io[i..]) == []
  {
    assert io[i..][1..] == io[i + 1..];
    if i + 1 < |io| {
      assert io[i..][2..] == io[i + 2..];
      assert io[i..][1] == io[i + 1];
    }
  }

  lemma UnfoldDone(procs: seq<Process>, io: seq<nat>, i: nat)
    requires Listed(procs, io) && i < |io|
    ensures Listed(procs, io[i..]) && Listed(procs, io[i + 1..]) && Listed(procs, [io[i]])
    ensures !Ends(procs[io[i]]) ==> Done(procs, io[i..]) == Done(procs, io[i + 1..])
    ensures Ends(procs[io[i]]) && i + 1 < |io| ==> Done(procs, io[i..]) == Done(procs, [io[i]]) + Done(procs, io[i + 2..])
    ensures Ends(procs[io[i]]) && i + 1 == |io| ==> Done(procs, io[i..]) == Done(procs, [io[i]])
  {
    assert io[i..][1..] == io[i + 1..];
    if i + 1 < |io| {
      assert io[i..][2..] == io[i + 2..];
    } else {
      assert io[i..] == [io[i]];
    }
  }

  lemma UnfoldRejoin(procs: seq<Process>, io: seq<nat>, i: nat, l: int)
    requires Listed(procs, io) && i < |io|
    ensures Listed(procs, io[i..]) && Listed(procs, io[i + 1..]) && Listed(procs, [io[i]])
    ensures !Ends(procs[io[i]]) ==> Rejoin(procs, io[i..], l) == Rejoin(procs, io[i + 1..], l)
    ensures Ends(procs[io[i]]) && i + 1 < |io| ==>
      Rejoin(procs, io[i..], l) == Rejoin(procs, [io[i]], l) + Rejoin(procs, io[i + 2..], l)
    ensures Ends(procs[io[i]]) && i + 1 == |io| ==> Rejoin(procs, io[i..], l) == Rejoin(procs, [io[i]], l)
  {
    assert io[i..][1..] == io[i + 1..];
    if i + 1 < |io| {
      assert io[i..][2..] == io[i + 2..];
    } else {
      assert io[i..] == [io[i]];
    }
  }

  /** How the I/O list looks behind a removal at `i`: the id that was at
      `i + 1` now sits at `i`, and the rest follows it. */
  lemma RemoveAtShift(xs: seq<nat>, i: nat)
    requires i + 1 < |xs|
    ensures RemoveAt(xs, i)[..i + 1] == xs[..i] + [xs[i + 1]]
    ensures RemoveAt(xs, i)[i + 1..] == xs[i + 2..]
    ensures forall k :: i <= k < |xs| - 1 ==> RemoveAt(xs, i)[k] == xs[k + 1]
  {
    var ys := RemoveAt(xs, i);
    assert |ys| == |xs| - 1;
    forall k | 0 <= k <= i ensures ys[k] == (xs[..i] + [xs[i + 1]])[k] {}
    forall k | i <= k < |ys| ensures ys[k] == xs[k + 1] {}
    assert ys[i + 1..] == xs[i + 2..];
  }

  lemma Assoc(a: seq<nat>, b: seq<nat>, c: seq<nat>)
    ensures a + b + c == a + (b + c)
  {
  }

  /** Splitting the list before position `i` rather than after it. */
  lemma ConsAfter(xs: seq<nat>, i: nat, tail: seq<nat>)
    requires i < |xs|
    ensures xs[..i + 1] + tail == xs[..i] + ([xs[i]] + tail)
  {
    assert xs[..i + 1] == xs[..i] + [xs[i]];
  }

  // ---------------------------------------------------------------------
  // The loop against the walk

  /** An id of the I/O list does not come up again further on. */
  lemma NotAfter(s: State, k: nat, j: nat)
    requires IoReady(s) && k < j <= |s.io|
    ensures s.io[k] !in s.io[j..]
  {
    forall m | j <= m < |s.io| ensures s.io[m] != s.io[k] {}
  }

  /** Changing only the record at position `i` of the I/O list keeps the
      records the walk reads from any later position. */
  lemma TailAgree(s: State, i: nat, procs: seq<Process>, j: nat)
    requires IoReady(s) && i < j <= |s.io|
    requires |procs| == |s.procs| && procs == s.procs[s.io[i] := procs[s.io[i]]]
    ensures Agree(procs, s.procs, s.io[j..])
  {
    var w := s.io[j..];
    forall k | 0 <= k < |w| ensures w[k] < |s.procs| && s.procs[w[k]] == procs[w[k]] {
      assert w[k] == s.io[j + k];
    }
  }

  /** One step of the sweep is the sweep's first move. */
  lemma StepLoop(s: State, i: nat)
    requires IoReady(s) && i < |s.io|
    ensures IoLoop(s, i) == IoLoop(IoStep(s, i), i + 1)
  {
  }

  /** One step changes the record of the process at position `i` only. */
  lemma StepOne(s: State, i: nat)
    requires IoReady(s) && i < |s.io|
    ensures |IoStep(s, i).procs| == |s.procs|
    ensures IoStep(s, i).procs == s.procs[s.io[i] := IoStep(s, i).procs[s.io[i]]]
  {
  }

  /** The process at position `i` gets the record `Swept` gives it. */
  lemma StepRecord(s: State, i: nat)
    requires IoReady(s) && i < |s.io|
    ensures IoStep(s, i).procs == s.procs[s.io[i] := Swept(s.procs[s.io[i]], s.time + 1)]
  {
    if Ends(s.procs[s.io[i]]) {
      LeaveRecord(s, i);
    } else {
      var id := s.io[i];
      assert IoStep(s, i) == s.(procs := s.procs[id := IoTick(s.procs[id])]);
      assert IoTick(s.procs[id]) == Swept(s.procs[id], s.time + 1);
    }
  }

  lemma LeaveRecord(s: State, i: nat)
    requires IoReady(s) && i < |s.io| && Ends(s.procs[s.io[i]])
    ensures IoStep(s, i).procs == s.procs[s.io[i] := Swept(s.procs[s.io[i]], s.time + 1)]
  {
    var id := s.io[i];
    var p := IoTick(s.procs[id]);
    var r := LeaveIo(s, i, p);
    assert IoStep(s, i) == r;
    var q := r.procs[id];
    assert q == p.(idx := q.idx, quantumPassed := q.quantumPassed, ioRemaining := q.ioRemaining,
                   completionTime := q.completionTime);
    assert q == Swept(s.procs[id], s.time + 1);
  }

  /** A process whose burst goes on stays where it is. */
  lemma StepStays(s: State, i: nat)
    requires IoReady(s) && i < |s.io| && !Ends(s.procs[s.io[i]])
    ensures IoStep(s, i).io == s.io && IoStep(s, i).queues == s.queues && IoStep(s, i).finished == s.finished
  {
  }

  /** A process whose burst ends leaves the I/O list ... */
  lemma StepLeaves(s: State, i: nat)
    requires IoReady(s) && i < |s.io| && Ends(s.procs[s.io[i]])
    ensures IoStep(s, i).io == RemoveAt(s.io, i)
  {
  }

  /** ... and joins the finished list when that was its last burst ... */
  lemma StepFinishes(s: State, i: nat)
    requires IoReady(s) && i < |s.io| && Ends(s.procs[s.io[i]])
    ensures Listed(s.procs, [s.io[i]])
    ensures IoStep(s, i).finished == s.finished + Done(s.procs, [s.io[i]])
  {
  }

  /** ... or its own level when it has a CPU burst left. */
  lemma StepRejoins(s: State, i: nat, l: int)
    requires IoReady(s) && i < |s.io| && Ends(s.procs[s.io[i]]) && 1 <= l <= 3
    ensures Listed(s.procs, [s.io[i]])
    ensures IoStep(s, i).queues.Get(l).items == s.queues.Get(l).items + Rejoin(s.procs, [s.io[i]], l)
  {
  }

  /** The I/O list after the sweep from position `i`. */
  lemma {:induction false} SweepIo(s: State, i: nat)
    requires IoReady(s) && i <= |s.io|
    ensures IoLoop(s, i).io == s.io[..i] + Stay(s.procs, s.io[i..])
    decreases |s.io| - i, 1
  {
    if i < |s.io| {
      if Ends(s.procs[s.io[i]]) {
        SweepIoLeave(s, i);
      } else {
        SweepIoStay(s, i);
      }
    }
  }

  lemma {:induction false} SweepIoStay(s: State, i: nat)
    requires IoReady(s) && i < |s.io| && !Ends(s.procs[s.io[i]])
    ensures IoLoop(s, i).io == s.io[..i] + Stay(s.procs, s.io[i..])
    decreases |s.io| - i, 0
  {
    var s1 := IoStep(s, i);
    var j := i + 1;
    StepLoop(s, i);
    StepOne(s, i);
    StepStays(s, i);
    SweepIo(s1, j);
    TailAgree(s, i, s1.procs, j);
    StayFrame(s1.procs, s.procs, s.io[j..]);
    UnfoldStay(s.procs, s.io, i);
    ConsAfter(s.io, i, Stay(s.procs, s.io[j..]));
  }

  lemma {:induction false} SweepIoLeave(s: State, i: nat)
    requires IoReady(s) && i < |s.io| && Ends(s.procs[s.io[i]])
    ensures IoLoop(s, i).io == s.io[..i] + Stay(s.procs, s.io[i..])
    decreases |s.io| - i, 0
  {
    var s1 := IoStep(s, i);
    StepLoop(s, i);
    StepLeaves(s, i);
    UnfoldStay(s.procs, s.io, i);
    if i + 1 < |s.io| {
      StepOne(s, i);
      SweepIo(s1, i + 1);
      TailAgree(s, i, s1.procs, i + 2);
      StayFrame(s1.procs, s.procs, s.io[i + 2..]);
      RemoveAtShift(s.io, i);
      Assoc(s.io[..i], [s.io[i + 1]], Stay(s.procs, s.io[i + 2..]));
    } else {
      assert s1.io == s.io[..i];
    }
  }

  /** The finished list after the sweep from position `i`. */
  lemma {:induction false} SweepDone(s: State, i: nat)
    requires IoReady(s) && i <= |s.io|
    ensures IoLoop(s, i).finished == s.finished + Done(s.procs, s.io[i..])
    decreases |s.io| - i, 1
  {
    if i < |s.io| {
      if Ends(s.procs[s.io[i]]) {
        SweepDoneLeave(s, i);
      } else {
        SweepDoneStay(s, i);
      }
    }
  }

  lemma {:induction false} SweepDoneStay(s: State, i: nat)
    requires IoReady(s) && i < |s.io| && !Ends(s.procs[s.io[i]])
    ensures IoLoop(s, i).finished == s.finished + Done(s.procs, s.io[i..])
    decreases |s.io| - i, 0
  {
    var s1 := IoStep(s, i);
    StepLoop(s, i);
    StepOne(s, i);
    StepStays(s, i);
    SweepDone(s1, i + 1);
    TailAgree(s, i, s1.procs, i + 1);
    DoneFrame(s1.procs, s.procs, s.io[i + 1..]);
    UnfoldDone(s.procs, s.io, i);
  }

  lemma {:induction false} SweepDoneLeave(s: State, i: nat)
    requires IoReady(s) && i < |s.io| && Ends(s.procs[s.io[i]])
    ensures IoLoop(s, i).finished == s.finished + Done(s.procs, s.io[i..])
    decreases |s.io| - i, 0
  {
    var s1 := IoStep(s, i);
    StepLoop(s, i);
    StepLeaves(s, i);
    StepFinishes(s, i);
    UnfoldDone(s.procs, s.io, i);
    if i + 1 < |s.io| {
      StepOne(s, i);
      SweepDone(s1, i + 1);
      TailAgree(s, i, s1.procs, i + 2);
      DoneFrame(s1.procs, s.procs, s.io[i + 2..]);
      RemoveAtShift(s.io, i);
      Assoc(s.finished, Done(s.procs, [s.io[i]]), Done(s.procs, s.io[i + 2..]));
    } else {
      assert |s1.io| == i;
    }
  }

  /** Level `l` after the sweep from position `i`. */
  lemma {:induction false} SweepQueue(s: State, i: nat, l: int)
    requires IoReady(s) && i <= |s.io| && 1 <= l <= 3
    ensures IoLoop(s, i).queues.Get(l).items == s.queues.Get(l).items + Rejoin(s.procs, s.io[i..], l)
    decreases |s.io| - i, 1
  {
    if i < |s.io| {
      if Ends(s.procs[s.io[i]]) {
        SweepQueueLeave(s, i, l);
      } else {
        SweepQueueStay(s, i, l);
      }
    }
  }

  lemma {:induction false} SweepQueueStay(s: State, i: nat, l: int)
    requires IoReady(s) && i < |s.io| && !Ends(s.procs[s.io[i]]) && 1 <= l <= 3
    ensures IoLoop(s, i).queues.Get(l).items == s.queues.Get(l).items + Rejoin(s.procs, s.io[i..], l)
    decreases |s.io| - i, 0
  {
    var s1 := IoStep(s, i);
    StepLoop(s, i);
    StepOne(s, i);
    StepStays(s, i);
    SweepQueue(s1, i + 1, l);
    TailAgree(s, i, s1.procs, i + 1);
    RejoinFrame(s1.procs, s.procs, s.io[i + 1..], l);
    UnfoldRejoin(s.procs, s.io, i, l);
  }

  lemma {:induction false} SweepQueueLeave(s: State, i: nat, l: int)
    requires IoReady(s) && i < |s.io| && Ends(s.procs[s.io[i]]) && 1 <= l <= 3
    ensures IoLoop(s, i).queues.Get(l).items == s.queues.Get(l).items + Rejoin(s.procs, s.io[i..], l)
    decreases |s.io| - i, 0
  {
    var s1 := IoStep(s, i);
    StepLoop(s, i);
    StepLeaves(s, i);
    StepRejoins(s, i, l);
    UnfoldRejoin(s.procs, s.io, i, l);
    if i + 1 < |s.io| {
      StepOne(s, i);
      SweepQueue(s1, i + 1, l);
      TailAgree(s, i, s1.procs, i + 2);
      RejoinFrame(s1.procs, s.procs, s.io[i + 2..], l);
      RemoveAtShift(s.io, i);
      Assoc(s.queues.Get(l).items, Rejoin(s.procs, [s.io[i]], l), Rejoin(s.procs, s.io[i + 2..], l));
    } else {
      assert |s1.io| == i;
    }
  }

  /** The record of the process at position `k` after the sweep from
      position `i`. */
  lemma {:induction false} SweepRecord(s: State, i: nat, k: nat)
    requires IoReady(s) && i <= k < |s.io|
    ensures IoLoop(s, i).procs[s.io[k]] == After(s.procs, s.io[i..], s.io[k], s.time + 1)
    decreases |s.io| - i, 1
  {
    if k == i {
      SweepRecordHead(s, i);
    } else if Ends(s.procs[s.io[i]]) {
      if k == i + 1 {
        SweepRecordSkipped(s, i);
      } else {
        SweepRecordLeave(s, i, k);
      }
    } else {
      SweepRecordStay(s, i, k);
    }
  }

  lemma SweepRecordHead(s: State, i: nat)
    requires IoReady(s) && i < |s.io|
    ensures IoLoop(s, i).procs[s.io[i]] == Swept(s.procs[s.io[i]], s.time + 1)
    ensures s.io[i] in Visits(s.procs, s.io[i..])
  {
    StepRecord(s, i);
    IoLoopHead(s, i);
    UnfoldVisits(s.procs, s.io, i);
    if Ends(s.procs[s.io[i]]) {
      assert IoStep(s, i) == LeaveIo(s, i, IoTick(s.procs[s.io[i]]));
    }
  }

  lemma SweepRecordSkipped(s: State, i: nat)
    requires IoReady(s) && i + 1 < |s.io| && Ends(s.procs[s.io[i]])
    ensures IoLoop(s, i).procs[s.io[i + 1]] == s.procs[s.io[i + 1]]
    ensures s.io[i + 1] !in Visits(s.procs, s.io[i..])
  {
    IoLoopSkipsNext(s, i);
    SkippedNotVisited(s, i);
  }

  /** The process passed over is not among the visited ones. */
  lemma SkippedNotVisited(s: State, i: nat)
    requires IoReady(s) && i + 1 < |s.io| && Ends(s.procs[s.io[i]])
    ensures s.io[i + 1] !in Visits(s.procs, s.io[i..])
  {
    var x := s.io[i + 1];
    NotAfter(s, i + 1, i + 2);
    UnfoldVisits(s.procs, s.io, i);
    if x in Visits(s.procs, s.io[i + 2..]) {
      VisitsListed(s.procs, s.io[i + 2..], x);
    }
  }

  lemma {:induction false} SweepRecordStay(s: State, i: nat, k: nat)
    requires IoReady(s) && i < k < |s.io| && !Ends(s.procs[s.io[i]])
    ensures IoLoop(s, i).procs[s.io[k]] == After(s.procs, s.io[i..], s.io[k], s.time + 1)
    decreases |s.io| - i, 0
  {
    var s1 := StepOut(s, i);
    var j := i + 1;
    SweepRecord(s1, j, k);
    RecordCarryStay(s, i, j, k, s1, IoLoop(s1, j).procs[s1.io[k]]);
  }

  lemma {:induction false} SweepRecordLeave(s: State, i: nat, k: nat)
    requires IoReady(s) && i + 1 < k < |s.io| && Ends(s.procs[s.io[i]])
    ensures IoLoop(s, i).procs[s.io[k]] == After(s.procs, s.io[i..], s.io[k], s.time + 1)
    decreases |s.io| - i, 0
  {
    var s1 := StepOut(s, i);
    var j, m := i + 1, k - 1;
    SweepRecord(s1, j, m);
    RecordCarryLeave(s, i, j, k, m, s1, IoLoop(s1, j).procs[s1.io[m]]);
  }

  /** `s1` is the state after the step at position `i` of `s`: the record
      of that process alone may change, and the I/O list loses it exactly
      when its burst ends. */
  predicate Stepped(s: State, i: nat, s1: State)
  {
    && IoReady(s) && i < |s.io| && IoReady(s1) && s1.time == s.time
    && |s1.procs| == |s.procs| && s1.procs == s.procs[s.io[i] := s1.procs[s.io[i]]]
    && (if Ends(s.procs[s.io[i]]) then s1.io == RemoveAt(s.io, i) else s1.io == s.io)
  }

  /** The state after one step, with the facts about it that the record
      lemmas carry over. */
  lemma StepOut(s: State, i: nat) returns (s1: State)
    requires IoReady(s) && i < |s.io|
    ensures Stepped(s, i, s1) && IoLoop(s, i) == IoLoop(s1, i + 1)
    ensures |s1.io| == if Ends(s.procs[s.io[i]]) then |s.io| - 1 else |s.io|
  {
    s1 := IoStep(s, i);
    StepLoop(s, i);
    StepOne(s, i);
  }

  /** The record of a later process after a step whose process stays: the
      same list, the same record, and the same visits. */
  lemma RecordCarryStay(s: State, i: nat, j: nat, k: nat, s1: State, v: Process)
    requires Stepped(s, i, s1) && j == i + 1 && j <= k < |s.io| && !Ends(s.procs[s.io[i]])
    requires v == After(s1.procs, s1.io[j..], s1.io[k], s1.time + 1)
    ensures v == After(s.procs, s.io[i..], s.io[k], s.time + 1)
  {
    VisitsStayFacts(s, i, k, s1.procs);
    assert s.io[k] != s.io[i];
  }

  lemma VisitsStayFacts(s: State, i: nat, k: nat, procs: seq<Process>)
    requires IoReady(s) && i < k < |s.io| && !Ends(s.procs[s.io[i]])
    requires |procs| == |s.procs| && procs == s.procs[s.io[i] := procs[s.io[i]]]
    ensures Listed(procs, s.io[i + 1..])
    ensures (s.io[k] in Visits(procs, s.io[i + 1..])) == (s.io[k] in Visits(s.procs, s.io[i..]))
  {
    TailAgree(s, i, procs, i + 1);
    VisitsFrame(procs, s.procs, s.io[i + 1..]);
    UnfoldVisits(s.procs, s.io, i);
    assert s.io[k] != s.io[i];
  }

  /** The record of a later process after a step whose process leaves: it
      sits one place further forward, with the same record and the same
      visits. */
  lemma RecordCarryLeave(s: State, i: nat, j: nat, k: nat, m: nat, s1: State, v: Process)
    requires Stepped(s, i, s1) && j == i + 1 && m + 1 == k && j < k < |s.io| && Ends(s.procs[s.io[i]])
    requires v == After(s1.procs, s1.io[j..], s1.io[m], s1.time + 1)
    ensures s1.io[m] == s.io[k]
    ensures v == After(s.procs, s.io[i..], s.io[k], s.time + 1)
  {
    RemoveAtShift(s.io, i);
    VisitsLeaveFacts(s, i, k, s1.procs);
    assert s.io[k] != s.io[i];
  }

  lemma VisitsLeaveFacts(s: State, i: nat, k: nat, procs: seq<Process>)
    requires IoReady(s) && i + 1 < k < |s.io| && Ends(s.procs[s.io[i]])
    requires |procs| == |s.procs| && procs == s.procs[s.io[i] := procs[s.io[i]]]
    ensures Listed(procs, s.io[i + 2..])
    ensures (s.io[k] in Visits(procs, s.io[i + 2..])) == (s.io[k] in Visits(s.procs, s.io[i..]))
  {
    TailAgree(s, i, procs, i + 2);
    VisitsFrame(procs, s.procs, s.io[i + 2..]);
    UnfoldVisits(s.procs, s.io, i);
    assert s.io[k] != s.io[i];
  }

  /** `run_io` from position `i` of the I/O list, whole: the list keeps, in
      order, every process not visited or not done with its I/O burst; each
      leaver with a CPU burst left joins the end of its own level and each
      other leaver joins the finished list, in the order they leave; each
      visited process gets exactly its one tick and each passed-over one is
      untouched. */
  lemma IoLoopSweep(s: State, i: nat)
    requires IoReady(s) && i <= |s.io|
    ensures IoLoop(s, i).io == s.io[..i] + Stay(s.procs, s.io[i..])
    ensures IoLoop(s, i).finished == s.finished + Done(s.procs, s.io[i..])
    ensures forall l :: 1 <= l <= 3 ==>
      IoLoop(s, i).queues.Get(l).items == s.queues.Get(l).items + Rejoin(s.procs, s.io[i..], l)
    ensures forall k :: i <= k < |s.io| && s.io[k] in Visits(s.procs, s.io[i..]) ==>
      IoLoop(s, i).procs[s.io[k]] == Swept(s.procs[s.io[k]], s.time + 1)
    ensures forall k :: i <= k < |s.io| && s.io[k] !in Visits(s.procs, s.io[i..]) ==>
      IoLoop(s, i).procs[s.io[k]] == s.procs[s.io[k]]
  {
    SweepIo(s, i);
    SweepDone(s, i);
    forall l | 1 <= l <= 3
      ensures IoLoop(s, i).queues.Get(l).items == s.queues.Get(l).items + Rejoin(s.procs, s.io[i..], l)
    {
      SweepQueue(s, i, l);
    }
    forall k | i <= k < |s.io|
      ensures IoLoop(s, i).procs[s.io[k]] == After(s.procs, s.io[i..], s.io[k], s.time + 1)
    {
      SweepRecord(s, i, k);
    }
  }

  /** `run_io`, whole: the same for the sweep over the entire I/O list. */
  lemma RunIoSweep(s: State)
    requires IoReady(s)
    ensures RunIo(s).io == Stay(s.procs, s.io)
    ensures RunIo(s).finished == s.finished + Done(s.procs, s.io)
    ensures forall l :: 1 <= l <= 3 ==> RunIo(s).queues.Get(l).items == s.queues.Get(l).items + Rejoin(s.procs, s.io, l)
    ensures forall k :: 0 <= k < |s.io| && s.io[k] in Visits(s.procs, s.io) ==>
      RunIo(s).procs[s.io[k]] == Swept(s.procs[s.io[k]], s.time + 1)
    ensures forall k :: 0 <= k < |s.io| && s.io[k] !in Visits(s.procs, s.io) ==>
      RunIo(s).procs[s.io[k]] == s.procs[s.io[k]]
  {
    IoLoopSweep(s, 0);
    assert s.io[0..] == s.io && s.io[..0] == [];
  }
}
