/** The three queue disciplines of njlr.py (`SchedulerAlgorithm` and its
    Round-Robin, FCFS and SJF variants) and the three-level queue set the
    scheduler owns. Queues hold process ids. */
module Queues {

  datatype Discipline = RoundRobin | Fcfs | Sjf

  datatype Queue = Queue(discipline: Discipline, items: seq<nat>)

  /** `sort` of each discipline. Round-Robin and FCFS do nothing; SJF builds a
      sorted copy with `sorted(...)` and drops it, so its list is left as it
      was as well. */
  function Sort(q: Queue): (r: Queue)
    ensures r == q
  {
    match q.discipline
    case RoundRobin => q
    case Fcfs => q
    case Sjf => q
  }

  /** `add_process`: append, then `sort`. For every discipline this is a
      plain append at the tail. */
  function AddProcess(q: Queue, id: nat): (r: Queue)
    ensures r.discipline == q.discipline
    ensures r.items == q.items + [id]
  {
    Sort(q.(items := q.items + [id]))
  }

  /** `remove_process()` with its default index 0: the head, and the queue
      without it, the rest in the same order. The source raises IndexError on
      an empty queue; every caller checks first. */
  function RemoveProcess(q: Queue): (r: (nat, Queue))
    requires |q.items| > 0
    ensures r.1.discipline == q.discipline
    ensures [r.0] + r.1.items == q.items
  {
    (q.items[0], q.(items := q.items[1..]))
  }

  /** `add_process` applied to each id in order, as `arriving_to_queue` does
      when it pops the head of a list until the list is empty. */
  function AddAll(q: Queue, ids: seq<nat>): (r: Queue)
    ensures r.discipline == q.discipline
    ensures r.items == q.items + ids
    decreases |ids|
  {
    if |ids| == 0 then q
    else
      var r := AddAll(AddProcess(q, ids[0]), ids[1..]);
      assert q.items + [ids[0]] + ids[1..] == q.items + ids;
      r
  }

  /** Removes heads until the queue is empty, collecting them in order. */
  function Drain(q: Queue): seq<nat>
    decreases |q.items|
  {
    if |q.items| == 0 then []
    else
      var (head, rest) := RemoveProcess(q);
      [head] + Drain(rest)
  }

  /** All three disciplines are first-in first-out: ids added to an empty
      queue come out in the order they went in. */
  lemma {:induction false} FirstInFirstOut(d: Discipline, ids: seq<nat>)
    ensures Drain(AddAll(Queue(d, []), ids)) == ids
  {
    DrainAll(Queue(d, ids));
  }

  lemma {:induction false} DrainAll(q: Queue)
    ensures Drain(q) == q.items
    decreases |q.items|
  {
    if |q.items| > 0 {
      DrainAll(RemoveProcess(q).1);
    }
  }

  /** `priority_queues`: level 1 is Round-Robin, level 2 FCFS, level 3 SJF. */
  datatype Levels = Levels(q1: Queue, q2: Queue, q3: Queue)
  {
    /** The queue of a level, `priority_queues[level - 1]`. */
    function Get(level: int): Queue
      requires 1 <= level <= 3
    {
      if level == 1 then q1 else if level == 2 then q2 else q3
    }

    function Set(level: int, q: Queue): (r: Levels)
      requires 1 <= level <= 3
      ensures r.Get(level) == q
      ensures forall l :: 1 <= l <= 3 && l != level ==> r.Get(l) == Get(l)
      ensures r.Contents() + multiset(Get(level).items) == Contents() + multiset(q.items)
    {
      if level == 1 then this.(q1 := q)
      else if level == 2 then this.(q2 := q)
      else this.(q3 := q)
    }

    /** The ids waiting at all levels, counted with multiplicity. */
    function Contents(): multiset<nat>
    {
      multiset(q1.items) + multiset(q2.items) + multiset(q3.items)
    }
  }

  function EmptyLevels(): Levels
  {
    Levels(Queue(RoundRobin, []), Queue(Fcfs, []), Queue(Sjf, []))
  }

  /** `add_to_queue`: `add_process` on the queue of the given level, the
      other levels untouched. */
  function AddToQueue(qs: Levels, level: int, id: nat): (r: Levels)
    requires 1 <= level <= 3
    ensures r.Get(level).items == qs.Get(level).items + [id]
    ensures r.Get(level).discipline == qs.Get(level).discipline
    ensures forall l :: 1 <= l <= 3 && l != level ==> r.Get(l) == qs.Get(l)
    ensures r.Contents() == qs.Contents() + multiset{id}
  {
    qs.Set(level, AddProcess(qs.Get(level), id))
  }

  /** The number of the first non-empty level, or 4 when all are empty: the
      minimum `check_preemption` computes. */
  function HighestReady(qs: Levels): (r: int)
    ensures 1 <= r <= 4
    ensures r <= 3 ==> |qs.Get(r).items| > 0
    ensures forall l :: 1 <= l < r ==> |qs.Get(l).items| == 0
  {
    if |qs.q1.items| > 0 then 1
    else if |qs.q2.items| > 0 then 2
    else if |qs.q3.items| > 0 then 3
    else 4
  }
}
