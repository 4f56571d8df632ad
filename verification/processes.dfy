/** The per-process record of njlr.py (`Process`): identity, arrival time, the
    CPU and I/O burst lists, and the counters the scheduler mutates. */
module Processes {
  import opened Wrappers
  import Text

  /** One process. `quantumPassed` counts ticks spent in the current CPU burst
      (across dispatches and demotions) or, while in I/O, in the current I/O
      burst; `idx` points at the current burst. */
  datatype Process = Process(
    name: string,
    arrival: int,
    cpuBurst: seq<int>,
    ioBurst: seq<int>,
    q1RunCounter: int,
    idx: int,
    quantumPassed: int,
    burstRemaining: int,
    ioRemaining: int,
    queueNumber: int,
    completionTime: int)

  /** A process as the dataclass defaults create it: at level 1, at its first
      burst, with every counter at zero. */
  function NewProcess(name: string, arrival: int, cpuBurst: seq<int>, ioBurst: seq<int>): Process
  {
    Process(name, arrival, cpuBurst, ioBurst, 0, 0, 0, 0, 0, 1, 0)
  }

  /** The process has not been touched since it was created. */
  predicate IsFresh(p: Process)
  {
    p == NewProcess(p.name, p.arrival, p.cpuBurst, p.ioBurst)
  }

  function Sum(xs: seq<int>): int
  {
    if |xs| == 0 then 0 else xs[0] + Sum(xs[1..])
  }

  /** `get_turnaround_time`: time from arrival to completion. */
  function Turnaround(p: Process): int
  {
    p.completionTime - p.arrival
  }

  /** `get_waiting_time`: turnaround less the CPU time the process asked for
      (I/O time is not subtracted). */
  function Waiting(p: Process): int
  {
    Turnaround(p) - Sum(p.cpuBurst)
  }

  /** `update_burst`: only `burstRemaining` changes, and afterwards the time
      remaining and the time passed add up to the current CPU burst. */
  function UpdateBurst(p: Process): (r: Process)
    requires 0 <= p.idx < |p.cpuBurst|
    ensures r.(burstRemaining := p.burstRemaining) == p
    ensures r.burstRemaining + r.quantumPassed == r.cpuBurst[r.idx]
  {
    p.(burstRemaining := p.cpuBurst[p.idx] - p.quantumPassed)
  }

  /** `update_io`: only `ioRemaining` changes, and afterwards the time
      remaining and the time passed add up to the current I/O burst. */
  function UpdateIo(p: Process): (r: Process)
    requires 0 <= p.idx < |p.ioBurst|
    ensures r.(ioRemaining := p.ioRemaining) == p
    ensures r.ioRemaining + r.quantumPassed == r.ioBurst[r.idx]
  {
    p.(ioRemaining := p.ioBurst[p.idx] - p.quantumPassed)
  }

  /** Why `create_new_process` can raise: fewer than two fields (IndexError
      on the arrival field) or a field `int()` rejects (ValueError). */
  datatype ParseError = MissingArrival | NotAnInteger(field: string)

  /** The elements at even positions 0, 2, 4, ... */
  function Evens<T>(xs: seq<T>): (r: seq<T>)
    ensures |r| == (|xs| + 1) / 2
    ensures forall k :: 0 <= k < |r| ==> r[k] == xs[2 * k]
    decreases |xs|
  {
    if |xs| == 0 then []
    else if |xs| == 1 then [xs[0]]
    else [xs[0]] + Evens(xs[2..])
  }

  /** The elements at odd positions 1, 3, 5, ... */
  function Odds<T>(xs: seq<T>): (r: seq<T>)
    ensures |r| == |xs| / 2
    ensures forall k :: 0 <= k < |r| ==> r[k] == xs[2 * k + 1]
  {
    if |xs| == 0 then [] else Evens(xs[1..])
  }

  /** `int()` applied to each field in turn; the first field it rejects is
      the error. */
  function ParseInts(fields: seq<string>): (r: Result<seq<int>, ParseError>)
    ensures r.Ok? <==> forall i :: 0 <= i < |fields| ==> Text.IsIntLiteral(fields[i])
    ensures r.Ok? ==> |r.value| == |fields|
    ensures r.Ok? ==> forall k :: 0 <= k < |fields| ==> Text.ParseInt(fields[k]) == Some(r.value[k])
    ensures r.Err? ==> exists i :: 0 <= i < |fields| && r.error == NotAnInteger(fields[i]) && !Text.IsIntLiteral(fields[i])
    decreases |fields|
  {
    if |fields| == 0 then Ok([])
    else
      match Text.ParseInt(fields[0])
      case None => Err(NotAnInteger(fields[0]))
      case Some(v) =>
        match ParseInts(fields[1..])
        case Err(e) => Err(e)
        case Ok(vs) => Ok([v] + vs)
  }

  /** `create_new_process`: splits `name;arrival;cpu;io;cpu;...` on ';' and
      builds a fresh process from the fields. */
  function CreateNewProcess(line: string): (r: Result<Process, ParseError>)
    ensures |Text.Split(line, ';')| < 2 ==> r == Err(MissingArrival)
    ensures r.Ok? ==> IsFresh(r.value) && r.value.name == Text.Split(line, ';')[0]
  {
    FromFields(Text.Split(line, ';'))
  }

  /** The process built from the fields of a line: field 0 is the name,
      field 1 the arrival time, the fields at even positions from 2 on the
      CPU bursts and those at odd positions from 3 on the I/O bursts. */
  function FromFields(f: seq<string>): (r: Result<Process, ParseError>)
    ensures |f| < 2 ==> r == Err(MissingArrival)
    ensures r.Ok? ==> IsFresh(r.value) && r.value.name == f[0]
  {
    if |f| < 2 then Err(MissingArrival)
    else
      match Text.ParseInt(f[1])
      case None => Err(NotAnInteger(f[1]))
      case Some(arrival) =>
        match ParseInts(Evens(f[2..]))
        case Err(e) => Err(e)
        case Ok(cpu) =>
          match ParseInts(Odds(f[2..]))
          case Err(e) => Err(e)
          case Ok(io) => Ok(NewProcess(f[0], arrival, cpu, io))
  }

  /** Every element of `xs` sits at an even or at an odd position. */
  lemma EvensOddsCover<T>(xs: seq<T>, j: nat)
    requires j < |xs|
    ensures j % 2 == 0 ==> j / 2 < |Evens(xs)| && Evens(xs)[j / 2] == xs[j]
    ensures j % 2 == 1 ==> j / 2 < |Odds(xs)| && Odds(xs)[j / 2] == xs[j]
  {
    var k := j / 2;
    if j % 2 == 0 {
      assert j == 2 * k;
      assert k < |Evens(xs)|;
      assert Evens(xs)[k] == xs[2 * k];
    } else {
      assert j == 2 * k + 1;
      assert k < |Odds(xs)|;
      assert Odds(xs)[k] == xs[2 * k + 1];
    }
  }

  /** The parser succeeds exactly when there are at least two fields and
      `int()` accepts every field after the name. */
  lemma ParseSucceedsIff(line: string)
    ensures var f := Text.Split(line, ';');
      CreateNewProcess(line).Ok? <==> |f| >= 2 && forall i :: 1 <= i < |f| ==> Text.IsIntLiteral(f[i])
  {
    FieldsSucceedIff(Text.Split(line, ';'));
  }

  lemma FieldsSucceedIff(f: seq<string>)
    ensures FromFields(f).Ok? <==> |f| >= 2 && forall i :: 1 <= i < |f| ==> Text.IsIntLiteral(f[i])
  {
    if |f| >= 2 && Text.IsIntLiteral(f[1]) {
      var rest := f[2..];
      if forall i :: 2 <= i < |f| ==> Text.IsIntLiteral(f[i]) {
        BurstFieldsInts(rest);
      } else {
        var i :| 2 <= i < |f| && !Text.IsIntLiteral(f[i]);
        BurstFieldRejected(rest, i - 2);
      }
    }
  }

  /** When every burst field is an integer literal, so is every field of both
      burst lists. */
  lemma BurstFieldsInts(rest: seq<string>)
    requires forall i :: 0 <= i < |rest| ==> Text.IsIntLiteral(rest[i])
    ensures ParseInts(Evens(rest)).Ok? && ParseInts(Odds(rest)).Ok?
  {
    forall k | 0 <= k < |Evens(rest)| ensures Text.IsIntLiteral(Evens(rest)[k]) {
      assert Evens(rest)[k] == rest[2 * k];
    }
    forall k | 0 <= k < |Odds(rest)| ensures Text.IsIntLiteral(Odds(rest)[k]) {
      assert Odds(rest)[k] == rest[2 * k + 1];
    }
  }

  /** A burst field `int()` rejects makes one of the two burst lists fail. */
  lemma BurstFieldRejected(rest: seq<string>, j: nat)
    requires j < |rest| && !Text.IsIntLiteral(rest[j])
    ensures ParseInts(Evens(rest)).Err? || ParseInts(Odds(rest)).Err?
  {
    EvensOddsCover(rest, j);
    if j % 2 == 0 {
      assert !Text.IsIntLiteral(Evens(rest)[j / 2]);
    } else {
      assert !Text.IsIntLiteral(Odds(rest)[j / 2]);
    }
  }

  /** Where each field of a successfully parsed line ends up: CPU bursts come
      from the even positions from 2 on and I/O bursts from the odd positions
      from 3 on, both in input order, so the two lists together hold every
      field but the first two, and they alternate starting with a CPU burst:
      never fewer CPU bursts than I/O bursts, and at most one more. */
  lemma ParsedFields(line: string)
    requires CreateNewProcess(line).Ok?
    ensures var f := Text.Split(line, ';'); var p := CreateNewProcess(line).value;
      && p.name == f[0]
      && Text.ParseInt(f[1]) == Some(p.arrival)
      && |p.cpuBurst| + |p.ioBurst| == |f| - 2
      && |p.ioBurst| <= |p.cpuBurst| <= |p.ioBurst| + 1
      && (forall k :: 0 <= k < |p.cpuBurst| ==> Text.ParseInt(f[2 + 2 * k]) == Some(p.cpuBurst[k]))
      && (forall k :: 0 <= k < |p.ioBurst| ==> Text.ParseInt(f[3 + 2 * k]) == Some(p.ioBurst[k]))
  {
    FieldsPlaced(Text.Split(line, ';'));
  }

  lemma FieldsPlaced(f: seq<string>)
    requires FromFields(f).Ok?
    ensures var p := FromFields(f).value;
      && p.name == f[0]
      && Text.ParseInt(f[1]) == Some(p.arrival)
      && |p.cpuBurst| + |p.ioBurst| == |f| - 2
      && |p.ioBurst| <= |p.cpuBurst| <= |p.ioBurst| + 1
      && (forall k :: 0 <= k < |p.cpuBurst| ==> Text.ParseInt(f[2 + 2 * k]) == Some(p.cpuBurst[k]))
      && (forall k :: 0 <= k < |p.ioBurst| ==> Text.ParseInt(f[3 + 2 * k]) == Some(p.ioBurst[k]))
  {
    var rest := f[2..];
    assert forall k :: 0 <= k < |Evens(rest)| ==> Evens(rest)[k] == f[2 + 2 * k];
    assert forall k :: 0 <= k < |Odds(rest)| ==> Odds(rest)[k] == f[3 + 2 * k];
  }
}
