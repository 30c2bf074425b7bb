/**
 * The bookkeeping of the parallel package-operation scheduler
 * (flatpack_parallel.py): operation descriptors, the priority queue scan
 * that picks the next operation whose dependencies have succeeded, the
 * conversion of a command's outcome into a result, the completed/failed
 * maps with their counters, the submission loop of a batch, and the
 * builders that turn app and package lists into operations.
 *
 * Threads, the executor and the clock are not modelled: the worker pool is
 * the bound `maxWorkers`, a command's outcome and duration are inputs, and
 * the insertion time of a queue entry is a counter that grows by one per
 * insertion.
 */
module Parallel {
  import opened Wrappers
  import Strings

  datatype PackageOperation = PackageOperation(
    operationType: string,      // install, update, remove
    packageName: string,
    packageManager: string,     // flatpak, pacman
    command: seq<string>,
    priority: int,              // higher is dequeued first
    dependencies: seq<string>,  // package names that must have succeeded first
    estimatedDuration: real)    // seconds, for reporting only

  datatype OperationResult = OperationResult(
    operation: PackageOperation,
    success: bool,
    duration: real,
    output: string,
    error: string,
    returncode: int)

  /** How one run of an operation's command ended. */
  datatype CommandOutcome =
    | Exited(code: int, stdout: string, stderr: string)  // the process ran to completion
    | TimedOut                                           // subprocess.TimeoutExpired after 300 s
    | Raised(message: string)                            // any other exception, e.g. no such executable

  const SentinelCode: int := -1
  const TimeoutError: string := "Operation timed out"

  // ---------------------------------------------------------------------
  // Worker count
  // ---------------------------------------------------------------------

  /**
   * get_max_workers. `configured` is what the configuration answers for
   * `preferences.max_parallel_jobs` (0 when the key is missing), `None`
   * when the manager has no configuration; `cpuCount` is os.cpu_count().
   */
  function MaxWorkers(configured: Option<int>, cpuCount: Option<nat>): (r: int)
    ensures configured.Some? && configured.value > 0 ==> r == configured.value
    ensures !(configured.Some? && configured.value > 0) ==>
              1 <= r <= 4
              && (cpuCount.Some? && cpuCount.value >= 1 ==> r <= cpuCount.value)
              && (cpuCount.Some? && cpuCount.value >= 8 ==> r == 4)
              && (cpuCount.Some? && 4 <= cpuCount.value < 8 ==> r == 3)
              && (cpuCount.Some? && 2 <= cpuCount.value < 4 ==> r == 2)
              && (cpuCount.None? || cpuCount.value <= 1 ==> r == 1)
  {
    if configured.Some? && configured.value > 0 then configured.value
    else
      var cpus := if cpuCount.None? || cpuCount.value == 0 then 1 else cpuCount.value;
      if cpus >= 8 then 4
      else if cpus >= 4 then 3
      else if cpus >= 2 then 2
      else 1
  }

  /** Without a positive configured value, more processors never give fewer workers. */
  lemma {:induction false} MaxWorkersMonotone(configured: Option<int>, fewer: nat, more: nat)
    requires !(configured.Some? && configured.value > 0)
    requires fewer <= more
    ensures MaxWorkers(configured, Some(fewer)) <= MaxWorkers(configured, Some(more))
  {
  }

  // ---------------------------------------------------------------------
  // Dependency readiness
  // ---------------------------------------------------------------------

  /** can_execute_operation: every dependency has a successful completed result. */
  function DependenciesMet(deps: seq<string>, completed: map<string, OperationResult>): (ok: bool)
    ensures ok <==> forall k :: 0 <= k < |deps| ==> deps[k] in completed && completed[deps[k]].success
  {
    if deps == [] then true
    else if deps[0] !in completed then false
    else if !completed[deps[0]].success then false
    else DependenciesMet(deps[1..], completed)
  }

  predicate Ready(op: PackageOperation, completed: map<string, OperationResult>) {
    DependenciesMet(op.dependencies, completed)
  }

  // ---------------------------------------------------------------------
  // The priority queue: entries ordered by (-priority, insertion stamp)
  // ---------------------------------------------------------------------

  datatype Entry = Entry(key: int, stamp: nat, operation: PackageOperation)

  /** The tuple order of queue.PriorityQueue on (key, stamp). */
  predicate Precedes(a: Entry, b: Entry) {
    a.key < b.key || (a.key == b.key && a.stamp < b.stamp)
  }

  /** A priority queue's contents in the order `get` hands them out. */
  ghost predicate Ordered(q: seq<Entry>) {
    forall i, j :: 0 <= i < j < |q| ==> Precedes(q[i], q[j])
  }

  /** `put`: the entry takes its place in (key, stamp) order. */
  function Insert(q: seq<Entry>, e: Entry): (r: seq<Entry>)
    requires Ordered(q)
    requires forall k :: 0 <= k < |q| ==> Precedes(q[k], e) || Precedes(e, q[k])
    ensures Ordered(r)
    ensures multiset(r) == multiset(q) + multiset{e}
    ensures |r| == |q| + 1
  {
    if q == [] then [e]
    else if Precedes(e, q[0]) then
      OrderedCons(e, q);
      [e] + q
    else
      OrderedTail(q, 1);
      var tail := Insert(q[1..], e);
      FirstPrecedesInserted(q, e, tail);
      OrderedCons(q[0], tail);
      assert q == [q[0]] + q[1..];
      [q[0]] + tail
  }

  lemma {:induction false} OrderedCons(x: Entry, t: seq<Entry>)
    requires Ordered(t)
    requires forall k :: 0 <= k < |t| ==> Precedes(x, t[k])
    ensures Ordered([x] + t)
  {
    forall i, j | 0 <= i < j < |[x] + t| ensures Precedes(([x] + t)[i], ([x] + t)[j]) {
      if i > 0 {
        assert ([x] + t)[i] == t[i - 1];
      }
      assert ([x] + t)[j] == t[j - 1];
    }
  }

  /** The head of an ordered queue that `e` does not precede precedes everything of the rest with `e` added. */
  lemma {:induction false} FirstPrecedesInserted(q: seq<Entry>, e: Entry, tail: seq<Entry>)
    requires q != [] && Ordered(q) && !Precedes(e, q[0])
    requires forall k :: 0 <= k < |q| ==> Precedes(q[k], e) || Precedes(e, q[k])
    requires multiset(tail) == multiset(q[1..]) + multiset{e}
    ensures forall k :: 0 <= k < |tail| ==> Precedes(q[0], tail[k])
  {
    forall k | 0 <= k < |tail| ensures Precedes(q[0], tail[k]) {
      assert tail[k] in multiset(tail);
      if tail[k] != e {
        assert tail[k] in multiset(q[1..]);
        var j :| 0 <= j < |q[1..]| && q[1..][j] == tail[k];
        assert q[j + 1] == tail[k];
      }
    }
  }

  /** Taking an entry out of an ordered sequence leaves it ordered, and the entry comparable with the rest. */
  lemma {:induction false} BetweenOrdered(prefix: seq<Entry>, e: Entry, suffix: seq<Entry>)
    requires Ordered(prefix + [e] + suffix)
    ensures Ordered(prefix + suffix)
    ensures forall k :: 0 <= k < |prefix + suffix| ==> Precedes((prefix + suffix)[k], e) || Precedes(e, (prefix + suffix)[k])
  {
    var whole := prefix + [e] + suffix;
    assert whole[|prefix|] == e;
    forall k | 0 <= k < |prefix + suffix|
      ensures Precedes((prefix + suffix)[k], e) || Precedes(e, (prefix + suffix)[k])
    {
      if k < |prefix| {
        assert (prefix + suffix)[k] == whole[k];
      } else {
        assert (prefix + suffix)[k] == whole[k + 1];
      }
    }
    forall i, j | 0 <= i < j < |prefix + suffix|
      ensures Precedes((prefix + suffix)[i], (prefix + suffix)[j])
    {
      var i' := if i < |prefix| then i else i + 1;
      var j' := if j < |prefix| then j else j + 1;
      assert (prefix + suffix)[i] == whole[i'];
      assert (prefix + suffix)[j] == whole[j'];
    }
  }

  /** Putting back an entry that sits between a prefix and a suffix restores the sequence. */
  lemma {:induction false} InsertBetween(prefix: seq<Entry>, e: Entry, suffix: seq<Entry>)
    requires Ordered(prefix + [e] + suffix)
    ensures Ordered(prefix + suffix)
    ensures forall k :: 0 <= k < |prefix + suffix| ==> Precedes((prefix + suffix)[k], e) || Precedes(e, (prefix + suffix)[k])
    ensures Insert(prefix + suffix, e) == prefix + [e] + suffix
    decreases |prefix|
  {
    BetweenOrdered(prefix, e, suffix);
    var whole := prefix + [e] + suffix;
    if prefix == [] {
      assert prefix + suffix == suffix;
      if suffix != [] {
        assert whole[0] == e && whole[1] == suffix[0];
      }
    } else {
      var rest := prefix[1..] + [e] + suffix;
      assert whole[1..] == rest;
      OrderedTail(whole, 1);
      InsertBetween(prefix[1..], e, suffix);
      assert whole[0] == prefix[0] && whole[|prefix|] == e;
      assert (prefix + suffix)[0] == prefix[0];
      assert (prefix + suffix)[1..] == prefix[1..] + suffix;
      assert whole == [prefix[0]] + rest;
    }
  }

  /**
   * The position of the first entry, in dequeue order, whose operation is
   * ready; `None` when no entry is.
   */
  function FirstReadyIndex(q: seq<Entry>, completed: map<string, OperationResult>): (r: Option<nat>)
    ensures r.Some? ==> r.value < |q| && Ready(q[r.value].operation, completed)
    ensures r.Some? ==> forall j :: 0 <= j < r.value ==> !Ready(q[j].operation, completed)
    ensures r.None? <==> forall j :: 0 <= j < |q| ==> !Ready(q[j].operation, completed)
  {
    if q == [] then None
    else if Ready(q[0].operation, completed) then Some(0)
    else match FirstReadyIndex(q[1..], completed)
      case None => None
      case Some(k) => Some(k + 1)
  }

  lemma {:induction false} OrderedTail(q: seq<Entry>, k: nat)
    requires Ordered(q) && k <= |q|
    ensures Ordered(q[k..])
  {
    assert forall i, j :: 0 <= i < j < |q[k..]| ==> q[k..][i] == q[k + i] && q[k..][j] == q[k + j];
  }

  // ---------------------------------------------------------------------
  // Converting a command outcome into a result
  // ---------------------------------------------------------------------

  /**
   * The OperationResult execute_single_operation returns for an outcome:
   * a finished process succeeds exactly when its exit code is 0; a timeout
   * and a launch exception both fail with the sentinel code.
   */
  function ResultOf(op: PackageOperation, outcome: CommandOutcome, duration: real): (r: OperationResult)
    ensures r.operation == op && r.duration == duration
    ensures r.success <==> outcome.Exited? && outcome.code == 0
    ensures outcome.Exited? ==> r.returncode == outcome.code && r.output == outcome.stdout && r.error == outcome.stderr
    ensures outcome.TimedOut? ==> r.returncode == SentinelCode && r.error == TimeoutError && r.output == ""
    ensures outcome.Raised? ==> r.returncode == SentinelCode && r.error == outcome.message && r.output == ""
  {
    match outcome
    case Exited(code, stdout, stderr) => OperationResult(op, code == 0, duration, stdout, stderr, code)
    case TimedOut => OperationResult(op, false, duration, "", TimeoutError, SentinelCode)
    case Raised(message) => OperationResult(op, false, duration, "", message, SentinelCode)
  }

  /** On every path a result is successful exactly when its return code is 0. */
  lemma {:induction false} ResultSuccessIffZero(op: PackageOperation, outcome: CommandOutcome, duration: real)
    ensures ResultOf(op, outcome, duration).success <==> ResultOf(op, outcome, duration).returncode == 0
  {
  }

  // ---------------------------------------------------------------------
  // The manager
  // ---------------------------------------------------------------------

  datatype Stats = Stats(
    totalOperations: nat,
    completedOperations: nat,
    failedOperations: nat,
    totalDuration: real,
    parallelEfficiency: real)

  /** What get_status reports. */
  datatype Status = Status(
    queued: nat,
    runningCount: nat,
    completedCount: nat,
    failedCount: nat,
    runningDetails: map<string, string>,
    stats: Stats)

  /** What execute_operations_batch returns. */
  datatype BatchSummary = BatchSummary(
    totalDuration: real,
    completedCount: nat,
    failedCount: nat,
    parallelEfficiency: real,
    completedResults: map<string, OperationResult>,
    failedResults: map<string, OperationResult>)

  class ParallelOperationManager {
    var maxWorkers: int
    var queue: seq<Entry>
    var clock: nat   // the next insertion stamp
    var completed: map<string, OperationResult>
    var failed: map<string, OperationResult>
    var running: map<string, PackageOperation>
    var stats: Stats

    ghost predicate Valid()
      reads this
    {
      && maxWorkers >= 1
      && Ordered(queue)
      && (forall k :: 0 <= k < |queue| ==> queue[k].stamp < clock)
      && |queue| <= stats.totalOperations
      && |completed| <= stats.completedOperations
      && |failed| <= stats.failedOperations
    }

    constructor (configured: Option<int>, cpuCount: Option<nat>)
      ensures Valid()
      ensures maxWorkers == MaxWorkers(configured, cpuCount)
      ensures queue == [] && completed == map[] && failed == map[] && running == map[]
      ensures stats == Stats(0, 0, 0, 0.0, 0.0)
    {
      maxWorkers := MaxWorkers(configured, cpuCount);
      queue := [];
      clock := 0;
      completed := map[];
      failed := map[];
      running := map[];
      stats := Stats(0, 0, 0, 0.0, 0.0);
    }

    /** add_operation: enqueue under key -priority and count the submission. */
    method AddOperation(op: PackageOperation) returns (ok: bool)
      requires Valid()
      modifies this
      ensures Valid() && ok
      ensures queue == Insert(old(queue), Entry(-op.priority, old(clock), op))
      ensures multiset(queue) == multiset(old(queue)) + multiset{Entry(-op.priority, old(clock), op)}
      ensures clock == old(clock) + 1
      ensures stats == old(stats).(totalOperations := old(stats.totalOperations) + 1)
      ensures maxWorkers == old(maxWorkers) && completed == old(completed)
      ensures failed == old(failed) && running == old(running)
    {
      var e := Entry(-op.priority, clock, op);
      NewestComparable(queue, e);
      ghost var q0 := queue;
      queue := Insert(queue, e);
      InsertKeepsStamps(q0, e, queue);
      clock := clock + 1;
      stats := stats.(totalOperations := stats.totalOperations + 1);
      ok := true;
    }

    /** can_execute_operation. */
    predicate CanExecuteOperation(op: PackageOperation)
      reads this
    {
      Ready(op, completed)
    }

    /**
     * get_next_ready_operation: pop entries in order until one is ready,
     * then put every popped entry that was not ready back.
     */
    method GetNextReadyOperation() returns (next: Option<PackageOperation>)
      requires Valid()
      modifies this`queue
      ensures Valid()
      ensures match FirstReadyIndex(old(queue), completed)
        case None => next == None && queue == old(queue)
        case Some(k) => next == Some(old(queue)[k].operation) && queue == old(queue)[..k] + old(queue)[k + 1..]
      ensures next.Some? ==> Ready(next.value, completed) && |queue| == |old(queue)| - 1
      ensures multiset(queue) <= multiset(old(queue))
    {
      var temp, found, rest;
      temp, found, next, rest := ScanForReady(queue, completed);
      ScanLeavesOrdered(queue, temp, found, rest);
      var q := PutBack(temp, rest);
      SubsetKeepsStamps(queue, q, clock);
      if found {
        RemoveAtShrinks(queue, |temp|);
      }
      queue := q;
    }

    /** execute_single_operation: record the run, convert the outcome, and always unregister it. */
    method ExecuteSingleOperation(op: PackageOperation, outcome: CommandOutcome, duration: real)
      returns (r: OperationResult)
      modifies this`running
      ensures r == ResultOf(op, outcome, duration)
      ensures running == old(running) - {op.packageName}
    {
      running := running[op.packageName := op];
      r := ResultOf(op, outcome, duration);
      running := running - {op.packageName};
    }

    /** process_operation_result: file the result by package name and count it. */
    method ProcessOperationResult(r: OperationResult)
      requires Valid()
      modifies this`completed, this`failed, this`stats
      ensures Valid()
      ensures r.success ==> completed == old(completed)[r.operation.packageName := r] && failed == old(failed)
      ensures !r.success ==> failed == old(failed)[r.operation.packageName := r] && completed == old(completed)
      ensures stats.completedOperations == old(stats.completedOperations) + (if r.success then 1 else 0)
      ensures stats.failedOperations == old(stats.failedOperations) + (if r.success then 0 else 1)
      ensures stats.totalDuration == old(stats.totalDuration) + r.duration
      ensures stats.totalOperations == old(stats.totalOperations)
      ensures stats.parallelEfficiency == old(stats.parallelEfficiency)
    {
      var name := r.operation.packageName;
      if r.success {
        completed := completed[name := r];
        stats := stats.(completedOperations := stats.completedOperations + 1);
      } else {
        failed := failed[name := r];
        stats := stats.(failedOperations := stats.failedOperations + 1);
      }
      stats := stats.(totalDuration := stats.totalDuration + r.duration);
    }

    /** get_status: a snapshot of the queue, the running set, the two maps and the counters. */
    function GetStatus(): (s: Status)
      reads this
      requires Valid()
      ensures s.queued == |queue| && s.runningCount == |running|
      ensures s.completedCount == |completed| && s.failedCount == |failed|
      ensures s.queued <= s.stats.totalOperations
      ensures s.completedCount <= s.stats.completedOperations && s.failedCount <= s.stats.failedOperations
      ensures s.stats == stats
      ensures s.runningDetails.Keys == running.Keys
      ensures forall n :: n in running ==> s.runningDetails[n] == running[n].operationType
    {
      Status(|queue|, |running|, |completed|, |failed|,
             map n | n in running :: running[n].operationType, stats)
    }

    /**
     * The submission loop of execute_operations_batch, with the exit the
     * code at flatpack_parallel.py:217-222 lacks: it stops as soon as no
     * queued operation is ready, so the driver goes on to harvest.
     */
    method SubmitReady(futures: seq<PackageOperation>) returns (inFlight: seq<PackageOperation>, ghost taken: seq<Entry>)
      requires Valid() && |futures| <= maxWorkers
      modifies this`queue
      ensures Valid()
      ensures |futures| <= |inFlight| <= maxWorkers
      ensures inFlight[..|futures|] == futures
      ensures |inFlight| == |futures| + |taken|
      ensures forall k :: 0 <= k < |taken| ==> inFlight[|futures| + k] == taken[k].operation
      ensures multiset(old(queue)) == multiset(queue) + multiset(taken)
      ensures DriverState(queue, completed, inFlight) == SubmitPasses(DriverState(old(queue), completed, futures), |taken|)
      ensures forall k :: |futures| <= k < |inFlight| ==> Ready(inFlight[k], completed)
      ensures |inFlight| == maxWorkers || queue == [] || FirstReadyIndex(queue, completed).None?
    {
      ghost var start := DriverState(queue, completed, futures);
      inFlight := futures;
      taken := [];
      SubmitTraceStart(start);
      while |inFlight| < maxWorkers && queue != []
        invariant Valid()
        invariant |inFlight| <= maxWorkers
        invariant SubmitTrace(start, inFlight, taken, queue)
        decreases |queue|
      {
        ghost var before := queue;
        var next := GetNextReadyOperation();
        if next.None? {
          break;
        }
        ghost var k := FirstReadyIndex(before, completed).value;
        SubmitTraceStep(start, inFlight, taken, before, k);
        taken := taken + [before[k]];
        inFlight := inFlight + [next.value];
      }
    }

    /**
     * The end of execute_operations_batch once the queue is drained, with
     * the efficiency figure taken over the operations that were submitted
     * (see EfficiencyAsWritten for the figure as the source computes it).
     */
    method FinishBatch(wallClock: real, submitted: seq<PackageOperation>) returns (summary: BatchSummary)
      requires Valid() && wallClock > 0.0
      modifies this`stats
      ensures Valid()
      ensures stats == old(stats).(parallelEfficiency := Efficiency(submitted, wallClock, old(stats.parallelEfficiency)))
      ensures summary == BatchSummary(wallClock, stats.completedOperations, stats.failedOperations,
                                      stats.parallelEfficiency, completed, failed)
    {
      stats := stats.(parallelEfficiency := Efficiency(submitted, wallClock, stats.parallelEfficiency));
      summary := BatchSummary(wallClock, stats.completedOperations, stats.failedOperations,
                              stats.parallelEfficiency, completed, failed);
    }
  }

  /**
   * The first loop of get_next_ready_operation: `get` entries until one is
   * ready, keeping the ones that are not in `temp`; `rest` is what is left.
   */
  method ScanForReady(q: seq<Entry>, completed: map<string, OperationResult>)
    returns (temp: seq<Entry>, found: bool, next: Option<PackageOperation>, rest: seq<Entry>)
    ensures found <==> FirstReadyIndex(q, completed).Some?
    ensures found ==> |temp| == FirstReadyIndex(q, completed).value
    ensures found ==> |temp| < |q| && next == Some(q[|temp|].operation) && q == temp + [q[|temp|]] + rest
    ensures !found ==> next == None && temp == q && rest == []
  {
    rest := q;
    temp := [];
    next := None;
    found := false;
    while rest != [] && !found
      invariant |temp| <= |q| && temp == q[..|temp|]
      invariant !found ==> rest == q[|temp|..] && next == None
      invariant found ==> |temp| < |q| && rest == q[|temp| + 1..]
      invariant found ==> next == Some(q[|temp|].operation) && Ready(q[|temp|].operation, completed)
      invariant forall j :: 0 <= j < |temp| ==> !Ready(temp[j].operation, completed)
      decreases |rest|, if found then 0 else 1
    {
      var e := rest[0];
      rest := rest[1..];
      if Ready(e.operation, completed) {
        next := Some(e.operation);
        found := true;
      } else {
        temp := temp + [e];
      }
    }
    if found {
      assert q == temp + [q[|temp|]] + rest;
    } else {
      assert q == temp + rest;
    }
    FirstReadyMatchesScan(q, temp, found, completed);
  }

  /**
   * The second loop of get_next_ready_operation: `put` every popped entry
   * back; the queue comes out as the popped entries followed by the rest.
   */
  method PutBack(temp: seq<Entry>, rest: seq<Entry>) returns (q: seq<Entry>)
    requires Ordered(temp + rest)
    ensures q == temp + rest
  {
    q := rest;
    var i := 0;
    while i < |temp|
      invariant 0 <= i <= |temp|
      invariant q == temp[..i] + rest
    {
      PutBackStep(temp, i, rest);
      q := Insert(q, temp[i]);
      i := i + 1;
    }
    assert temp[..|temp|] == temp;
  }

  lemma {:induction false} RemoveAtShrinks(q: seq<Entry>, k: nat)
    requires k < |q|
    ensures multiset(q[..k] + q[k + 1..]) <= multiset(q)
    ensures |q[..k] + q[k + 1..]| == |q| - 1
    ensures multiset(q) == multiset(q[..k] + q[k + 1..]) + multiset{q[k]}
  {
    assert q == q[..k] + [q[k]] + q[k + 1..];
  }

  /** An entry stamped after every queued entry is comparable with each of them. */
  lemma {:induction false} NewestComparable(q: seq<Entry>, e: Entry)
    requires forall k :: 0 <= k < |q| ==> q[k].stamp < e.stamp
    ensures forall k :: 0 <= k < |q| ==> Precedes(q[k], e) || Precedes(e, q[k])
  {
  }

  /** After a `put` stamped with the clock, every stamp is at most the clock. */
  lemma {:induction false} InsertKeepsStamps(q0: seq<Entry>, e: Entry, q: seq<Entry>)
    requires forall k :: 0 <= k < |q0| ==> q0[k].stamp < e.stamp
    requires multiset(q) == multiset(q0) + multiset{e}
    ensures forall k :: 0 <= k < |q| ==> q[k].stamp < e.stamp + 1
  {
    forall k | 0 <= k < |q| ensures q[k].stamp < e.stamp + 1 {
      assert q[k] in multiset(q);
      if q[k] != e {
        assert q[k] in multiset(q0);
        var j :| 0 <= j < |q0| && q0[j] == q[k];
      }
    }
  }

  lemma {:induction false} SubsetKeepsStamps(q0: seq<Entry>, q: seq<Entry>, clock: nat)
    requires multiset(q) <= multiset(q0)
    requires forall k :: 0 <= k < |q0| ==> q0[k].stamp < clock
    ensures forall k :: 0 <= k < |q| ==> q[k].stamp < clock
  {
    forall k | 0 <= k < |q| ensures q[k].stamp < clock {
      assert q[k] in multiset(q);
      assert q[k] in multiset(q0);
      var j :| 0 <= j < |q0| && q0[j] == q[k];
    }
  }

  /** One step of re-putting popped entries, expressed on sequences. */
  lemma {:induction false} PutBackStep(temp: seq<Entry>, i: nat, rest: seq<Entry>)
    requires i < |temp|
    requires Ordered(temp + rest)
    ensures Ordered(temp[..i] + rest)
    ensures forall k :: 0 <= k < |temp[..i] + rest| ==> Precedes((temp[..i] + rest)[k], temp[i]) || Precedes(temp[i], (temp[..i] + rest)[k])
    ensures Insert(temp[..i] + rest, temp[i]) == temp[..i + 1] + rest
  {
    var whole := temp + rest;
    var small := temp[..i] + [temp[i]] + rest;
    forall a, b | 0 <= a < b < |small| ensures Precedes(small[a], small[b]) {
      var a' := if a <= i then a else a + (|temp| - i - 1);
      var b' := if b <= i then b else b + (|temp| - i - 1);
      assert small[a] == whole[a'];
      assert small[b] == whole[b'];
    }
    InsertBetween(temp[..i], temp[i], rest);
    assert temp[..i] + [temp[i]] == temp[..i + 1];
  }

  /** The popped entries followed by what is left keep the queue's order. */
  lemma {:induction false} ScanLeavesOrdered(q0: seq<Entry>, temp: seq<Entry>, found: bool, rest: seq<Entry>)
    requires Ordered(q0)
    requires !found ==> q0 == temp + rest
    requires found ==> |temp| < |q0| && q0 == temp + [q0[|temp|]] + rest
    ensures Ordered(temp + rest)
    ensures !found ==> temp + rest == q0
    ensures found ==> temp + rest == q0[..|temp|] + q0[|temp| + 1..]
    ensures multiset(temp + rest) <= multiset(q0)
  {
    if found {
      InsertBetween(temp, q0[|temp|], rest);
      assert temp == q0[..|temp|] && rest == q0[|temp| + 1..];
      RemovedOne(q0, temp, q0[|temp|], rest);
    }
  }

  lemma {:induction false} RemovedOne(q: seq<Entry>, prefix: seq<Entry>, e: Entry, suffix: seq<Entry>)
    requires q == prefix + [e] + suffix
    ensures multiset(prefix + suffix) <= multiset(q)
  {
    assert multiset(q) == multiset(prefix) + multiset{e} + multiset(suffix);
    assert multiset(prefix + suffix) == multiset(prefix) + multiset(suffix);
  }

  /** What the scan found agrees with FirstReadyIndex on the queue it started from. */
  lemma {:induction false} FirstReadyMatchesScan(q0: seq<Entry>, temp: seq<Entry>, found: bool, completed: map<string, OperationResult>)
    requires |temp| <= |q0|
    requires forall j :: 0 <= j < |temp| ==> temp[j] == q0[j] && !Ready(temp[j].operation, completed)
    requires found ==> |temp| < |q0| && Ready(q0[|temp|].operation, completed)
    requires !found ==> |temp| == |q0|
    ensures found ==> FirstReadyIndex(q0, completed) == Some(|temp|)
    ensures !found ==> FirstReadyIndex(q0, completed) == None
  {
  }

  // ---------------------------------------------------------------------
  // The batch loop as written
  // ---------------------------------------------------------------------

  /** What the submission loop of execute_operations_batch reads and changes. */
  datatype DriverState = DriverState(
    queue: seq<Entry>,
    completed: map<string, OperationResult>,
    inFlight: seq<PackageOperation>)

  /** The condition of the loop at flatpack_parallel.py:217. */
  predicate SubmitGuard(s: DriverState, maxWorkers: int) {
    |s.inFlight| < maxWorkers && s.queue != []
  }

  /**
   * One pass of the loop body at flatpack_parallel.py:218-222 as written:
   * take the first ready operation if there is one, otherwise change nothing.
   * Results are only harvested after this loop, so `completed` never moves.
   */
  function SubmitPass(s: DriverState): (r: DriverState)
    ensures r.completed == s.completed
    ensures |r.inFlight| <= |s.inFlight| + 1
  {
    match FirstReadyIndex(s.queue, s.completed)
    case None => s
    case Some(k) => s.(queue := s.queue[..k] + s.queue[k + 1..], inFlight := s.inFlight + [s.queue[k].operation])
  }

  function SubmitPasses(s: DriverState, n: nat): DriverState
    decreases n
  {
    if n == 0 then s else SubmitPasses(SubmitPass(s), n - 1)
  }

  /** A further pass applied after n passes is pass n + 1. */
  lemma {:induction false} SubmitPassesSnoc(s: DriverState, n: nat)
    ensures SubmitPasses(s, n + 1) == SubmitPass(SubmitPasses(s, n))
    decreases n
  {
    if n > 0 {
      SubmitPassesSnoc(SubmitPass(s), n - 1);
    }
  }

  /**
   * What the submission loop has done after |taken| passes from `start`:
   * the in-flight list is start's followed by the operations of the taken
   * entries, the queue has lost exactly those entries, and the state is
   * that many passes of the loop body.
   */
  ghost predicate SubmitTrace(start: DriverState, inFlight: seq<PackageOperation>, taken: seq<Entry>, queue: seq<Entry>) {
    SubmittedOps(start, inFlight, taken) && SubmitPassesTaken(start, inFlight, taken, queue)
  }

  ghost predicate SubmittedOps(start: DriverState, inFlight: seq<PackageOperation>, taken: seq<Entry>) {
    && |inFlight| == |start.inFlight| + |taken|
    && inFlight[..|start.inFlight|] == start.inFlight
    && (forall k :: 0 <= k < |taken| ==> inFlight[|start.inFlight| + k] == taken[k].operation)
    && (forall k :: |start.inFlight| <= k < |inFlight| ==> Ready(inFlight[k], start.completed))
  }

  ghost predicate SubmitPassesTaken(start: DriverState, inFlight: seq<PackageOperation>, taken: seq<Entry>, queue: seq<Entry>) {
    && multiset(start.queue) == multiset(queue) + multiset(taken)
    && DriverState(queue, start.completed, inFlight) == SubmitPasses(start, |taken|)
  }

  lemma {:induction false} SubmitTraceStart(start: DriverState)
    ensures SubmitTrace(start, start.inFlight, [], start.queue)
  {
    assert start.inFlight[..|start.inFlight|] == start.inFlight;
  }

  /** A pass that takes entry k extends the trace by that entry. */
  lemma {:induction false} SubmitTraceStep(start: DriverState, inFlight: seq<PackageOperation>, taken: seq<Entry>,
                                           before: seq<Entry>, k: nat)
    requires SubmitTrace(start, inFlight, taken, before)
    requires FirstReadyIndex(before, start.completed) == Some(k)
    ensures k < |before|
    ensures SubmitTrace(start, inFlight + [before[k].operation], taken + [before[k]], before[..k] + before[k + 1..])
  {
    SubmittedOpsStep(start, inFlight, taken, before[k]);
    SubmitPassesStep(start, inFlight, taken, before, k);
  }

  lemma {:induction false} SubmittedOpsStep(start: DriverState, inFlight: seq<PackageOperation>, taken: seq<Entry>, e: Entry)
    requires SubmittedOps(start, inFlight, taken)
    requires Ready(e.operation, start.completed)
    ensures SubmittedOps(start, inFlight + [e.operation], taken + [e])
  {
    var n := |start.inFlight|;
    var f := inFlight + [e.operation];
    var t := taken + [e];
    assert f[..n] == start.inFlight by {
      assert f[..n] == inFlight[..n];
    }
    forall j | 0 <= j < |t|
      ensures f[n + j] == t[j].operation
    {
      if j < |taken| {
        assert f[n + j] == inFlight[n + j];
      }
    }
    forall j | n <= j < |f|
      ensures Ready(f[j], start.completed)
    {
      if j < |inFlight| {
        assert f[j] == inFlight[j];
      }
    }
  }

  /** The pass that finds entry k ready moves that entry's operation in flight. */
  lemma {:induction false} SubmitPassTakes(s: DriverState, k: nat)
    requires FirstReadyIndex(s.queue, s.completed) == Some(k)
    ensures k < |s.queue|
    ensures SubmitPass(s) == DriverState(s.queue[..k] + s.queue[k + 1..], s.completed, s.inFlight + [s.queue[k].operation])
  {
  }

  lemma {:induction false} SubmitPassesStep(start: DriverState, inFlight: seq<PackageOperation>, taken: seq<Entry>,
                                            before: seq<Entry>, k: nat)
    requires SubmitPassesTaken(start, inFlight, taken, before)
    requires FirstReadyIndex(before, start.completed) == Some(k)
    ensures k < |before|
    ensures SubmitPassesTaken(start, inFlight + [before[k].operation], taken + [before[k]], before[..k] + before[k + 1..])
  {
    var t := taken + [before[k]];
    var rest := before[..k] + before[k + 1..];
    var f := inFlight + [before[k].operation];
    assert SubmitPasses(start, |t|) == DriverState(rest, start.completed, f) by {
      SubmitPassesSnoc(start, |taken|);
      SubmitPassTakes(DriverState(before, start.completed, inFlight), k);
    }
    assert multiset(start.queue) == multiset(rest) + multiset(t) by {
      RemoveAtShrinks(before, k);
      assert multiset(t) == multiset(taken) + multiset{before[k]};
    }
  }

  /**
   * As written, once the guard holds and no queued operation is ready, no
   * number of passes changes the state and the guard stays true: the loop
   * at lines 217-222 never exits, although finished operations are waiting
   * to be harvested.
   */
  lemma {:induction false} SubmitLoopSpins(s: DriverState, maxWorkers: int, n: nat)
    requires SubmitGuard(s, maxWorkers)
    requires FirstReadyIndex(s.queue, s.completed).None?
    ensures SubmitPasses(s, n) == s && SubmitGuard(SubmitPasses(s, n), maxWorkers)
  {
    if n > 0 {
      assert SubmitPass(s) == s;
      SubmitLoopSpins(s, maxWorkers, n - 1);
    }
  }

  /**
   * The smallest batch with a dependency: "b" needs "a", two workers.
   * The first pass submits "a"; from then on the loop spins for ever.
   */
  lemma {:induction false} DependentPairSpins(n: nat)
    ensures var a := PackageOperation("install", "a", "flatpak", ["true"], 0, [], 30.0);
            var b := PackageOperation("install", "b", "flatpak", ["true"], 0, ["a"], 30.0);
            var start := DriverState([Entry(0, 0, a), Entry(0, 1, b)], map[], []);
            var stuck := DriverState([Entry(0, 1, b)], map[], [a]);
            SubmitPass(start) == stuck && SubmitGuard(stuck, 2) && SubmitPasses(stuck, n) == stuck
  {
    var a := PackageOperation("install", "a", "flatpak", ["true"], 0, [], 30.0);
    var b := PackageOperation("install", "b", "flatpak", ["true"], 0, ["a"], 30.0);
    var stuck := DriverState([Entry(0, 1, b)], map[], [a]);
    assert !Ready(b, map[]);
    assert FirstReadyIndex(stuck.queue, stuck.completed).None?;
    SubmitLoopSpins(stuck, 2, n);
  }

  // ---------------------------------------------------------------------
  // Efficiency
  // ---------------------------------------------------------------------

  function QueuedEstimate(q: seq<Entry>): real {
    if q == [] then 0.0 else q[0].operation.estimatedDuration + QueuedEstimate(q[1..])
  }

  function EstimatedTotal(ops: seq<PackageOperation>): real {
    if ops == [] then 0.0 else ops[0].estimatedDuration + EstimatedTotal(ops[1..])
  }

  /** Lines 258-260 as written: the estimate is summed over the queue left at the end. */
  function EfficiencyAsWritten(queueAtEnd: seq<Entry>, wallClock: real, current: real): real
    requires wallClock > 0.0
  {
    var sequential := QueuedEstimate(queueAtEnd);
    if sequential > 0.0 then sequential / wallClock * 100.0 else current
  }

  /** The condition of the outer loop at flatpack_parallel.py:216. */
  predicate BatchGuard(s: DriverState) {
    s.queue != [] || s.inFlight != []
  }

  /**
   * The batch loop only ends when its guard fails, and then the queue is
   * empty; so as written the figure keeps its previous value (0.0 for a
   * fresh manager) whatever ran.
   */
  lemma {:induction false} EfficiencyAsWrittenNeverSet(atExit: DriverState, wallClock: real, current: real)
    requires !BatchGuard(atExit) && wallClock > 0.0
    ensures atExit.queue == []
    ensures EfficiencyAsWritten(atExit.queue, wallClock, current) == current
  {
  }

  /**
   * The figure `sequential_duration` and `parallel_efficiency`
   * (flatpack_parallel.py:257-260) are named for: the estimated sequential
   * time of every submitted operation over the wall-clock time, as a
   * percentage; left as it was when nothing was estimated.
   */
  function Efficiency(submitted: seq<PackageOperation>, wallClock: real, current: real): (r: real)
    requires wallClock > 0.0
    ensures EstimatedTotal(submitted) > 0.0 ==> r > 0.0 && r * wallClock == EstimatedTotal(submitted) * 100.0
    ensures EstimatedTotal(submitted) <= 0.0 ==> r == current
  {
    var sequential := EstimatedTotal(submitted);
    if sequential > 0.0 then sequential / wallClock * 100.0 else current
  }

  /** With positive estimates the corrected figure is set by any non-empty batch. */
  lemma {:induction false} EfficiencyCountsSubmitted(submitted: seq<PackageOperation>, wallClock: real, current: real)
    requires wallClock > 0.0 && submitted != []
    requires forall k :: 0 <= k < |submitted| ==> submitted[k].estimatedDuration > 0.0
    ensures Efficiency(submitted, wallClock, current) > 0.0
  {
    EstimatedTotalPositive(submitted);
  }

  lemma {:induction false} EstimatedTotalPositive(ops: seq<PackageOperation>)
    requires ops != []
    requires forall k :: 0 <= k < |ops| ==> ops[k].estimatedDuration > 0.0
    ensures EstimatedTotal(ops) > 0.0
  {
    if |ops| > 1 {
      EstimatedTotalPositive(ops[1..]);
    }
  }

  // ---------------------------------------------------------------------
  // Builders
  // ---------------------------------------------------------------------

  /** The Flatpak command for one app, `None` for an operation type the builder skips. */
  function FlatpakCommand(operationType: string, appId: string): Option<seq<string>> {
    if operationType == "update" then Some(["flatpak", "update", "--noninteractive", appId])
    else if operationType == "install" then Some(["flatpak", "install", "--noninteractive", "flathub", appId])
    else if operationType == "remove" then Some(["flatpak", "remove", "--noninteractive", appId])
    else None
  }

  /** create_flatpak_operations: one operation per app id, earlier ids first. */
  method CreateFlatpakOperations(appIds: seq<string>, operationType: string) returns (ops: seq<PackageOperation>)
    ensures FlatpakCommand(operationType, "").None? ==> ops == []
    ensures FlatpakCommand(operationType, "").Some? ==> |ops| == |appIds|
    ensures forall i :: 0 <= i < |ops| ==>
              && ops[i].packageName == appIds[i]
              && ops[i].operationType == operationType
              && ops[i].packageManager == "flatpak"
              && Some(ops[i].command) == FlatpakCommand(operationType, appIds[i])
              && ops[i].priority == 100 - i
              && ops[i].dependencies == []
              && ops[i].estimatedDuration == (if operationType == "install" then 45.0 else 20.0)
    ensures forall i, j :: 0 <= i < j < |ops| ==> ops[i].priority > ops[j].priority
  {
    ops := [];
    var i := 0;
    while i < |appIds|
      invariant 0 <= i <= |appIds|
      invariant FlatpakCommand(operationType, "").None? ==> ops == []
      invariant FlatpakCommand(operationType, "").Some? ==> |ops| == i
      invariant forall k :: 0 <= k < |ops| ==>
                  && ops[k].packageName == appIds[k]
                  && ops[k].operationType == operationType
                  && ops[k].packageManager == "flatpak"
                  && Some(ops[k].command) == FlatpakCommand(operationType, appIds[k])
                  && ops[k].priority == 100 - k
                  && ops[k].dependencies == []
                  && ops[k].estimatedDuration == (if operationType == "install" then 45.0 else 20.0)
    {
      var command := FlatpakCommand(operationType, appIds[i]);
      if command.Some? {
        var estimate := if operationType == "install" then 45.0 else 20.0;
        ops := ops + [PackageOperation(operationType, appIds[i], "flatpak", command.value, 100 - i, [], estimate)];
      }
      i := i + 1;
    }
  }

  const PacmanInstallPrefix: seq<string> := ["sudo", "pacman", "-S", "--needed", "--noconfirm"]
  const BatchSize: nat := 5

  function Min(a: int, b: int): int { if a <= b then a else b }

  /** The consecutive groups of at most five packages an install is split into. */
  function Chunks(names: seq<string>): seq<seq<string>>
    decreases |names|
  {
    if names == [] then [] else [names[..Min(BatchSize, |names|)]] + Chunks(names[Min(BatchSize, |names|)..])
  }

  function Flatten(groups: seq<seq<string>>): seq<string> {
    if groups == [] then [] else groups[0] + Flatten(groups[1..])
  }

  /** Group b holds the packages from index 5b up to 5b + 5. */
  lemma {:induction false} ChunkAt(names: seq<string>, b: nat)
    ensures |Chunks(names)| == (|names| + BatchSize - 1) / BatchSize
    ensures b < |Chunks(names)| ==> 5 * b < |names| && Chunks(names)[b] == names[5 * b..Min(5 * b + 5, |names|)]
    decreases |names|
  {
    if names != [] {
      var m := Min(BatchSize, |names|);
      var tail := names[m..];
      ChunkAt(tail, if b > 0 then b - 1 else 0);
      assert Chunks(names) == [names[..m]] + Chunks(tail);
      if b > 0 && b < |Chunks(names)| {
        assert tail != [];
        assert m == BatchSize;
        var lo := 5 * (b - 1);
        assert lo + 5 == 5 * b;
        assert Chunks(names)[b] == Chunks(tail)[b - 1];
        var hi := Min(lo + 5, |tail|);
        assert hi + 5 == Min(lo + 10, |names|);
        assert tail[lo..hi] == names[lo + 5..hi + 5] by {
          assert |tail[lo..hi]| == |names[lo + 5..hi + 5]|;
          forall j | 0 <= j < hi - lo
            ensures tail[lo..hi][j] == names[lo + 5..hi + 5][j]
          {
            assert tail[lo..hi][j] == tail[lo + j] == names[5 + lo + j];
          }
        }
      }
    }
  }

  /** The groups are non-empty, hold at most five packages, and put together give the input back. */
  lemma {:induction false} ChunksReassemble(names: seq<string>)
    ensures Flatten(Chunks(names)) == names
    ensures forall b :: 0 <= b < |Chunks(names)| ==> 1 <= |Chunks(names)[b]| <= BatchSize
    decreases |names|
  {
    if names != [] {
      var m := Min(BatchSize, |names|);
      ChunksReassemble(names[m..]);
      assert names[..m] + names[m..] == names;
    }
  }

  /** The command of one update or remove operation, `None` for a type the builder skips. */
  function PacmanCommand(operationType: string, packageName: string): Option<seq<string>> {
    if operationType == "update" then Some(["sudo", "pacman", "-S", "--noconfirm", packageName])
    else if operationType == "remove" then Some(["sudo", "pacman", "-R", "--noconfirm", packageName])
    else None
  }

  /** The operation for install group `b`: its packages after the fixed pacman flags. */
  predicate IsInstallBatch(op: PackageOperation, batch: seq<string>, b: nat) {
    && op.command == PacmanInstallPrefix + batch
    && op.packageName == "batch_" + Strings.NatToString(b) + "_" + Strings.Join(batch, "+")
    && op.priority == 100 - BatchSize * b
    && op.estimatedDuration == 30.0 * |batch| as real
    && op.operationType == "install" && op.packageManager == "pacman"
    && op.dependencies == []
  }

  /** The operation for the package at position `i` of an update or remove. */
  predicate IsSinglePackageOperation(op: PackageOperation, operationType: string, packageName: string, i: nat) {
    && Some(op.command) == PacmanCommand(operationType, packageName)
    && op.packageName == packageName
    && op.priority == 100 - i
    && op.estimatedDuration == 15.0
    && op.operationType == operationType && op.packageManager == "pacman"
    && op.dependencies == []
  }

  /**
   * create_pacman_operations: an install becomes one operation per group of
   * five packages; an update or remove one operation per package; any other
   * type none.
   */
  method CreatePacmanOperations(names: seq<string>, operationType: string) returns (ops: seq<PackageOperation>)
    ensures operationType == "install" ==>
              |ops| == |Chunks(names)| && forall b :: 0 <= b < |ops| ==> IsInstallBatch(ops[b], Chunks(names)[b], b)
    ensures PacmanCommand(operationType, "").Some? ==>
              |ops| == |names| && forall i :: 0 <= i < |ops| ==> IsSinglePackageOperation(ops[i], operationType, names[i], i)
    ensures operationType != "install" && PacmanCommand(operationType, "").None? ==> ops == []
  {
    if operationType == "install" {
      ops := InstallBatches(names);
    } else {
      ops := SinglePackageOperations(names, operationType);
    }
  }

  method InstallBatches(names: seq<string>) returns (ops: seq<PackageOperation>)
    ensures |ops| == |Chunks(names)|
    ensures forall b :: 0 <= b < |ops| ==> IsInstallBatch(ops[b], Chunks(names)[b], b)
  {
    ops := [];
    var i := 0;
    ChunkAt(names, 0);
    while i < |names|
      invariant i == BatchSize * |ops|
      invariant |ops| <= |Chunks(names)|
      invariant i < |names| ==> |ops| < |Chunks(names)|
      invariant i >= |names| ==> |ops| == |Chunks(names)|
      invariant forall b :: 0 <= b < |ops| ==> IsInstallBatch(ops[b], Chunks(names)[b], b)
      decreases |names| - i
    {
      var batch := names[i..Min(i + BatchSize, |names|)];
      ChunkAt(names, |ops|);
      ChunkAt(names, |ops| + 1);
      assert batch == Chunks(names)[|ops|];
      assert i / BatchSize == |ops|;
      var op := PackageOperation("install", "batch_" + Strings.NatToString(i / BatchSize) + "_" + Strings.Join(batch, "+"),
                                 "pacman", PacmanInstallPrefix + batch, 100 - i, [], 30.0 * |batch| as real);
      assert IsInstallBatch(op, Chunks(names)[|ops|], |ops|);
      ops := ops + [op];
      i := i + BatchSize;
    }
  }

  method SinglePackageOperations(names: seq<string>, operationType: string) returns (ops: seq<PackageOperation>)
    ensures PacmanCommand(operationType, "").Some? ==>
              |ops| == |names| && forall i :: 0 <= i < |ops| ==> IsSinglePackageOperation(ops[i], operationType, names[i], i)
    ensures PacmanCommand(operationType, "").None? ==> ops == []
  {
    ops := [];
    var i := 0;
    while i < |names|
      invariant 0 <= i <= |names|
      invariant PacmanCommand(operationType, "").None? ==> ops == []
      invariant PacmanCommand(operationType, "").Some? ==> |ops| == i
      invariant forall k :: 0 <= k < |ops| ==> IsSinglePackageOperation(ops[k], operationType, names[k], k)
    {
      var command := PacmanCommand(operationType, names[i]);
      if command.Some? {
        ops := ops + [PackageOperation(operationType, names[i], "pacman", command.value, 100 - i, [], 15.0)];
      }
      i := i + 1;
    }
  }
}
