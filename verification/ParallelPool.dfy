/** `_run_parallel_checks` (certwatch/check_thread.py) under every schedule: a thread pool takes
    hosts in submission order, each task reads the shutdown flag once, after it is picked up,
    and results are collected in any order. */
module ParallelPool {
  import opened Wrappers
  import opened ParallelChecks

  datatype Task = Idle | Picked(host: nat) | Checking(host: nat)

  datatype Pool = Pool(
    shutdown: bool,
    next: nat,                                  // the first host not yet picked up
    tasks: seq<Task>,                           // one per pool thread
    started: set<nat>,
    skipped: set<nat>,
    done: map<nat, Option<CheckResult>>,        // finished futures
    order: seq<nat>,                            // the order they were collected in
    results: map<string, CheckResult>)

  datatype Step = PickUp(w: nat) | ReadFlag(w: nat) | Finish(w: nat) | Collect(host: nat) | SetShutdown

  /** The checks themselves: what the call for the given host returns, None if it raises. */
  type Checks = (nat, CheckCall) -> Option<CheckResult>

  ghost predicate Init(s: Pool, threads: nat) {
    && s.next == 0 && s.started == {} && s.skipped == {} && s.done == map[] && s.order == [] && s.results == map[]
    && |s.tasks| == threads && (forall w | 0 <= w < threads :: s.tasks[w] == Idle)
  }

  ghost predicate Next(entries: seq<HostEntry>, c: Settings, checks: Checks, s: Pool, step: Step, s': Pool) {
    && (step.SetShutdown? || s'.shutdown == s.shutdown)
    && (step.PickUp? || s'.next == s.next)
    && (step.ReadFlag? || (s'.started == s.started && s'.skipped == s.skipped))
    && (step.ReadFlag? || step.Finish? || s'.done == s.done)
    && (step.Collect? || (s'.order == s.order && s'.results == s.results))
    && match step
       case PickUp(w) =>
         && w < |s.tasks| && s.tasks[w].Idle? && s.next < |entries|
         && s'.tasks == s.tasks[w := Picked(s.next)] && s'.next == s.next + 1
       case ReadFlag(w) =>
         && w < |s.tasks| && s.tasks[w].Picked?
         && var k := s.tasks[w].host;
            if s.shutdown then
              && s'.skipped == s.skipped + {k} && s'.started == s.started
              && s'.done == s.done[k := None] && s'.tasks == s.tasks[w := Idle]
            else
              && s'.started == s.started + {k} && s'.skipped == s.skipped
              && s'.done == s.done && s'.tasks == s.tasks[w := Checking(k)]
       case Finish(w) =>
         && w < |s.tasks| && s.tasks[w].Checking? && s.tasks[w].host < |entries|
         && var k := s.tasks[w].host;
            && s'.done == s.done[k := checks(k, CallOf(entries[k], c))] && s'.tasks == s.tasks[w := Idle]
       case Collect(k) =>
         && k in s.done && k !in s.order && k < |entries| && s'.tasks == s.tasks
         && s'.order == s.order + [k]
         && s'.results == (match s.done[k]
                           case Some(r) => s.results[entries[k].identityKey := r]
                           case None => s.results)
       case SetShutdown => s'.shutdown && s'.tasks == s.tasks
  }

  ghost predicate IsRun(entries: seq<HostEntry>, c: Settings, checks: Checks, threads: nat, states: seq<Pool>, steps: seq<Step>) {
    && |states| == |steps| + 1 && Init(states[0], threads)
    && forall i | 0 <= i < |steps| :: Next(entries, c, checks, states[i], steps[i], states[i + 1])
  }

  // ---- who has which host ----

  /** Hosts picked up by a thread that has not yet read the flag. */
  function Pending(tasks: seq<Task>): (r: set<nat>)
    ensures |r| <= |tasks|
  {
    if tasks == [] then {}
    else
      var last := tasks[|tasks| - 1];
      Pending(tasks[..|tasks| - 1]) + (if last.Picked? then {last.host} else {})
  }

  lemma {:induction false} PendingHas(tasks: seq<Task>, w: nat)
    requires w < |tasks| && tasks[w].Picked?
    ensures tasks[w].host in Pending(tasks)
  {
    if w < |tasks| - 1 {
      PendingHas(tasks[..|tasks| - 1], w);
    }
  }

  lemma {:induction false} PendingAfter(tasks: seq<Task>, w: nat, t: Task)
    requires w < |tasks|
    ensures forall k :: k in Pending(tasks) ==> k in Pending(tasks[w := t]) || tasks[w] == Picked(k)
    ensures t.Picked? ==> t.host in Pending(tasks[w := t])
  {
    var n, tasks' := |tasks| - 1, tasks[w := t];
    if w == n {
      assert tasks'[..n] == tasks[..n];
    } else {
      assert tasks'[..n] == tasks[..n][w := t];
      assert tasks[..n][w] == tasks[w] && tasks'[n] == tasks[n];
      PendingAfter(tasks[..n], w, t);
    }
  }

  /** Each host picked up is with one thread at most, started or skipped but not both. */
  ghost predicate TasksOk(s: Pool, n: nat) {
    && s.next <= n
    && (forall k | k in s.started || k in s.skipped || k in s.done :: k < s.next)
    && s.started !! s.skipped
    && (forall w | 0 <= w < |s.tasks| && !s.tasks[w].Idle? :: s.tasks[w].host < s.next)
    && (forall w | 0 <= w < |s.tasks| && s.tasks[w].Picked? ::
          s.tasks[w].host !in s.started && s.tasks[w].host !in s.skipped && s.tasks[w].host !in s.done)
    && (forall w | 0 <= w < |s.tasks| && s.tasks[w].Checking? :: s.tasks[w].host in s.started)
    && forall v, w | 0 <= v < w < |s.tasks| && s.tasks[v].Picked? && s.tasks[w].Picked? :: s.tasks[v].host != s.tasks[w].host
  }

  /** Hosts below k that have not started. */
  ghost function Unstarted(started: set<nat>, k: nat): set<nat> {
    set j: nat | j < k && j !in started
  }

  /** Hosts picked up and not started are pending or were skipped under shutdown. */
  ghost predicate PrefixOk(s: Pool) {
    && (!s.shutdown ==> s.skipped == {})
    && (forall k: nat | k < s.next :: k in s.started || k in s.skipped || k in Pending(s.tasks))
    && forall k | k in s.started :: |Unstarted(s.started, k)| <= |s.tasks| - 1
  }

  lemma TasksStep(entries: seq<HostEntry>, c: Settings, checks: Checks, s: Pool, step: Step, s': Pool)
    requires TasksOk(s, |entries|) && Next(entries, c, checks, s, step, s')
    ensures TasksOk(s', |entries|)
  {
  }

  lemma SmallerSet(a: set<nat>, b: set<nat>)
    requires a <= b
    ensures |a| <= |b|
  {
    assert |b| == |a| + |b - a|;
  }

  /** A host starts: it read the flag unset, so no host before it was skipped, and those not
      started are in the hands of the other threads. */
  lemma StartIsNearPrefix(s: Pool, w: nat)
    requires PrefixOk(s) && !s.shutdown && w < |s.tasks| && s.tasks[w].Picked? && s.tasks[w].host < s.next
    ensures |Unstarted(s.started + {s.tasks[w].host}, s.tasks[w].host)| <= |s.tasks| - 1
  {
    var k := s.tasks[w].host;
    var gap := Unstarted(s.started + {k}, k);
    PendingHas(s.tasks, w);
    SmallerSet(gap, Pending(s.tasks) - {k});
  }

  lemma PrefixStep(entries: seq<HostEntry>, c: Settings, checks: Checks, s: Pool, step: Step, s': Pool)
    requires TasksOk(s, |entries|) && PrefixOk(s) && Next(entries, c, checks, s, step, s')
    ensures PrefixOk(s')
  {
    hide Pending;
    match step {
      case PickUp(w) => PendingAfter(s.tasks, w, s'.tasks[w]);
      case Finish(w) => PendingAfter(s.tasks, w, Idle);
      case ReadFlag(w) =>
        PendingAfter(s.tasks, w, s'.tasks[w]);
        forall k | k in s'.started
          ensures |Unstarted(s'.started, k)| <= |s.tasks| - 1
        {
          if k in s.started {
            SmallerSet(Unstarted(s'.started, k), Unstarted(s.started, k));
          } else {
            StartIsNearPrefix(s, w);
          }
        }
      case Collect(_) =>
      case SetShutdown =>
    }
  }

  // ---- what is collected ----

  /** What host k contributes: its check's result if it started and did not raise. */
  function OutcomeOf(entries: seq<HostEntry>, c: Settings, checks: Checks, started: set<nat>, k: nat): Option<CheckResult>
    requires k < |entries|
  {
    if k in started then checks(k, CallOf(entries[k], c)) else None
  }

  function OutcomesOf(entries: seq<HostEntry>, c: Settings, checks: Checks, started: set<nat>): (r: Outcomes)
    ensures |r| == |entries| && forall k | 0 <= k < |r| :: r[k] == OutcomeOf(entries, c, checks, started, k)
    ensures forall k | 0 <= k < |r| :: r[k] == if k in started then checks(k, CallOf(entries[k], c)) else None
  {
    seq(|entries|, k requires 0 <= k < |entries| => OutcomeOf(entries, c, checks, started, k))
  }

  /** Finished futures hold their host's outcome; the dict holds those collected. */
  ghost predicate ResultsOk(entries: seq<HostEntry>, c: Settings, checks: Checks, s: Pool) {
    && (forall k | k in s.done :: k < |entries| && (k in s.started || k in s.skipped) && s.done[k] == OutcomeOf(entries, c, checks, s.started, k))
    && (forall i | 0 <= i < |s.order| :: s.order[i] in s.done)
    && (forall i, j | 0 <= i < j < |s.order| :: s.order[i] != s.order[j])
    && Within(s.order, |entries|)
    && s.results == Collected(entries, OutcomesOf(entries, c, checks, s.started), s.order)
  }

  /** What is collected does not depend on hosts not collected. */
  lemma {:induction false} CollectedSame(entries: seq<HostEntry>, a: Outcomes, b: Outcomes, order: seq<nat>)
    requires |a| == |b| == |entries| && Within(order, |entries|)
    requires forall i | 0 <= i < |order| :: a[order[i]] == b[order[i]]
    ensures Collected(entries, a, order) == Collected(entries, b, order)
  {
    if order != [] {
      CollectedSame(entries, a, b, order[..|order| - 1]);
    }
  }

  lemma ResultsStepCollect(entries: seq<HostEntry>, c: Settings, checks: Checks, s: Pool, k: nat, s': Pool)
    requires ResultsOk(entries, c, checks, s) && Next(entries, c, checks, s, Collect(k), s')
    ensures ResultsOk(entries, c, checks, s')
  {
    hide CallOf, OutcomeOf;
    assert s'.order[..|s'.order| - 1] == s.order;
    assert forall i | 0 <= i < |s.order| :: s.order[i] != k;
  }

  lemma ResultsStepStart(entries: seq<HostEntry>, c: Settings, checks: Checks, s: Pool, w: nat, s': Pool)
    requires TasksOk(s, |entries|) && ResultsOk(entries, c, checks, s) && Next(entries, c, checks, s, ReadFlag(w), s')
    ensures ResultsOk(entries, c, checks, s')
  {
    hide CallOf, Collected;
    CollectedSame(entries, OutcomesOf(entries, c, checks, s.started), OutcomesOf(entries, c, checks, s'.started), s.order);
  }

  lemma ResultsStepFinish(entries: seq<HostEntry>, c: Settings, checks: Checks, s: Pool, w: nat, s': Pool)
    requires TasksOk(s, |entries|) && ResultsOk(entries, c, checks, s) && Next(entries, c, checks, s, Finish(w), s')
    ensures ResultsOk(entries, c, checks, s')
  {
    hide CallOf, Collected, OutcomesOf;
  }

  lemma ResultsStep(entries: seq<HostEntry>, c: Settings, checks: Checks, s: Pool, step: Step, s': Pool)
    requires TasksOk(s, |entries|) && ResultsOk(entries, c, checks, s) && Next(entries, c, checks, s, step, s')
    ensures ResultsOk(entries, c, checks, s')
  {
    hide CallOf, Collected, OutcomesOf, OutcomeOf, TasksOk;
    match step {
      case Collect(k) => ResultsStepCollect(entries, c, checks, s, k, s');
      case ReadFlag(w) => ResultsStepStart(entries, c, checks, s, w, s');
      case Finish(w) => ResultsStepFinish(entries, c, checks, s, w, s');
      case PickUp(_) =>
      case SetShutdown =>
    }
  }

  lemma {:induction false} InvOfRun(entries: seq<HostEntry>, c: Settings, checks: Checks, threads: nat,
                                    states: seq<Pool>, steps: seq<Step>, i: nat)
    requires IsRun(entries, c, checks, threads, states, steps) && i <= |steps|
    ensures TasksOk(states[i], |entries|) && PrefixOk(states[i]) && ResultsOk(entries, c, checks, states[i])
    ensures |states[i].tasks| == threads
  {
    hide PrefixOk, ResultsOk, TasksOk, CallOf;
    if i == 0 {
      InvInit(entries, c, checks, threads, states[0]);
    } else {
      InvOfRun(entries, c, checks, threads, states, steps, i - 1);
      assert Next(entries, c, checks, states[i - 1], steps[i - 1], states[i]);
      TasksStep(entries, c, checks, states[i - 1], steps[i - 1], states[i]);
      PrefixStep(entries, c, checks, states[i - 1], steps[i - 1], states[i]);
      ResultsStep(entries, c, checks, states[i - 1], steps[i - 1], states[i]);
    }
  }

  lemma InvInit(entries: seq<HostEntry>, c: Settings, checks: Checks, threads: nat, s: Pool)
    requires Init(s, threads)
    ensures TasksOk(s, |entries|) && PrefixOk(s) && ResultsOk(entries, c, checks, s)
  {
  }

  // ---- the theorems ----

  /** Shutdown leaves nearly a prefix: below any host that has started, at most W - 1 have not,
      W being the number of pool threads, whatever the schedule and whenever shutdown is set. */
  lemma NearPrefix(entries: seq<HostEntry>, c: Settings, checks: Checks, threads: nat,
                   states: seq<Pool>, steps: seq<Step>, i: nat, k: nat)
    requires IsRun(entries, c, checks, threads, states, steps) && i <= |steps| && k in states[i].started
    ensures |Unstarted(states[i].started, k)| <= threads - 1
  {
    hide Next, Init, TasksOk, ResultsOk;
    InvOfRun(entries, c, checks, threads, states, steps, i);
  }

  /** Once shutdown is set no further check starts, in whatever state the pool's threads are, and
      shutdown stays set. */
  lemma {:induction false} NothingStartsAfterShutdown(entries: seq<HostEntry>, c: Settings, checks: Checks, threads: nat,
                                                      states: seq<Pool>, steps: seq<Step>, i: nat, j: nat)
    requires IsRun(entries, c, checks, threads, states, steps) && i <= j <= |steps| && states[i].shutdown
    ensures states[j].shutdown && states[j].started == states[i].started
  {
    hide CallOf, Init;
    if i < j {
      NothingStartsAfterShutdown(entries, c, checks, threads, states, steps, i, j - 1);
      assert Next(entries, c, checks, states[j - 1], steps[j - 1], states[j]);
    }
  }

  lemma ScheduleIsComplete(entries: seq<HostEntry>, c: Settings, checks: Checks, s: Pool)
    requires ResultsOk(entries, c, checks, s) && forall k: nat | k < |entries| :: k in s.order
    ensures IsSchedule(s.order, |entries|)
    ensures s.results == Collected(entries, OutcomesOf(entries, c, checks, s.started), s.order)
    ensures forall k: nat | k < |entries| :: k in s.started || k in s.skipped
  {
    hide OutcomesOf, OutcomeOf, Collected, CallOf;
    forall k: nat | k < |entries| ensures k in s.started || k in s.skipped {
      assert k in s.order;
    }
  }

  /** When all futures are collected, the list rebuilt is that of checking the started hosts one
      after another. */
  lemma PoolRefinesSequential(entries: seq<HostEntry>, c: Settings, checks: Checks, threads: nat,
                              states: seq<Pool>, steps: seq<Step>, i: nat)
    requires IsRun(entries, c, checks, threads, states, steps) && i <= |steps| && DistinctKeys(entries)
    requires forall k: nat | k < |entries| :: k in states[i].order
    ensures Rebuilt(entries, states[i].results) == Sequential(entries, OutcomesOf(entries, c, checks, states[i].started))
    ensures ReportsEach(Rebuilt(entries, states[i].results), entries, OutcomesOf(entries, c, checks, states[i].started))
    ensures forall k: nat | k < |entries| :: k in states[i].started || k in states[i].skipped
    ensures !states[i].shutdown ==> forall k: nat | k < |entries| :: k in states[i].started
  {
    hide Next, Init, TasksOk, ResultsOk, IsSchedule, Collected, Rebuilt, Sequential, DistinctKeys, ReportsAt, Pending, Unstarted;
    InvOfRun(entries, c, checks, threads, states, steps, i);
    ScheduleIsComplete(entries, c, checks, states[i]);
    var p := SequentialReportsEach(entries, OutcomesOf(entries, c, checks, states[i].started));
    ScheduleDoesNotMatter(entries, OutcomesOf(entries, c, checks, states[i].started), states[i].order);
  }
}
