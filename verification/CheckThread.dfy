/** `_run_one_cycle` and `CertCheckThread.run` (certwatch/check_thread.py) as imperative code
    over a clock, the shared events and what each cycle meets. Every flag read or set and
    every cycle is recorded as steps of `Runtime`, and the loop is proved to make a run of it. */
module CheckThread {
  import opened Wrappers
  import opened NetboxSync
  import opened ParallelChecks
  import opened HostResolution
  import opened Runtime
  import RuntimeSafety
  import opened Clock

  datatype ReportType = Startup | Scheduled

  /** How `submit_report_with_retry` ends: a status, a 401, or another exception. */
  datatype Submission = Settled | InterruptedByShutdown | Unauthorized | Failed

  /** What one round of the loop meets: shutdown set before it; the cycle's configuration and
      NetBox hosts, the outcomes of the checks, and the order their futures complete in;
      whether anything but the configuration makes the cycle raise before its list is built;
      how long the checks take and how long the submission takes, retries included; how it
      ends; the interval in the configuration then current (None: missing); and shutdown set
      before the wait is over. */
  datatype Round = Round(
    shutdown: bool,
    config: CheckConfig, netbox: seq<DiscoveredHost>,
    outcomes: Outcomes, order: seq<nat>,
    breaks: bool,
    checking: nat, submitting: nat,
    submission: Submission,
    interval: Option<nat>,
    woke: bool)

  ghost predicate RoundOk(r: Round) {
    |r.outcomes| == |r.config.manualHosts| + |r.netbox| && IsSchedule(r.order, |r.outcomes|)
  }

  /** The cycle gets as far as its submission. */
  predicate Builds(r: Round) {
    CycleRuns(r.config, r.netbox) && !r.breaks
  }

  /** How the cycle ends: its submission's end, or an exception before it. */
  function EndingOf(r: Round): Submission {
    if Builds(r) then r.submission else Failed
  }

  /** What the cycle reports. */
  function ChecksOf(r: Round): seq<CheckPayload>
    requires |r.outcomes| == |r.config.manualHosts| + |r.netbox| && Within(r.order, |r.outcomes|)
  {
    if Builds(r) then
      var entries := Entries(r.config.manualHosts, r.netbox);
      Rebuilt(entries, Collected(entries, r.outcomes, r.order))
    else []
  }

  /** A cycle as it was run; `checkedAt` is when its list was built, or it raised before that. */
  datatype Cycle = Cycle(
    reportType: ReportType, checks: seq<CheckPayload>,
    startedAt: int, checkedAt: int, endedAt: int,
    submission: Submission)

  /** What `StatsState.record_check_cycle` stores. */
  datatype Stats = Stats(hostsMonitored: nat, succeeded: nat, failed: nat, durationSeconds: int)

  // ---- one cycle ----

  /** The loop over `as_completed`. */
  method CollectResults(entries: seq<HostEntry>, outcomes: Outcomes, order: seq<nat>) returns (results: map<string, CheckResult>)
    requires |outcomes| == |entries| && Within(order, |entries|)
    ensures results == Collected(entries, outcomes, order)
  {
    results := map[];
    for i := 0 to |order|
      invariant results == Collected(entries, outcomes, order[..i])
    {
      assert order[..i + 1][..i] == order[..i];
      var k := order[i];
      match outcomes[k] {
        case Some(r) => results := results[entries[k].identityKey := r];
        case None =>
      }
    }
    assert order[..|order|] == order;
  }

  /** The loop over `to_check` that rebuilds the list in input order. */
  method RebuildChecks(entries: seq<HostEntry>, results: map<string, CheckResult>) returns (checks: seq<CheckPayload>)
    ensures checks == Rebuilt(entries, results)
  {
    checks := [];
    for i := 0 to |entries|
      invariant checks == Rebuilt(entries[..i], results)
    {
      assert entries[..i + 1][..i] == entries[..i];
      var e := entries[i];
      if e.identityKey in results {
        checks := checks + [BuildPayload(e, results[e.identityKey])];
      }
    }
    assert entries[..|entries|] == entries;
  }

  /** The conversions between the loops of `_run_one_cycle`: thresholds always, timeouts and pool
      size only if there is a host; false when one raises. */
  method ReadSettings(c: CheckConfig, hosts: nat) returns (ok: bool)
    ensures ok <==> ThresholdsOk(c) && (hosts > 0 ==> CycleReadsTimeouts(c.timeouts) && PoolOk(c.concurrency))
  {
    for i := 0 to |c.alertThresholds|
      invariant None !in c.alertThresholds[..i]
    {
      if c.alertThresholds[i] == None {
        return false;
      }
    }
    assert c.alertThresholds[..|c.alertThresholds|] == c.alertThresholds;
    if hosts > 0 {
      if !CycleReadsTimeouts(c.timeouts) {
        return false;
      }
      return PoolOk(c.concurrency);
    }
    return true;
  }

  /** `_run_one_cycle` up to the submission; None when it raises. Whatever order the checks finish
      in, the report lists what checking the hosts one after another would, if identity keys
      are distinct. */
  method RunChecks(r: Round) returns (checks: Option<seq<CheckPayload>>)
    requires RoundOk(r)
    ensures checks == if Builds(r) then Some(ChecksOf(r)) else None
    ensures checks.Some? && DistinctKeys(Entries(r.config.manualHosts, r.netbox)) ==>
      && checks.value == Sequential(Entries(r.config.manualHosts, r.netbox), r.outcomes)
      && ReportsEach(checks.value, Entries(r.config.manualHosts, r.netbox), r.outcomes)
  {
    hide Rebuilt, Collected, Sequential, DistinctKeys, ManualEntry, NetboxEntry, ReportsAt;
    var toCheck := BuildToCheck(r.config.manualHosts, r.netbox);
    if toCheck.None? {
      return None;
    }
    var entries := toCheck.value;
    var ok := ReadSettings(r.config, |entries|);
    if !ok || r.breaks {
      return None;
    }
    var results := CollectResults(entries, r.outcomes, r.order);
    var rebuilt := RebuildChecks(entries, results);
    if DistinctKeys(entries) {
      ScheduleDoesNotMatter(entries, r.outcomes, r.order);
      ghost var p := SequentialReportsEach(entries, r.outcomes);
    }
    return Some(rebuilt);
  }

  ghost function SuccessesAt(checks: seq<CheckPayload>): set<nat> {
    set i: nat | i < |checks| && checks[i].result.status == "success"
  }

  lemma {:induction false} SuccessesCount(checks: seq<CheckPayload>)
    ensures Successes(checks) == |SuccessesAt(checks)|
  {
    if checks != [] {
      var n := |checks| - 1;
      SuccessesCount(checks[..n]);
      assert SuccessesAt(checks) ==
        SuccessesAt(checks[..n]) + (if checks[n].result.status == "success" then {n} else {});
    }
  }

  function Successes(checks: seq<CheckPayload>): (n: nat)
    ensures n <= |checks|
  {
    if checks == [] then 0
    else Successes(checks[..|checks| - 1]) + (if checks[|checks| - 1].result.status == "success" then 1 else 0)
  }

  /** The two sums of the statistics; they account for every check reported. */
  method CountStatuses(checks: seq<CheckPayload>) returns (succeeded: nat, failed: nat)
    ensures succeeded == Successes(checks) && succeeded + failed == |checks|
    ensures succeeded == |SuccessesAt(checks)|
  {
    SuccessesCount(checks);
    succeeded, failed := 0, 0;
    for i := 0 to |checks|
      invariant succeeded == Successes(checks[..i]) && succeeded + failed == i
    {
      assert checks[..i + 1][..i] == checks[..i];
      if checks[i].result.status == "success" {
        succeeded := succeeded + 1;
      } else {
        failed := failed + 1;
      }
    }
    assert checks[..|checks|] == checks;
  }

  // ---- the specification of the loop ----

  /** The type of the i-th report depends only on whether an earlier one was settled: delivered, or
      refused for good. */
  ghost predicate TypesOk(log: seq<Cycle>) {
    forall i | 0 <= i < |log| ::
      log[i].reportType == (if exists j :: 0 <= j < i && log[j].submission.Settled? then Scheduled else Startup)
  }

  /** Each cycle starts when the interval read at the end of the one before is over. */
  ghost predicate CadenceOk(log: seq<Cycle>, rounds: seq<Round>) {
    && |log| <= |rounds|
    && forall i | 0 <= i < |log| - 1 ::
         rounds[i].interval.Some? && log[i + 1].startedAt == log[i].endedAt + rounds[i].interval.value
  }

  /** The cycle reports its round's hosts, ends as the round says, and takes its time. */
  ghost predicate CycleOf(r: Round, c: Cycle) {
    && RoundOk(r)
    && c.submission == EndingOf(r)
    && c.checkedAt == c.startedAt + r.checking
    && c.endedAt == c.checkedAt + (if Builds(r) then r.submitting else 0)
    && c.checks == ChecksOf(r)
  }

  /** What that means: if nothing raised before the list was built, every host with a result is in
      it once and as itself, and the submission ends as given; otherwise nothing is reported. */
  ghost predicate ReportsRound(r: Round, c: Cycle) {
    if CycleRuns(r.config, r.netbox) && !r.breaks then
      && c.submission == r.submission
      && c.endedAt == c.startedAt + r.checking + r.submitting
      && (|r.outcomes| == |r.config.manualHosts| + |r.netbox|
          && DistinctKeys(Entries(r.config.manualHosts, r.netbox)) ==>
            ReportsEach(c.checks, Entries(r.config.manualHosts, r.netbox), r.outcomes))
    else c.submission == Failed && c.checks == [] && c.endedAt == c.startedAt + r.checking
  }

  lemma CycleReportsRound(r: Round, c: Cycle)
    requires CycleOf(r, c)
    ensures ReportsRound(r, c)
  {
    hide Rebuilt, Collected, Sequential, DistinctKeys, ManualEntry, NetboxEntry, ReportsAt;
    if Builds(r) {
      var entries := Entries(r.config.manualHosts, r.netbox);
      if DistinctKeys(entries) {
        ScheduleDoesNotMatter(entries, r.outcomes, r.order);
        var p := SequentialReportsEach(entries, r.outcomes);
      }
    }
  }

  ghost predicate CyclesOk(log: seq<Cycle>, rounds: seq<Round>) {
    |log| <= |rounds| && forall i | 0 <= i < |log| :: CycleOf(rounds[i], log[i])
  }

  /** The last cycle made ended the loop: by a 401, because its interval was missing, or because
      shutdown was set during the wait. */
  ghost predicate LastEnds(log: seq<Cycle>, rounds: seq<Round>)
    requires |log| <= |rounds|
  {
    log != [] && (log[|log| - 1].submission == Unauthorized || rounds[|log| - 1].interval.None? || rounds[|log| - 1].woke)
  }

  /** The statistics are those of the last cycle whose submission raised nothing. The duration
      is that of its checks: the submission and its retries are not in it. */
  ghost predicate StatsOk(log: seq<Cycle>, stats: Option<Stats>) {
    match stats
    case None => forall i | 0 <= i < |log| :: log[i].submission.Unauthorized? || log[i].submission.Failed?
    case Some(st) =>
      exists i | 0 <= i < |log| ::
        && (log[i].submission.Settled? || log[i].submission.InterruptedByShutdown?)
        && (forall j | i < j < |log| :: log[j].submission.Unauthorized? || log[j].submission.Failed?)
        && st.hostsMonitored == |log[i].checks| && st.succeeded == Successes(log[i].checks)
        && st.succeeded + st.failed == st.hostsMonitored
        && st.durationSeconds == log[i].checkedAt - log[i].startedAt
  }

  /** What a cycle makes of the statistics. */
  ghost predicate StatsAfter(c: Cycle, stats: Option<Stats>, stats': Option<Stats>) {
    if c.submission.Unauthorized? || c.submission.Failed? then stats' == stats
    else
      && stats'.Some? && stats'.value.hostsMonitored == |c.checks| && stats'.value.succeeded == Successes(c.checks)
      && stats'.value.succeeded + stats'.value.failed == |c.checks|
      && stats'.value.durationSeconds == c.checkedAt - c.startedAt
  }

  lemma TypesStep(log: seq<Cycle>, c: Cycle, isFirst: bool)
    requires TypesOk(log) && c.reportType == (if isFirst then Startup else Scheduled)
    requires isFirst <==> !exists j :: 0 <= j < |log| && log[j].submission.Settled?
    ensures TypesOk(log + [c])
    ensures isFirst && !c.submission.Settled? <==> !exists j :: 0 <= j < |log| + 1 && (log + [c])[j].submission.Settled?
  {
    var log' := log + [c];
    forall i | 0 <= i < |log'|
      ensures log'[i].reportType == (if exists j :: 0 <= j < i && log'[j].submission.Settled? then Scheduled else Startup)
    {
      assert forall j | 0 <= j < i :: log'[j] == log[j];
    }
    if c.submission.Settled? {
      assert log'[|log|].submission.Settled?;
    }
    if j :| 0 <= j < |log| && log[j].submission.Settled? {
      assert log'[j].submission.Settled?;
    }
  }

  /** One more cycle. */
  lemma LogStep(log: seq<Cycle>, c: Cycle, rounds: seq<Round>)
    requires |log| < |rounds| && CycleOf(rounds[|log|], c)
    requires CadenceOk(log, rounds) && CyclesOk(log, rounds)
    requires log != [] ==>
      rounds[|log| - 1].interval.Some? && c.startedAt == log[|log| - 1].endedAt + rounds[|log| - 1].interval.value
    ensures CadenceOk(log + [c], rounds) && CyclesOk(log + [c], rounds)
    ensures c.submission == EndingOf(rounds[|log|])
  {
    hide RoundOk, ChecksOf, EndingOf, Builds;
  }

  /** Everything that is promised of the log and the statistics. */
  ghost predicate LogOk(log: seq<Cycle>, rounds: seq<Round>, stats: Option<Stats>) {
    TypesOk(log) && CadenceOk(log, rounds) && CyclesOk(log, rounds) && StatsOk(log, stats)
  }

  lemma LogStart(rounds: seq<Round>)
    ensures LogOk([], rounds, None) && RoundsMade([], rounds)
  {
  }

  /** No cycle so far has settled. */
  ghost predicate NoneFlipped(log: seq<Cycle>) {
    !exists j :: 0 <= j < |log| && log[j].submission.Settled?
  }

  lemma NoneYet()
    ensures NoneFlipped([])
  {
  }

  lemma RoundStep(log: seq<Cycle>, c: Cycle, rounds: seq<Round>, isFirst: bool, stats: Option<Stats>, stats': Option<Stats>)
    requires LogOk(log, rounds, stats) && (isFirst <==> NoneFlipped(log))
    requires |log| < |rounds| && CycleOf(rounds[|log|], c) && c.reportType == (if isFirst then Startup else Scheduled)
    requires log != [] ==>
      rounds[|log| - 1].interval.Some? && c.startedAt == log[|log| - 1].endedAt + rounds[|log| - 1].interval.value
    requires StatsAfter(c, stats, stats')
    ensures LogOk(log + [c], rounds, stats') && c.submission == EndingOf(rounds[|log|])
    ensures isFirst && !c.submission.Settled? <==> NoneFlipped(log + [c])
  {
    hide TypesOk, CadenceOk, CyclesOk, StatsOk, CycleOf, StatsAfter;
    TypesStep(log, c, isFirst);
    LogStep(log, c, rounds);
    StatsStep(log, c, stats, stats');
  }

  lemma StatsStep(log: seq<Cycle>, c: Cycle, stats: Option<Stats>, stats': Option<Stats>)
    requires StatsOk(log, stats) && StatsAfter(c, stats, stats')
    ensures StatsOk(log + [c], stats')
  {
    hide Successes;
    var log' := log + [c];
    assert log'[|log|] == c;
    if stats.Some? && stats' == stats && (c.submission.Unauthorized? || c.submission.Failed?) {
      var i :| 0 <= i < |log|
        && (log[i].submission.Settled? || log[i].submission.InterruptedByShutdown?)
        && (forall j | i < j < |log| :: log[j].submission.Unauthorized? || log[j].submission.Failed?)
        && stats.value.hostsMonitored == |log[i].checks| && stats.value.succeeded == Successes(log[i].checks)
        && stats.value.succeeded + stats.value.failed == stats.value.hostsMonitored
        && stats.value.durationSeconds == log[i].checkedAt - log[i].startedAt;
      assert log'[i] == log[i];
    }
  }

  /** Every cycle made is of a round met without shutdown, every round but the last goes on, and
      each cycle reports its round. */
  ghost predicate RoundsMade(log: seq<Cycle>, rounds: seq<Round>) {
    && |log| <= |rounds|
    && (forall i | 0 <= i < |log| :: !rounds[i].shutdown && ReportsRound(rounds[i], log[i]))
    && forall i | 0 <= i < |log| - 1 :: !rounds[i].woke && rounds[i].interval.Some? && log[i].submission != Unauthorized
  }

  lemma RoundsMadeStep(log: seq<Cycle>, c: Cycle, rounds: seq<Round>)
    requires RoundsMade(log, rounds) && |log| < |rounds| && CycleOf(rounds[|log|], c) && !rounds[|log|].shutdown
    requires !LastEnds(log, rounds)
    ensures RoundsMade(log + [c], rounds)
  {
    hide ReportsRound, CycleOf;
    CycleReportsRound(rounds[|log|], c);
  }

  class CertCheckThread {
    var log: seq<Cycle>
    var stats: Option<Stats>
    var shutdown: bool            // the events are shared with the other threads
    var auth: bool
    ghost var workerCount: nat
    ghost var states: seq<State>
    ghost var steps: seq<Step>

    ghost function World(): State
      requires |states| > 0
      reads this`states
    {
      states[|states| - 1]
    }

    /** The recorded history is a run of the machine and ends in the actual events. */
    ghost predicate Valid()
      reads this
    {
      && |states| > 0 && IsRun(states, steps, workerCount)
      && World().flags.shutdown == shutdown && World().flags.auth == auth
    }

    /** A thread that the first-sync gate has let through, in whatever state the others are. */
    constructor (shutdown: bool, auth: bool, ghost workerCount: nat, ghost states: seq<State>, ghost steps: seq<Step>)
      requires |states| > 0 && IsRun(states, steps, workerCount)
      requires var s := states[|states| - 1]; s.check.CkTop? && s.flags.shutdown == shutdown && s.flags.auth == auth
      ensures Valid() && log == [] && stats == None
      ensures this.shutdown == shutdown && this.auth == auth && this.states == states && this.steps == steps
    {
      log, stats, this.shutdown, this.auth := [], None, shutdown, auth;
      this.workerCount, this.states, this.steps := workerCount, states, steps;
    }

    ghost method Record(step: Step, s': State)
      requires |states| > 0 && IsRun(states, steps, workerCount) && Next(World(), step, s')
      modifies this`states, this`steps
      ensures |states| > 0 && IsRun(states, steps, workerCount) && World() == s'
      ensures states == old(states) + [s'] && steps == old(steps) + [step]
    {
      hide Next, Init;
      states := states + [s'];
      steps := steps + [step];
    }

    /** Another thread or a signal sets the shutdown event. */
    method OthersShutDown()
      requires Valid()
      modifies this`shutdown, this`states, this`steps
      ensures Valid() && old(states) <= states && shutdown && World().check == old(World()).check
    {
      hide IsRun;
      ghost var s := World();
      shutdown := true;
      Record(Signal, s.(flags := Shut(s.flags, BySignal)));
    }

    /** The two `set` calls after an auth error, in their order. */
    method Escalate()
      requires Valid() && World().check.CkAuthSeen?
      modifies this`auth, this`shutdown, this`states, this`steps
      ensures Valid() && old(states) <= states && auth && shutdown && World().check.CkDone?
    {
      hide IsRun;
      ghost var s := World();
      auth := true;
      ghost var s1 := s.(check := CkAuthSet, flags := s.flags.(auth := true));
      Record(Check(CkSetAuth), s1);
      shutdown := true;
      Record(Check(CkSetShutdown), s1.(check := CkDone, flags := Shut(s1.flags, ByAuth)));
    }

    /** The interval is read outside the inner `try`: a missing one reaches the catch-all. */
    method Crash()
      requires Valid() && World().check.CkWaiting?
      modifies this`shutdown, this`states, this`steps
      ensures Valid() && old(states) <= states && shutdown && World().check.CkDone?
    {
      hide IsRun;
      ghost var s := World();
      Record(Check(CkRaise), s.(check := CkCrashed));
      shutdown := true;
      Record(Check(CkSetShutdown), s.(check := CkDone, flags := Shut(s.flags, ByCrash)));
    }

    /** The head of the loop. */
    method BeginRound(othersShutDown: bool) returns (goesOn: bool)
      requires Valid() && World().check.CkTop?
      modifies this`shutdown, this`states, this`steps
      ensures Valid() && old(states) <= states
      ensures shutdown == (old(shutdown) || othersShutDown) && goesOn == !shutdown
      ensures World().check == (if goesOn then CkStarting else CkDone)
    {
      hide IsRun;
      if othersShutDown {
        OthersShutDown();
      }
      ghost var s := World();
      Record(Check(CkLoop), s.(check := if shutdown then CkDone else CkStarting));
      goesOn := !shutdown;
    }

    ghost method Snapshot()
      requires Valid() && World().check.CkStarting?
      modifies this`states, this`steps
      ensures Valid() && old(states) <= states && World().check.CkRunning?
      ensures World().gate.firstView.Some?
    {
      hide IsRun;
      var s := World();
      Record(Check(CkSnapshot), s.(check := CkRunning,
        gate := if s.gate.firstView.None? then s.gate.(firstView := Some(s.inventory.local)) else s.gate));
    }

    ghost method EndCycle(unauthorized: bool)
      requires Valid() && World().check.CkRunning?
      modifies this`states, this`steps
      ensures Valid() && old(states) <= states && World().gate == old(World()).gate
      ensures World().check == (if unauthorized then CkAuthSeen else CkWaiting)
    {
      hide IsRun;
      var s := World();
      if unauthorized {
        Record(Check(CkAuthError), s.(check := CkAuthSeen, flags := s.flags.(authSeen := true)));
      } else {
        Record(Check(CkCycleEnds), s.(check := CkWaiting));
      }
    }

    /** One pass of the `try` block: the cycle, its submission and the statistics. */
    method RunCycle(r: Round, isFirst: bool, clock: FakeClock) returns (settled: bool)
      requires Valid() && World().check.CkStarting? && RoundOk(r)
      modifies this`log, this`stats, this`states, this`steps, clock
      ensures Valid() && old(states) <= states
      ensures World().check == (if EndingOf(r).Unauthorized? then CkAuthSeen else CkWaiting)
      ensures |log| == |old(log)| + 1 && log == old(log) + [log[|old(log)|]]
      ensures log[|old(log)|].reportType == (if isFirst then Startup else Scheduled)
      ensures CycleOf(r, log[|old(log)|]) && StatsAfter(log[|old(log)|], old(stats), stats)
      ensures settled == log[|old(log)|].submission.Settled?
      ensures log[|old(log)|].startedAt == old(clock.t) && log[|old(log)|].endedAt == clock.t
      ensures clock.sleeps == old(clock.sleeps)
    {
      hide ChecksOf, Entries, Sequential, ReportsEach, SuccessesAt, DistinctKeys, RoundOk, Builds, Successes, IsRun;
      Snapshot();
      var start := clock.t;
      var built := RunChecks(r);
      var checks := if built.Some? then built.value else [];
      if built.None? {
        NothingBuilt(r);
      }
      clock.Advance(r.checking);
      var checkedAt := clock.t;
      var end := Failed;
      if built.Some? {
        clock.Advance(r.submitting);
        end := r.submission;
      }
      log := log + [Cycle(if isFirst then Startup else Scheduled, checks, start, checkedAt, clock.t, end)];
      if end.Settled? || end.InterruptedByShutdown? {
        var succeeded, failed := CountStatuses(checks);
        stats := Some(Stats(|checks|, succeeded, failed, checkedAt - start));
      }
      EndCycle(end.Unauthorized?);
      settled := end.Settled?;
    }

    lemma NothingBuilt(r: Round)
      requires RoundOk(r) && !Builds(r)
      ensures ChecksOf(r) == []
    {
    }

    /** The end of a round: the escalation of an auth error, or the wait for the next cycle by
        the configuration current now. */
    method Conclude(r: Round, clock: FakeClock) returns (goesOn: bool)
      requires Valid() && World().check == (if EndingOf(r).Unauthorized? then CkAuthSeen else CkWaiting)
      modifies this`shutdown, this`auth, this`states, this`steps, clock
      ensures Valid() && old(states) <= states
      ensures goesOn <==> !EndingOf(r).Unauthorized? && r.interval.Some? && !r.woke
      ensures goesOn ==> clock.t == old(clock.t) + r.interval.value
      ensures auth == (old(auth) || EndingOf(r).Unauthorized?)
      ensures shutdown == (old(shutdown) || !goesOn)
      ensures World().check == (if goesOn then CkTop else CkDone)
      ensures clock.sleeps ==
        old(clock.sleeps) + (if !EndingOf(r).Unauthorized? && r.interval.Some? then [r.interval.value] else [])
    {
      hide IsRun, EndingOf;
      if EndingOf(r).Unauthorized? {
        Escalate();
        return false;
      }
      if r.interval.None? {
        Crash();
        return false;
      }
      var woke := clock.WaitFor(r.interval.value, r.woke);
      if woke {
        OthersShutDown();
        Record(Check(CkWoken), World().(check := CkDone));
      } else {
        Record(Check(CkTimeout), World().(check := CkTop));
      }
      return !woke;
    }

    /** One round of the loop; `ran` unless shutdown is found at its head. */
    method OneRound(r: Round, isFirst: bool, clock: FakeClock) returns (ran: bool, settled: bool, goesOn: bool)
      requires Valid() && World().check.CkTop? && RoundOk(r)
      modifies this, clock
      ensures Valid() && old(states) <= states
      ensures World().check == (if goesOn then CkTop else CkDone) && (!goesOn ==> shutdown)
      ensures ran == !(old(shutdown) || r.shutdown)
      ensures !ran ==> !goesOn && log == old(log) && stats == old(stats) && auth == old(auth)
      ensures ran ==>
        && |log| == |old(log)| + 1 && log == old(log) + [log[|old(log)|]]
        && var c := log[|old(log)|];
           && CycleOf(r, c) && StatsAfter(c, old(stats), stats)
           && c.reportType == (if isFirst then Startup else Scheduled) && settled == c.submission.Settled?
           && c.startedAt == old(clock.t)
           && goesOn == (c.submission != Unauthorized && r.interval.Some? && !r.woke)
           && auth == (old(auth) || c.submission == Unauthorized)
           && (goesOn ==> !shutdown && clock.t == c.endedAt + r.interval.value)
    {
      hide RoundOk, StatsAfter, IsRun, Builds, ChecksOf;
      settled, goesOn := false, false;
      ran := BeginRound(r.shutdown);
      if ran {
        settled := RunCycle(r, isFirst, clock);
        goesOn := Conclude(r, clock);
      }
    }

    /** `run` after the first-sync gate, for as many rounds as are given. Its steps are a run of
        the machine. It stops only for shutdown set elsewhere, a 401, a missing interval or a
        wait that is woken, and sets the events for no other reason. */
    method Run(rounds: seq<Round>, clock: FakeClock)
      requires Valid() && World().check.CkTop? && log == [] && stats == None
      requires forall i | 0 <= i < |rounds| :: RoundOk(rounds[i])
      modifies this, clock
      ensures Valid() && old(states) <= states
      ensures LogOk(log, rounds, stats)
      ensures RoundsMade(log, rounds)
      ensures log != [] ==> log[0].startedAt == old(clock.t)
      ensures |log| < |rounds| ==> (log == [] && old(shutdown)) || rounds[|log|].shutdown || LastEnds(log, rounds)
      ensures shutdown <==> old(shutdown) || (|log| < |rounds| && rounds[|log|].shutdown) || LastEnds(log, rounds)
      ensures World().check == if |log| == |rounds| && !LastEnds(log, rounds) then CkTop else CkDone
      ensures auth <==> old(auth) || (log != [] && log[|log| - 1].submission.Unauthorized?)
    {
      hide RoundsMade, RoundOk, CycleOf, StatsAfter, LogOk, EndingOf, NoneFlipped, IsRun;
      LogStart(rounds);
      NoneYet();
      var isFirst := true;
      var n := 0;
      while n < |rounds|
        invariant n <= |rounds| && |log| == n
        invariant Valid() && old(states) <= states && World().check.CkTop?
        invariant (isFirst <==> NoneFlipped(log)) && LogOk(log, rounds, stats)
        invariant log != [] ==> log[0].startedAt == old(clock.t)
        invariant log == [] ==> clock.t == old(clock.t)
        invariant log != [] ==> rounds[n - 1].interval.Some? && clock.t == log[n - 1].endedAt + rounds[n - 1].interval.value
        invariant RoundsMade(log, rounds) && !LastEnds(log, rounds)
        invariant auth == old(auth) && shutdown == old(shutdown) && (n > 0 ==> !shutdown)
      {
        ghost var log0, stats0 := log, stats;
        var ran, settled, goesOn := OneRound(rounds[n], isFirst, clock);
        if !ran {
          return;
        }
        RoundStep(log0, log[n], rounds, isFirst, stats0, stats);
        RoundsMadeStep(log0, log[n], rounds);
        isFirst := isFirst && !settled;
        n := n + 1;
        if !goesOn {
          return;
        }
      }
    }
  }

  /** The theorems about the machine hold of the thread's own events: the first cycle came after
      the first-sync event or after thirty seconds; the auth event without shutdown means some
      thread stands between its two `set` calls; and a runner whose joins all succeeded has
      returned 2 exactly if an auth error was met. */
  lemma CheckThreadInherits(t: CertCheckThread)
    requires t.Valid() && RuntimeSafety.PastGate(t.World().check)
    ensures t.World().gate.event || t.World().time >= t.World().gate.since + 30
    ensures t.auth && !t.shutdown ==> RuntimeSafety.SomeAuthSet(t.World())
    ensures t.World().main.MExit? && t.World().main.late == {} ==>
      (t.World().main.code == 2 <==> t.World().flags.authSeen)
  {
    hide Next, Init, RuntimeSafety.SomeAuthSet;
    RuntimeSafety.FirstCycleGated(t.states, t.steps, t.workerCount, |t.steps|);
    RuntimeSafety.AuthWindow(t.states, t.steps, t.workerCount, |t.steps|);
    if t.World().main.MExit? {
      RuntimeSafety.ExitCode(t.states, t.steps, t.workerCount, |t.steps|);
    }
  }

  /** In every run the reports are of type startup up to and including the first that settles,
      and scheduled from then on. */
  lemma StartupThenScheduled(log: seq<Cycle>) returns (k: nat)
    requires TypesOk(log)
    ensures k <= |log|
    ensures forall i | 0 <= i < k :: log[i].reportType == Startup
    ensures forall i | k <= i < |log| :: log[i].reportType == Scheduled
    ensures forall i | 0 <= i < k - 1 :: !log[i].submission.Settled?
    ensures k < |log| ==> k > 0 && log[k - 1].submission.Settled?
  {
    k := 0;
    while k < |log| && !(k > 0 && log[k - 1].submission.Settled?)
      invariant k <= |log| && forall j | 0 <= j < k - 1 :: !log[j].submission.Settled?
    {
      k := k + 1;
    }
    if k > 0 && log[k - 1].submission.Settled? {
      forall i | k <= i < |log| ensures log[i].reportType == Scheduled {
        assert 0 <= k - 1 < i && log[k - 1].submission.Settled?;
      }
    }
  }

  /** No cycle starts earlier than the end of any earlier one plus the interval read there. */
  lemma {:induction false} NoCatchUp(log: seq<Cycle>, rounds: seq<Round>, i: nat, j: nat)
    requires CadenceOk(log, rounds) && CyclesOk(log, rounds) && i < j < |log|
    ensures rounds[i].interval.Some? && log[j].startedAt >= log[i].endedAt + rounds[i].interval.value
  {
    hide RoundOk, ChecksOf, EndingOf, Builds;
    if i + 1 < j {
      NoCatchUp(log, rounds, i, j - 1);
      assert log[j - 1 + 1].startedAt == log[j - 1].endedAt + rounds[j - 1].interval.value;
    }
  }
}
