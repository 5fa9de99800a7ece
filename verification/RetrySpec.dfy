/** What the retry loop of certwatch/report_submission.py computes, as functions and relations
    over the rounds it makes; `ReportSubmission` proves the loop against them. */
module RetrySpec {
  import opened Wrappers
  import opened JsonValues
  import opened Files
  import opened PendingReports
  import opened Delivery
  import Backoff

  /** How the dashboard treats a request that arrives: the normal path accepts an id once
      and answers 409 from then on. */
  datatype Policy = Admit | Refuse400 | Refuse413

  /** What becomes of one `submit_report` call. */
  datatype Fate =
    | Arrives(policy: Policy, heard: bool)   // processed; the answer is heard, or lost
    | Vanishes                               // lost request, timeout, 429 or 5xx
    | AuthRejected                           // 401
    | Fails                                  // 404, another status, or a garbled 2xx

  /** One round of the retry loop: where the write of the counter fails, if it does; the call's
      fate; whether the unlink after a final answer raises; whether shutdown ends the wait. */
  datatype Attempt = Attempt(fault: Fault, fate: Fate, stuck: bool, woke: bool)

  datatype Status =
    | Delivered | DuplicateReport | RejectedReport
    | ShutDown
    | Raised(auth: bool)
    | Retrying      // the rounds given are used up and the loop goes on

  predicate Finished(status: Status) {
    status.Delivered? || status.DuplicateReport? || status.RejectedReport?
  }

  /** The round leads to a retriable error and the loop goes round again. */
  predicate Retried(a: Attempt) {
    a.fault.NoFault? && !a.woke && (a.fate.Vanishes? || (a.fate.Arrives? && !a.fate.heard))
  }

  /** The dashboard accepts this id in one of the rounds, if it had not before. */
  predicate Admitted(rounds: seq<Attempt>) {
    exists j | 0 <= j < |rounds| ::
      rounds[j].fault.NoFault? && rounds[j].fate.Arrives? && rounds[j].fate.policy.Admit?
  }

  /** What the loop returns from its last round; `sighted` when the dashboard already had
      the id at that round. */
  function StatusOf(a: Attempt, sighted: bool): Status {
    if !a.fault.NoFault? then Raised(false) else
    match a.fate
    case Arrives(policy, heard) =>
      if heard then
        if a.stuck then Raised(false)
        else if policy.Admit? then (if sighted then DuplicateReport else Delivered) else RejectedReport
      else if a.woke then ShutDown else Retrying
    case Vanishes => if a.woke then ShutDown else Retrying
    case AuthRejected => Raised(true)
    case Fails => Raised(false)
  }

  /** The record in the file `name`, if the file parses and its counter is an integer. */
  function Countable(d: Directory, name: Name): Option<Object> {
    if name in d then
      match Load(d[name].content)
      case None => None
      case Some(m) => if Attempts(m).Some? then Some(m) else None
    else None
  }

  lemma CountableHasCounter(d: Directory, name: Name)
    ensures Countable(d, name).Some? ==> Attempts(Countable(d, name).value).Some?
  {
  }

  /** The state after the submitter `name` has ended on an exception or on shutdown. */
  ghost function Aborted(s: State, name: Name, exits: bool): (s': State)
    requires name in s.procs
    ensures Aborts(s, name, exits, s') && SameDisk(s, s') && SameWorld(s, s')
  {
    if s.phase.Replaying? then s.(procs := map[], phase := if exits then Down else Running)
    else s.(procs := s.procs - {name})
  }

  /** The directory once `record` has been written atomically to `name` at time t. */
  function Rewritten(d: Directory, name: Name, record: Object, t: nat): Directory {
    (d - {TmpName(name)})[name := File(Whole(Obj(record)), t)]
  }

  /** The directory after a write of `record` begun at time t, wherever it failed. */
  function WrittenUpTo(d: Directory, name: Name, record: Object, t: nat, fault: Fault): Directory {
    match fault
    case OnOpen => d
    case OnWrite(_) => d - {TmpName(name)}
    case OnReplace => Fill(d, name, Obj(record), t + 2)
    case _ => Rewritten(d, name, record, t + 2)
  }

  function TicksOf(fault: Fault): nat {
    if fault.OnOpen? then 0 else 2
  }

  /** The dashboard's answer to a request that arrives. */
  function AnswerTo(seen: set<Json>, body: Object, policy: Policy): Answer {
    match policy
    case Admit => if ReportId(body) in seen then Duplicate else Accepted
    case Refuse400 => Invalid
    case Refuse413 => TooLarge
  }

  /** What one call adds to the dashboard's memory. */
  ghost predicate Received(r: Remote, r': Remote, body: Object, fate: Fate) {
    if fate.Arrives? && fate.policy.Admit? && ReportId(body) !in r.seen then
      r'.seen == r.seen + {ReportId(body)} && r'.accepted == r.accepted + [body]
    else
      r'.seen == r.seen && r'.accepted == r.accepted
  }

  /** No report is begun or first saved in between. */
  ghost predicate SameReports(h: History, h': History) {
    h'.origin == h.origin && h'.saved == h.saved
  }

  /** The counter in the file `name`, where it has one. */
  function CountIn(d: Directory, name: Name): int {
    match Countable(d, name)
    case Some(m) => if Attempts(m).Some? then Attempts(m).value else 0
    case None => 0
  }

  /** The directory after a round whose bump is written at time t: the file is gone after a
      final answer and holds the bumped record otherwise. */
  function AfterRound(d: Directory, name: Name, t: nat, gone: bool): Directory {
    match Countable(d, name)
    case Some(m) =>
      if Attempts(m).None? then d
      else if gone then d - {TmpName(name), name} else Rewritten(d, name, Bump(m), t)
    case None => d
  }

  /** Where the submitter `name` stands once the loop has returned `status`. */
  ghost predicate Left(s: State, name: Name, wire: Object, status: Status, s': State) {
    && name in s.procs
    && match status
       case Retrying => s'.procs == s.procs[name := Proc(wire, Loading)] && s'.phase == s.phase
       case ShutDown => Aborts(s, name, true, s')
       case Raised(auth) => Aborts(s, name, auth, s')
       case _ => s'.procs == s.procs - {name} && s'.phase == s.phase
  }

  /** The directory after n rounds, the last bump written at time t. */
  function AfterRounds(d: Directory, name: Name, n: nat, t: nat, gone: bool): Directory {
    match Countable(d, name)
    case Some(m) =>
      if n == 0 || Attempts(m).None? then d
      else if gone then d - {TmpName(name), name} else Rewritten(d, name, Bumps(m, n), t)
    case None => d
  }

  lemma AfterRoundsStep(d: Directory, name: Name, n: nat, t: nat, t': nat)
    ensures n == 0 ==> AfterRounds(d, name, n, t, false) == d
    ensures n > 0 && Countable(d, name).Some? ==> Countable(AfterRounds(d, name, n, t, false), name).Some?
    ensures Countable(d, name).Some? ==> CountIn(AfterRounds(d, name, n, t, false), name) == CountIn(d, name) + n
    ensures AfterRound(AfterRounds(d, name, n, t, false), name, t', false) == AfterRounds(d, name, n + 1, t', false)
    ensures AfterRound(AfterRounds(d, name, n, t, false), name, t', true) == AfterRounds(d, name, n + 1, t', true)
    ensures Countable(d, name).None? ==>
      AfterRounds(d, name, n, t, false) == d && AfterRounds(d, name, n + 1, t', false) == d && AfterRounds(d, name, n, t', false) == d
  {
    if Countable(d, name).Some? {
      var m := Countable(d, name).value;
      assert Bumps(m, n + 1) == Bump(Bumps(m, n));
      if n > 0 {
        assert Countable(Rewritten(d, name, Bumps(m, n), t), name) == Some(Bumps(m, n));
      }
    }
  }

  /** The directory after n rounds, the last bump written at time t, and the write after them
      that failed before its rename, if one did. */
  function AfterLoop(d: Directory, name: Name, n: nat, t: nat, gone: bool, broken: Fault): Directory {
    match Countable(d, name)
    case Some(m) =>
      if Renamed(broken) || Attempts(m).None? then AfterRounds(d, name, n, t, gone)
      else WrittenUpTo(AfterRounds(d, name, n, t, false), name, Bumps(m, n + 1), t, broken)
    case None => d
  }

  /** What n rounds and a failed write after them take on the write clock. */
  function LoopTicks(n: nat, broken: Fault): nat {
    2 * n + (if Renamed(broken) then 0 else TicksOf(broken))
  }

  lemma AfterLoopStep(d: Directory, name: Name, n: nat, t: nat, broken: Fault)
    requires Countable(d, name).Some? && !Renamed(broken)
    ensures AfterLoop(AfterRounds(d, name, n, t, false), name, 0, t, false, broken) == AfterLoop(d, name, n, t, false, broken)
  {
    hide WrittenUpTo, Attempts, Countable;
    CountableHasCounter(d, name);
    var m := Countable(d, name).value;
    if n > 0 {
      assert Bumps(m, n + 1) == Bump(Bumps(m, n));
      assert Countable(Rewritten(d, name, Bumps(m, n), t), name) == Some(Bumps(m, n)) by {
        RewrittenIsCountable(d, name, Bumps(m, n), t);
      }
      assert Bumps(Bumps(m, n), 0) == Bumps(m, n);
    }
  }

  /** A round whose write fails, before its rename or after it. */
  lemma BrokenRound(d: Directory, name: Name, t: nat, fault: Fault)
    requires Countable(d, name).Some? && !fault.NoFault?
    ensures WrittenUpTo(d, name, Bump(Countable(d, name).value), t, fault) ==
      if Renamed(fault) then AfterRound(d, name, t + 2, false) else AfterLoop(d, name, 0, t, false, fault)
  {
    hide Countable, Attempts, Bump;
    CountableHasCounter(d, name);
    var m := Countable(d, name).value;
    assert Bumps(m, 1) == Bump(Bumps(m, 0));
  }

  lemma RewrittenIsCountable(d: Directory, name: Name, record: Object, t: nat)
    requires Attempts(record).Some?
    ensures Countable(Rewritten(d, name, record, t), name) == Some(record)
  {
  }

  /** The loop ends after n bumps on a write that fails before its rename. */
  ghost predicate BreaksAt(d: Directory, name: Name, wire: Object, rounds: seq<Attempt>, status: Status, n: nat, broken: Fault) {
    && n < |rounds| && rounds[n].fault == broken && !Renamed(broken) && status == Raised(false)
    && Countable(d, name).Some? && (n > 0 ==> HasRequired(wire))
    && forall j | 0 <= j < n :: Retried(rounds[j])
  }

  /** Which round the loop stops at, and with what; `broken` is the write that ended it before
      its rename, if one did. */
  ghost predicate StopsAt(d: Directory, name: Name, wire: Object, rounds: seq<Attempt>, seen: bool,
                          status: Status, n: nat, broken: Fault) {
    if !broken.NoFault? then BreaksAt(d, name, wire, rounds, status, n, broken)
    else if rounds == [] then n == 0 && status == Retrying
    else if Countable(d, name).None? then n == 0 && status == Raised(false)
    else if !HasRequired(wire) then n == 1 && status == Raised(false) && Renamed(rounds[0].fault)
    else
      && 0 < n <= |rounds| && Renamed(rounds[n - 1].fault)
      && (forall j | 0 <= j < n - 1 :: Retried(rounds[j]))
      && status == StatusOf(rounds[n - 1], seen || Admitted(rounds[..n - 1]))
      && (status.Retrying? ==> n == |rounds|)
  }

  /** The rounds that have waited: all of them, but for a last one that ended the loop. */
  function WaitCount(status: Status, n: nat, broken: Fault): nat {
    if status.Retrying? || status.ShutDown? || n == 0 || !broken.NoFault? then n else n - 1
  }

  /** The dashboard's memory of `body` once `rounds` have been made. */
  ghost predicate SeenAfter(r: Remote, r': Remote, body: Object, rounds: seq<Attempt>) {
    var news := ReportId(body) !in r.seen && Admitted(rounds);
    && r'.seen == r.seen + (if news then {ReportId(body)} else {})
    && r'.accepted == r.accepted + (if news then [body] else [])
  }

  // ---- how the loop ends, in terms of its last round ----

  /** The ending of n rounds, read off the last of them and the arrivals before it: a 401 that is
      re-raised, an answer that is heard and acted on, or a retriable outcome and its wait. */
  ghost predicate EndsBy(rounds: seq<Attempt>, n: nat, seen: bool, status: Status)
    requires 0 < n <= |rounds|
  {
    var a := rounds[n - 1];
    var called := a.fault.NoFault?;
    var answered := called && a.fate.Arrives? && a.fate.heard && !a.stuck;
    var lost := called && (a.fate.Vanishes? || (a.fate.Arrives? && !a.fate.heard));
    var known := seen || exists j | 0 <= j < n - 1 ::
      rounds[j].fault.NoFault? && rounds[j].fate.Arrives? && rounds[j].fate.policy.Admit?;
    && (status == Raised(true) <==> called && a.fate.AuthRejected?)
    && (status == Delivered <==> answered && a.fate.policy.Admit? && !known)
    && (status == DuplicateReport <==> answered && a.fate.policy.Admit? && known)
    && (status == RejectedReport <==> answered && !a.fate.policy.Admit?)
    && (status == ShutDown <==> lost && a.woke)
    && (status == Retrying <==> lost && !a.woke)
  }

  /** The whole of it: every round but the last is retriable and not woken; the last decides;
      without a call there is no other ending than an exception that is no 401. */
  ghost predicate LoopEnds(wire: Object, rounds: seq<Attempt>, seen: bool, status: Status, n: nat, broken: Fault) {
    && n <= |rounds|
    && (forall j | 0 <= j < n - 1 ::
          rounds[j].fault.NoFault? && !rounds[j].woke
          && (rounds[j].fate.Vanishes? || (rounds[j].fate.Arrives? && !rounds[j].fate.heard)))
    && (if n > 0 && broken.NoFault? && {ReportIdKey, ReportTypeKey, StartedAtKey, CompletedAtKey} <= wire.fields.Keys
        then EndsBy(rounds, n, seen, status)
        else status == Raised(false) || (rounds == [] && status == Retrying))
    && (status == Retrying ==> n == |rounds|)
  }

  lemma StopsAtEnds(d: Directory, name: Name, wire: Object, rounds: seq<Attempt>, seen: bool, status: Status, n: nat, broken: Fault)
    requires StopsAt(d, name, wire, rounds, seen, status, n, broken)
    ensures LoopEnds(wire, rounds, seen, status, n, broken)
    ensures rounds != [] && Countable(d, name).Some? && Renamed(rounds[0].fault) ==> n > 0
  {
    hide Countable;
    if n > 0 && broken.NoFault? && HasRequired(wire) {
      assert Admitted(rounds[..n - 1]) <==> exists j | 0 <= j < n - 1 ::
        rounds[j].fault.NoFault? && rounds[j].fate.Arrives? && rounds[j].fate.policy.Admit? by {
        hide StopsAt;
        AdmittedBefore(rounds, n - 1);
      }
    }
  }

  lemma AdmittedBefore(rounds: seq<Attempt>, n: nat)
    requires n <= |rounds|
    ensures Admitted(rounds[..n]) <==> exists j | 0 <= j < n ::
      rounds[j].fault.NoFault? && rounds[j].fate.Arrives? && rounds[j].fate.policy.Admit?
  {
    assert forall j | 0 <= j < n :: rounds[..n][j] == rounds[j];
  }

  /** What a retry loop reads and writes: the directory, its write clock, the dashboard,
      and the clock's record of waits. */
  datatype Snapshot = Snapshot(disk: Directory, now: nat, remote: Remote, sleeps: seq<nat>, t: int)

  /** One round takes `s` to `s'`; `bumped` when the counter on disk has moved. */
  ghost predicate RoundDone(name: Name, wire: Object, a: Attempt, s: Snapshot, s': Snapshot, status: Status, bumped: bool) {
    var delay := Backoff.Delay(CountIn(s.disk, name) + 1);
    && bumped == (Countable(s.disk, name).Some? && Renamed(a.fault))
    && (if bumped && HasRequired(wire) then
          && status == StatusOf(a, ReportId(Body(wire)) in s.remote.seen)
          && (if a.fault.NoFault? then Received(s.remote, s'.remote, Body(wire), a.fate) else s'.remote == s.remote)
        else status == Raised(false) && s'.remote == s.remote)
    && (if Countable(s.disk, name).Some? && !Renamed(a.fault) then
          && s'.disk == AfterLoop(s.disk, name, 0, s.now, false, a.fault)
          && s'.now == s.now + LoopTicks(0, a.fault)
        else
          && s'.disk == AfterRound(s.disk, name, s.now + 2, Finished(status))
          && s'.now == s.now + (if bumped then 2 else 0))
    && s'.sleeps == s.sleeps + (if status.Retrying? || status.ShutDown? then [delay] else [])
    && s'.t == s.t + (if status.Retrying? then delay else 0)
  }

  /** n rounds, all retried, take `s0` to `s`. */
  ghost predicate InProgress(name: Name, wire: Object, rounds: seq<Attempt>, s0: Snapshot, n: nat, s: Snapshot) {
    var waits := Backoff.Delays(CountIn(s0.disk, name) + 1, n);
    && n <= |rounds|
    && (n > 0 ==> Countable(s0.disk, name).Some? && HasRequired(wire))
    && (forall j | 0 <= j < n :: Retried(rounds[j]))
    && s.now == s0.now + 2 * n
    && s.disk == AfterRounds(s0.disk, name, n, s.now, false)
    && s.sleeps == s0.sleeps + waits && s.t == s0.t + Backoff.Sum(waits)
    && (HasRequired(wire) ==> SeenAfter(s0.remote, s.remote, Body(wire), rounds[..n]))
  }

  /** What `_retry_loop_for_path` does when it is watched for at most `rounds`. It stops at
      the first round that is not retried, after n bumps, or at a write that fails before its
      rename. The counter on disk is the one found plus n. The delays requested are the schedule from that counter on, and the time
      spent is their sum, but for a wait that shutdown ends. The dashboard has the body once
      more only if it did not know the id. */
  ghost predicate LoopDone(name: Name, wire: Object, rounds: seq<Attempt>, s0: Snapshot, s: Snapshot,
                           status: Status, n: nat, broken: Fault) {
    var first, waits := CountIn(s0.disk, name) + 1, WaitCount(status, n, broken);
    && StopsAt(s0.disk, name, wire, rounds, HasRequired(wire) && ReportId(Body(wire)) in s0.remote.seen, status, n, broken)
    && s.now == s0.now + LoopTicks(n, broken)
    && s.disk == AfterLoop(s0.disk, name, n, s0.now + 2 * n, Finished(status), broken)
    && s.sleeps == s0.sleeps + Backoff.Delays(first, waits)
    && s.t == s0.t + Backoff.Sum(Backoff.Delays(first, if status.ShutDown? && waits > 0 then waits - 1 else waits))
    && (if HasRequired(wire) then SeenAfter(s0.remote, s.remote, Body(wire), rounds[..n]) else s.remote == s0.remote)
  }

  lemma LoopDoneEnds(name: Name, wire: Object, rounds: seq<Attempt>, s0: Snapshot, s: Snapshot, status: Status, n: nat, broken: Fault)
    requires LoopDone(name, wire, rounds, s0, s, status, n, broken)
    ensures LoopEnds(wire, rounds, HasRequired(wire) && ReportId(Body(wire)) in s0.remote.seen, status, n, broken)
    ensures rounds != [] && Countable(s0.disk, name).Some? && Renamed(rounds[0].fault) ==> n > 0
  {
    hide StopsAt, LoopEnds, HasRequired, Body, ReportId, Countable, SeenAfter, Backoff.Sum, Backoff.Delays;
    StopsAtEnds(s0.disk, name, wire, rounds, HasRequired(wire) && ReportId(Body(wire)) in s0.remote.seen, status, n, broken);
  }

  lemma ProgressStart(name: Name, wire: Object, rounds: seq<Attempt>, s: Snapshot)
    ensures InProgress(name, wire, rounds, s, 0, s)
  {
    hide Backoff.Delay, Countable, ReportId, Body, HasRequired;
  }

  lemma ProgressGoesOn(name: Name, wire: Object, rounds: seq<Attempt>, s0: Snapshot, n: nat,
                       s: Snapshot, s': Snapshot, bumped: bool)
    requires n < |rounds| && InProgress(name, wire, rounds, s0, n, s)
    requires RoundDone(name, wire, rounds[n], s, s', Retrying, bumped)
    ensures bumped && HasRequired(wire)
    ensures InProgress(name, wire, rounds, s0, n + 1, s')
  {
    hide Backoff.Delay, Countable, ReportId, Body, HasRequired, AfterRound, AfterRounds, AfterLoop, SeenAfter, Received, Admitted, CountIn, Backoff.Delays, Backoff.Sum;
    AfterRoundsStep(s0.disk, name, n, s.now, s.now + 2);
    DelaysStep(CountIn(s0.disk, name) + 1, n);
    SeenStep(s0.remote, s.remote, s'.remote, Body(wire), rounds, n);
  }

  /** The failed write that ends the loop at this round, if there is one. */
  function BrokenBy(d: Directory, name: Name, a: Attempt): Fault {
    if Countable(d, name).Some? && !Renamed(a.fault) then a.fault else NoFault
  }

  lemma ProgressBreaks(name: Name, wire: Object, rounds: seq<Attempt>, s0: Snapshot, n: nat,
                       s: Snapshot, s': Snapshot, status: Status, bumped: bool)
    requires n < |rounds| && InProgress(name, wire, rounds, s0, n, s)
    requires !HasRequired(wire) ==> s.remote == s0.remote
    requires RoundDone(name, wire, rounds[n], s, s', status, bumped) && !BrokenBy(s.disk, name, rounds[n]).NoFault?
    ensures LoopDone(name, wire, rounds, s0, s', status, n, rounds[n].fault)
  {
    hide Backoff.Delay, Countable, ReportId, Body, HasRequired, AfterRound, AfterRounds, AfterLoop, SeenAfter, Received, Admitted, CountIn, Backoff.Delays, Backoff.Sum;
    AfterRoundsStep(s0.disk, name, n, s.now, s.now + 2);
    AfterLoopStep(s0.disk, name, n, s.now, rounds[n].fault);
  }

  lemma ProgressStops(name: Name, wire: Object, rounds: seq<Attempt>, s0: Snapshot, n: nat,
                      s: Snapshot, s': Snapshot, status: Status, bumped: bool)
    requires n < |rounds| && InProgress(name, wire, rounds, s0, n, s)
    requires !HasRequired(wire) ==> s.remote == s0.remote
    requires RoundDone(name, wire, rounds[n], s, s', status, bumped) && !status.Retrying?
    requires BrokenBy(s.disk, name, rounds[n]).NoFault?
    ensures LoopDone(name, wire, rounds, s0, s', status, if bumped then n + 1 else n, NoFault)
  {
    hide Backoff.Delay, Countable, ReportId, Body, HasRequired, AfterRound, AfterRounds, AfterLoop, SeenAfter, Received, Admitted, CountIn, Backoff.Delays, Backoff.Sum;
    AfterRoundsStep(s0.disk, name, n, s.now, s.now + 2);
    UnbrokenLoop(s0.disk, name, if bumped then n + 1 else n, s0.now + 2 * (if bumped then n + 1 else n), Finished(status));
    DelaysStep(CountIn(s0.disk, name) + 1, n);
    if bumped && HasRequired(wire) {
      SeenStep(s0.remote, s.remote, s'.remote, Body(wire), rounds, n);
      assert rounds[..n + 1][..n] == rounds[..n];
    }
  }

  lemma ProgressStep(name: Name, wire: Object, rounds: seq<Attempt>, s0: Snapshot, n: nat,
                     s: Snapshot, s': Snapshot, status: Status, bumped: bool)
    requires n < |rounds| && InProgress(name, wire, rounds, s0, n, s)
    requires !HasRequired(wire) ==> s.remote == s0.remote
    requires RoundDone(name, wire, rounds[n], s, s', status, bumped)
    ensures status.Retrying? ==> bumped && InProgress(name, wire, rounds, s0, n + 1, s')
    ensures !status.Retrying? ==>
      LoopDone(name, wire, rounds, s0, s', status, if bumped then n + 1 else n, BrokenBy(s.disk, name, rounds[n]))
    ensures bumped ==> CountIn(s.disk, name) == CountIn(s0.disk, name) + n
    ensures !status.Raised? ==> bumped
    ensures !HasRequired(wire) ==> s'.remote == s0.remote
  {
    assert bumped ==> CountIn(s.disk, name) == CountIn(s0.disk, name) + n by {
      hide Countable, CountIn, AfterRounds;
      AfterRoundsStep(s0.disk, name, n, s.now, s.now + 2);
    }
    assert !HasRequired(wire) ==> s'.remote == s0.remote;
    assert !bumped && Countable(s.disk, name).Some? ==> !BrokenBy(s.disk, name, rounds[n]).NoFault?;
    assert BrokenBy(s.disk, name, rounds[n]) == rounds[n].fault || BrokenBy(s.disk, name, rounds[n]) == NoFault;
    assert !BrokenBy(s.disk, name, rounds[n]).NoFault? ==> !bumped;
    hide *;
    if status.Retrying? {
      ProgressGoesOn(name, wire, rounds, s0, n, s, s', bumped);
    } else if !BrokenBy(s.disk, name, rounds[n]).NoFault? {
      ProgressBreaks(name, wire, rounds, s0, n, s, s', status, bumped);
    } else {
      ProgressStops(name, wire, rounds, s0, n, s, s', status, bumped);
    }
  }

  lemma ProgressEnd(name: Name, wire: Object, rounds: seq<Attempt>, s0: Snapshot, s: Snapshot)
    requires InProgress(name, wire, rounds, s0, |rounds|, s)
    requires !HasRequired(wire) ==> s.remote == s0.remote
    ensures LoopDone(name, wire, rounds, s0, s, Retrying, |rounds|, NoFault)
  {
    hide Backoff.Delay, Countable, ReportId, Body, HasRequired, AfterRound, AfterRounds, AfterLoop, SeenAfter, Received, Admitted;
    UnbrokenLoop(s0.disk, name, |rounds|, s.now, false);
  }

  lemma UnbrokenLoop(d: Directory, name: Name, n: nat, t: nat, gone: bool)
    ensures AfterLoop(d, name, n, t, gone, NoFault) == AfterRounds(d, name, n, t, gone)
  {
  }

  /** Moves of one submitter before it ends on an exception do not show in its end. */
  lemma AbortsAfterMoves(s0: State, s: State, name: Name, p: Proc, s': State)
    requires name in s0.procs && s.procs == s0.procs[name := p] && s.phase == s0.phase
    requires Aborts(s, name, false, s')
    ensures Aborts(s0, name, false, s')
  {
    assert s0.procs[name := p] - {name} == s0.procs - {name};
  }

  /** Moves of one submitter before it leaves do not show in where it is left. */
  lemma LeftAfterMoves(s0: State, s: State, name: Name, wire: Object, p: Proc, status: Status, s': State)
    requires name in s0.procs && s.procs == s0.procs[name := p] && s.phase == s0.phase
    requires Left(s, name, wire, status, s')
    ensures Left(s0, name, wire, status, s')
  {
    assert s0.procs[name := p] - {name} == s0.procs - {name};
    assert s0.procs[name := p][name := Proc(wire, Loading)] == s0.procs[name := Proc(wire, Loading)];
  }

  lemma SeenStep(r0: Remote, r: Remote, r': Remote, body: Object, rounds: seq<Attempt>, n: nat)
    requires n < |rounds| && SeenAfter(r0, r, body, rounds[..n])
    requires if rounds[n].fault.NoFault? then Received(r, r', body, rounds[n].fate) else r' == r
    ensures SeenAfter(r0, r', body, rounds[..n + 1])
    ensures ReportId(body) in r.seen <==> ReportId(body) in r0.seen || Admitted(rounds[..n])
  {
    hide ReportId;
    var next := rounds[..n + 1];
    assert next == rounds[..n] + [rounds[n]];
    assert next[n] == rounds[n];
    assert forall j | 0 <= j < n :: next[j] == rounds[..n][j];
  }

  lemma DelaysStep(first: int, n: nat)
    ensures Backoff.Delays(first, n + 1) == Backoff.Delays(first, n) + [Backoff.Delay(first + n)]
    ensures Backoff.Sum(Backoff.Delays(first, n + 1)) == Backoff.Sum(Backoff.Delays(first, n)) + Backoff.Delay(first + n)
    ensures Backoff.Delays(first, n + 1)[..n] == Backoff.Delays(first, n)
  {
    hide Backoff.Delay;
    var s := Backoff.Delays(first, n + 1);
    assert s[..n] == Backoff.Delays(first, n);
  }

  /** The file operations of an atomic write amount to one update, or to none that a reader
      sees if it failed before the rename. */
  lemma WriteIsRewrite(d: Directory, name: Name, record: Object, bytes: string, t: nat)
    ensures TmpName(name) in Fill(Tear(d, name, "", t + 1), name, Obj(record), t + 2)
    ensures Commit(Fill(Tear(d, name, "", t + 1), name, Obj(record), t + 2), name) == Rewritten(d, name, record, t + 2)
    ensures Fill(Tear(d, name, "", t + 1), name, Obj(record), t + 2) == Fill(d, name, Obj(record), t + 2)
    ensures Tear(Tear(d, name, "", t + 1), name, bytes, t + 2) - {TmpName(name)} == d - {TmpName(name)}
  {
  }

  /** A write that fails before its rename changes nothing that is listed or read, and the
      temporary file is left behind exactly by a rename that fails; a chmod that fails comes
      after the record is in place. */
  lemma FailedWriteIsInvisible(d: Directory, name: Name, record: Object, t: nat, fault: Fault)
    requires !IsTmp(name)
    ensures fault.OnOpen? || fault.OnWrite? || fault.OnReplace? ==> Visible(WrittenUpTo(d, name, record, t, fault)) == Visible(d)
    ensures fault.NoFault? || fault.OnChmod? ==>
      Visible(WrittenUpTo(d, name, record, t, fault)) == Visible(d)[name := File(Whole(Obj(record)), t + 2)]
    ensures TmpName(name) in WrittenUpTo(d, name, record, t, fault) <==>
      fault.OnReplace? || (fault.OnOpen? && TmpName(name) in d)
  {
  }

  /** A saved report is ready for its first round. */
  lemma SavedRecord(d: Directory, id: string, payload: Object, at: string, t: nat)
    requires IsPayload(payload, id)
    ensures var d1 := Rewritten(d, Report(id), Persisted(payload, at), t);
      && Countable(d1, Report(id)) == Some(Persisted(payload, at)) && CountIn(d1, Report(id)) == 0
      && Attempts(Persisted(payload, at)) == Some(0)
    ensures HasRequired(payload) && Body(payload) == payload && ReportId(payload) == Str(id)
    ensures Bumps(Persisted(payload, at), 0) == Persisted(payload, at)
  {
    PersistedKeepsWire(payload, at);
    BodyOfPayload(payload);
  }

  /** The submission stops at the first round that is not retried, with 409 in place of 200
      when an earlier answer was lost. */
  ghost predicate SubmitStops(id: string, rounds: seq<Attempt>, s0: Snapshot, status: Status, n: nat, broken: Fault) {
    if !broken.NoFault? then
      && n < |rounds| && rounds[n].fault == broken && !Renamed(broken) && status == Raised(false)
      && forall j | 0 <= j < n :: Retried(rounds[j])
    else
      && n <= |rounds|
      && (n == 0 ==> rounds == [] && status.Retrying?)
      && (forall j | 0 <= j < n - 1 :: Retried(rounds[j]))
      && (n > 0 ==>
            && Renamed(rounds[n - 1].fault)
            && status == StatusOf(rounds[n - 1], Str(id) in s0.remote.seen || Admitted(rounds[..n - 1])))
      && (status.Retrying? ==> n == |rounds|)
  }

  /** The submission's file once its loop has stopped: gone after a final answer, and otherwise
      the payload with n in its counter, over which a failed write may have left its mark. */
  function SubmitDisk(d: Directory, name: Name, record: Object, n: nat, t: nat, gone: bool, broken: Fault): Directory
    requires Attempts(record).Some?
  {
    if Renamed(broken) then
      if gone then d - {TmpName(name)} else Rewritten(d, name, Bumps(record, n), t)
    else WrittenUpTo(Rewritten(d, name, Bumps(record, n), t), name, Bumps(record, n + 1), t, broken)
  }

  /** A fresh submission watched for at most `rounds`. After a final answer the directory is as
      before the save; until then it holds the payload with the rounds made in its counter.
      The dashboard has the payload once, from the first arrival on. A first life waits 5, 15,
      30, 60, 120, 120, ... seconds. */
  ghost predicate SubmitDone(id: string, payload: Object, at: string, rounds: seq<Attempt>,
                             s0: Snapshot, s: Snapshot, status: Status, n: nat, broken: Fault)
    requires IsPayload(payload, id)
  {
    var waits := WaitCount(status, n, broken);
    && SubmitStops(id, rounds, s0, status, n, broken)
    && Attempts(Persisted(payload, at)).Some?
    && s.disk == SubmitDisk(s0.disk, Report(id), Persisted(payload, at), n, s0.now + 2 + 2 * n, Finished(status), broken)
    && s.now == s0.now + 2 + LoopTicks(n, broken)
    && s.remote.accepted == s0.remote.accepted +
         (if Str(id) !in s0.remote.seen && Admitted(rounds[..n]) then [payload] else [])
    && s.sleeps == s0.sleeps + Backoff.Delays(1, waits)
    && s.t == s0.t + Backoff.Sum(Backoff.Delays(1, if status.ShutDown? && waits > 0 then waits - 1 else waits))
  }

  /** After a submission the file is gone on 200, 409, 400 and 413, and in every other case it
      holds the payload with the bumps made. */
  lemma SubmitKeepsOrDeletes(id: string, payload: Object, at: string, rounds: seq<Attempt>,
                             s0: Snapshot, s: Snapshot, status: Status, n: nat, broken: Fault)
    requires IsPayload(payload, id) && SubmitDone(id, payload, at, rounds, s0, s, status, n, broken) && Report(id) !in s0.disk
    ensures status.Delivered? || status.DuplicateReport? || status.RejectedReport? ==> Report(id) !in s.disk
    ensures !(status.Delivered? || status.DuplicateReport? || status.RejectedReport?) ==> HoldsReport(s.disk, id, payload, n)
  {
    hide Attempts, WirePayload, Persisted, Admitted, StatusOf, Bumps;
    var record := Persisted(payload, at);
    WireRoundTrip(payload, at, n);
    assert Load(Whole(Obj(Bumps(record, n)))) == Some(Bumps(record, n));
  }

  /** The file parses, holds the payload, and counts n. */
  ghost predicate HoldsReport(d: Directory, id: string, payload: Object, n: nat) {
    && Report(id) in d && Load(d[Report(id)].content).Some?
    && WirePayload(Load(d[Report(id)].content).value) == payload
    && Attempts(Load(d[Report(id)].content).value) == Some(n)
  }

  /** The waits of a first life in seconds. */
  lemma FirstLifeWaits(id: string, payload: Object, at: string, rounds: seq<Attempt>,
                       s0: Snapshot, s: Snapshot, status: Status, n: nat, broken: Fault, i: nat)
    requires IsPayload(payload, id) && SubmitDone(id, payload, at, rounds, s0, s, status, n, broken)
    requires |s0.sleeps| + i < |s.sleeps|
    ensures s.sleeps[|s0.sleeps| + i] == if i == 0 then 5 else if i == 1 then 15 else if i == 2 then 30 else if i == 3 then 60 else 120
  {
    hide SubmitStops, SubmitDisk, Persisted, Attempts, Admitted, Backoff.Delay, Backoff.Sum;
    var waits := WaitCount(status, n, broken);
    assert s.sleeps[|s0.sleeps| + i] == Backoff.Delays(1, waits)[i];
    Backoff.DelayIs(1 + i);
  }

  lemma StopsFromLoop(d: Directory, id: string, payload: Object, rounds: seq<Attempt>, s0: Snapshot,
                      status: Status, n: nat, broken: Fault)
    requires Countable(d, Report(id)).Some? && HasRequired(payload)
    requires StopsAt(d, Report(id), payload, rounds, Str(id) in s0.remote.seen, status, n, broken)
    ensures SubmitStops(id, rounds, s0, status, n, broken)
  {
    hide Countable, HasRequired, StatusOf, Admitted;
  }

  lemma SubmitFromLoop(id: string, payload: Object, at: string, rounds: seq<Attempt>,
                       s0: Snapshot, s1: Snapshot, s: Snapshot, status: Status, n: nat, broken: Fault)
    requires IsPayload(payload, id) && Report(id) !in s0.disk
    requires s1 == s0.(disk := Rewritten(s0.disk, Report(id), Persisted(payload, at), s0.now + 2), now := s0.now + 2)
    requires LoopDone(Report(id), payload, rounds, s1, s, status, n, broken)
    ensures SubmitDone(id, payload, at, rounds, s0, s, status, n, broken)
  {
    hide WirePayload, IsPayload, Persisted, Attempts, Countable, CountIn, Body, HasRequired, ReportId, Bumps, StatusOf;
    hide Admitted, Backoff.Delay, Backoff.Delays, Backoff.Sum, Rewritten, AfterLoop, StopsAt, SubmitStops, SubmitDisk, Finished;
    var record := Persisted(payload, at);
    SavedRecord(s0.disk, id, payload, at, s0.now + 2);
    StopsFromLoop(s1.disk, id, payload, rounds, s0, status, n, broken);
    StoppedHasRound(id, rounds, s0, status, n, broken);
    DiskFromSave(s0.disk, Report(id), record, s1.now, n, s1.now + 2 * n, Finished(status), broken);
  }

  lemma DiskFromSave(d: Directory, name: Name, record: Object, t: nat, n: nat, t': nat, gone: bool, broken: Fault)
    requires name !in d && Attempts(record).Some? && (n == 0 ==> !gone && t' == t) && (gone ==> broken.NoFault?)
    requires Countable(Rewritten(d, name, record, t), name) == Some(record)
    ensures AfterLoop(Rewritten(d, name, record, t), name, n, t', gone, broken) ==
      SubmitDisk(d, name, record, n, t', gone, broken)
  {
    hide Attempts, Countable, Rewritten, AfterRounds, WrittenUpTo;
    AfterRoundsFromSave(d, name, record, t, n, t');
  }

  lemma StoppedHasRound(id: string, rounds: seq<Attempt>, s0: Snapshot, status: Status, n: nat, broken: Fault)
    requires SubmitStops(id, rounds, s0, status, n, broken)
    ensures n > 0 || !Finished(status)
    ensures Finished(status) ==> broken.NoFault?
  {
  }

  lemma AfterRoundsFromSave(d: Directory, name: Name, record: Object, t: nat, n: nat, t': nat)
    requires name !in d && Attempts(record).Some?
    requires Countable(Rewritten(d, name, record, t), name) == Some(record)
    ensures var d1 := Rewritten(d, name, record, t);
      && (n == 0 ==> AfterRounds(d1, name, n, t, false) == Rewritten(d, name, Bumps(record, n), t))
      && (n > 0 ==> AfterRounds(d1, name, n, t', true) == d - {TmpName(name)})
      && (n > 0 ==> AfterRounds(d1, name, n, t', false) == Rewritten(d, name, Bumps(record, n), t'))
  {
    hide Attempts, Countable;
    var d1 := Rewritten(d, name, record, t);
    assert d1 - {TmpName(name), name} == d - {TmpName(name)};
    assert Rewritten(d1, name, Bumps(record, n), t') == Rewritten(d, name, Bumps(record, n), t');
  }
}
