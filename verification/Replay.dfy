/** One replay pass over the pending directory, file by file (certwatch/report_submission.py,
    `replay_pending_reports`), and what it conserves. */
module Replay {
  import opened Files
  import opened PendingReports
  import opened Delivery
  import opened RetrySpec

  /** Why a pass is not going on: shutdown, an exception, or the rounds watched ran out. */
  datatype Stop = Going | Interrupted | Errored(auth: bool) | Cut

  datatype ReplayResult = ReplayResult(replayed: nat, skippedCorrupt: nat, skippedOrphan: nat)

  /** The directory, the quarantine, the write clock and the result so far. */
  datatype Sweep = Sweep(
    disk: Directory,
    corrupt: map<(Name, string), Content>,
    now: nat,
    result: ReplayResult,
    stop: Stop)

  /** What the pass meets at one file: shutdown set before it, the quarantine timestamp, and,
      for a file it resubmits, the bumps made, the failed write that ended the loop if one
      did, and the loop's status. */
  datatype Visit = Visit(shutdown: bool, stamp: string, bumps: nat, broken: Fault, status: Status)

  /** What the environment does while one listed file is handled. */
  datatype Plan = Plan(shutdown: bool, stamp: string, rounds: seq<Attempt>)

  /** The visit is what the retry loop makes of the plan's rounds. */
  ghost predicate VisitFits(s: Sweep, at: string, name: Name, p: Plan, v: Visit) {
    && v.shutdown == p.shutdown && v.stamp == p.stamp
    && (s.stop.Going? && !p.shutdown && Decide(s.disk, name, at).Resubmit? ==>
          exists seen :: StopsAt(s.disk, name, WirePayload(Decide(s.disk, name, at).record), p.rounds, seen, v.status, v.bumps, v.broken))
  }

  function StopOf(status: Status): Stop {
    match status
    case ShutDown => Interrupted
    case Raised(auth) => Errored(auth)
    case Retrying => Cut
    case _ => Going
  }

  /** One round of the replay loop. */
  function VisitFile(s: Sweep, at: string, name: Name, v: Visit): Sweep {
    var r := s.result;
    if !s.stop.Going? then s
    else if v.shutdown then s.(stop := Interrupted)
    else match Decide(s.disk, name, at)
      case CorruptFile =>
        s.(disk := s.disk - {name}, result := r.(skippedCorrupt := r.skippedCorrupt + 1),
           corrupt := if name in s.disk then s.corrupt[(name, v.stamp) := s.disk[name].content] else s.corrupt)
      case Orphan => s.(result := r.(skippedOrphan := r.skippedOrphan + 1))
      case Missing => s.(stop := Errored(false))
      case Unhandled => s.(stop := Errored(false))
      case Resubmit(_) =>
        s.(disk := AfterLoop(s.disk, name, v.bumps, s.now + 2 * v.bumps, Finished(v.status), v.broken),
           now := s.now + LoopTicks(v.bumps, v.broken),
           result := if Finished(v.status) then r.(replayed := r.replayed + 1) else r,
           stop := StopOf(v.status))
  }

  /** The pass after the first k files. */
  function SweepOf(s: Sweep, at: string, files: seq<Name>, visits: seq<Visit>, k: nat): Sweep
    requires k <= |files| && k <= |visits|
  {
    if k == 0 then s else VisitFile(SweepOf(s, at, files, visits, k - 1), at, files[k - 1], visits[k - 1])
  }

  /** Where a replay that stopped leaves the process. */
  function PhaseAfter(at: string, todo: seq<Name>, stop: Stop): Phase {
    match stop
    case Going => Replaying(at, todo)
    case Cut => Replaying(at, todo)
    case Interrupted => Down
    case Errored(auth) => if auth then Down else Running
  }

  /** The state after k files depends on the first k visits only. */
  lemma {:induction false} SweepOfPrefix(s: Sweep, at: string, files: seq<Name>, visits: seq<Visit>, v: Visit, k: nat)
    requires k <= |files| && k <= |visits|
    ensures SweepOf(s, at, files, visits + [v], k) == SweepOf(s, at, files, visits, k)
  {
    hide VisitFile;
    if k > 0 {
      SweepOfPrefix(s, at, files, visits, v, k - 1);
    }
  }

  /** The files handled so far take `s0` to `s`; only the last of them may have stopped the
      pass, and each visit is what the loop makes of its file's plan. */
  ghost predicate Passed(s0: Sweep, at: string, files: seq<Name>, plan: Name -> Plan, visits: seq<Visit>, s: Sweep) {
    && |visits| <= |files|
    && s == SweepOf(s0, at, files, visits, |visits|)
    && forall j | 0 <= j < |visits| ::
         var sj := SweepOf(s0, at, files, visits, j);
         sj.stop.Going? && VisitFits(sj, at, files[j], plan(files[j]), visits[j])
  }

  lemma PassedStart(s0: Sweep, at: string, files: seq<Name>, plan: Name -> Plan)
    ensures Passed(s0, at, files, plan, [], s0)
  {
  }

  lemma PassedStep(s0: Sweep, at: string, files: seq<Name>, plan: Name -> Plan, visits: seq<Visit>, s: Sweep, v: Visit)
    requires Passed(s0, at, files, plan, visits, s) && |visits| < |files| && s.stop.Going?
    requires VisitFits(s, at, files[|visits|], plan(files[|visits|]), v)
    ensures Passed(s0, at, files, plan, visits + [v], VisitFile(s, at, files[|visits|], v))
  {
    hide VisitFile, VisitFits;
    forall j | 0 <= j <= |visits|
      ensures SweepOf(s0, at, files, visits + [v], j) == SweepOf(s0, at, files, visits, j)
    {
      SweepOfPrefix(s0, at, files, visits, v, j);
    }
  }
}
