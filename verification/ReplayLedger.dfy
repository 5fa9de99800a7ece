/** What a replay pass conserves: every listed file is accounted for exactly once, and files
    the pass did not get to are untouched. */
module ReplayLedger {
  import opened Wrappers
  import opened JsonValues
  import opened Files
  import opened PendingReports
  import opened RetrySpec
  import opened Replay

  /** A pass about to start on `files` in a directory without temporary files. */
  ghost predicate Fresh(s: Sweep, files: seq<Name>) {
    && s.result == ReplayResult(0, 0, 0) && s.stop.Going?
    && NoRepeats(files)
    && (forall n | n in files :: n in s.disk)
    && forall n | n in s.disk :: !IsTmp(n)
  }

  ghost predicate Untouched(d: Directory, d': Directory, n: Name) {
    n in d && n in d' && d'[n] == d[n]
  }

  predicate Handled(files: seq<Name>, k: nat, n: Name)
    requires k <= |files|
  {
    n in files[..k]
  }

  /** Of the files handled exactly the orphans remain, unchanged; no other file changes. */
  ghost predicate FilesOk(d0: Directory, at: string, files: seq<Name>, k: nat, d: Directory)
    requires k <= |files|
  {
    && (forall n | n in d0 && !Handled(files, k, n) :: Untouched(d0, d, n))
    && (forall n | n in d0 && Handled(files, k, n) ::
          if Decide(d0, n, at).Orphan? then Untouched(d0, d, n) else n !in d)
    && forall n | n in d :: n in d0
  }

  /** The quarantine name `key` is taken by one of the first k files. */
  ghost predicate Quarantined(d0: Directory, at: string, files: seq<Name>, visits: seq<Visit>, k: nat, key: (Name, string))
    requires k <= |files| && k <= |visits|
  {
    exists j | 0 <= j < k :: Decide(d0, files[j], at).CorruptFile? && key == (files[j], visits[j].stamp)
  }

  /** The quarantine gains the bytes of exactly the corrupt files handled. */
  ghost predicate QuarantineOk(s0: Sweep, at: string, files: seq<Name>, visits: seq<Visit>, k: nat, c: map<(Name, string), Content>)
    requires k <= |files| && k <= |visits|
  {
    && (forall key :: key in c <==> key in s0.corrupt || Quarantined(s0.disk, at, files, visits, k, key))
    && (forall key | key in c ::
          if Quarantined(s0.disk, at, files, visits, k, key)
          then key.0 in s0.disk && c[key] == s0.disk[key.0].content
          else key in s0.corrupt && c[key] == s0.corrupt[key])
  }

  ghost function Resubmitted(d0: Directory, at: string, files: seq<Name>, k: nat): set<nat>
    requires k <= |files|
  {
    set j: nat | j < k && Decide(d0, files[j], at).Resubmit?
  }

  ghost function CorruptOnes(d0: Directory, at: string, files: seq<Name>, k: nat): set<nat>
    requires k <= |files|
  {
    set j: nat | j < k && Decide(d0, files[j], at).CorruptFile?
  }

  ghost function Orphans(d0: Directory, at: string, files: seq<Name>, k: nat): set<nat>
    requires k <= |files|
  {
    set j: nat | j < k && Decide(d0, files[j], at).Orphan?
  }

  /** Each of the first k files is counted once, under what its content makes of it. */
  ghost predicate CountsOk(d0: Directory, at: string, files: seq<Name>, k: nat, r: ReplayResult)
    requires k <= |files|
  {
    && r.replayed == |Resubmitted(d0, at, files, k)|
    && r.skippedCorrupt == |CorruptOnes(d0, at, files, k)|
    && r.skippedOrphan == |Orphans(d0, at, files, k)|
    && r.replayed + r.skippedCorrupt + r.skippedOrphan == k
  }

  /** After k files, none of which stopped the pass: each is counted once. */
  ghost predicate Ledger(s0: Sweep, at: string, files: seq<Name>, visits: seq<Visit>, k: nat, s: Sweep)
    requires k <= |files| && k <= |visits|
  {
    && CountsOk(s0.disk, at, files, k, s.result)
    && FilesOk(s0.disk, at, files, k, s.disk)
    && QuarantineOk(s0, at, files, visits, k, s.corrupt)
  }

  lemma NotHandledYet(files: seq<Name>, k: nat)
    requires NoRepeats(files) && k < |files|
    ensures !Handled(files, k, files[k])
    ensures forall n :: Handled(files, k + 1, n) <==> Handled(files, k, n) || n == files[k]
  {
    assert files[..k + 1] == files[..k] + [files[k]];
    assert files == files[..k] + [files[k]] + files[k + 1..];
    assert multiset(files) == multiset(files[..k]) + multiset{files[k]} + multiset(files[k + 1..]);
    assert multiset(files)[files[k]] == 1;
  }

  lemma DecideDependsOnFile(d: Directory, d': Directory, n: Name, at: string)
    requires Untouched(d, d', n)
    ensures Decide(d', n, at) == Decide(d, n, at)
    ensures Countable(d', n) == Countable(d, n)
  {
  }

  lemma FilesStep(s0: Sweep, at: string, files: seq<Name>, k: nat, s: Sweep, v: Visit)
    requires Fresh(s0, files) && k < |files|
    requires FilesOk(s0.disk, at, files, k, s.disk) && s.stop.Going? && VisitFile(s, at, files[k], v).stop.Going?
    requires Decide(s.disk, files[k], at).Resubmit? && Finished(v.status) ==>
      v.bumps > 0 && v.broken.NoFault? && Countable(s.disk, files[k]).Some?
    ensures FilesOk(s0.disk, at, files, k + 1, VisitFile(s, at, files[k], v).disk)
  {
    hide Decide, Handled, Countable, Attempts;
    NotHandledYet(files, k);
    CountableHasCounter(s.disk, files[k]);
    DecideDependsOnFile(s0.disk, s.disk, files[k], at);
  }

  lemma QuarantinedNext(d0: Directory, at: string, files: seq<Name>, visits: seq<Visit>, k: nat)
    requires k < |files| && k < |visits|
    ensures forall key :: Quarantined(d0, at, files, visits, k + 1, key) <==>
      (Quarantined(d0, at, files, visits, k, key) ||
       (Decide(d0, files[k], at).CorruptFile? && key == (files[k], visits[k].stamp)))
    ensures forall key | Quarantined(d0, at, files, visits, k, key) :: Handled(files, k, key.0)
  {
    hide Decide, Handled;
    forall key | Quarantined(d0, at, files, visits, k, key)
      ensures Quarantined(d0, at, files, visits, k + 1, key) && Handled(files, k, key.0)
    {
      var j :| 0 <= j < k && Decide(d0, files[j], at).CorruptFile? && key == (files[j], visits[j].stamp);
      HandledAt(files, k, j);
    }
    if Decide(d0, files[k], at).CorruptFile? {
      assert Quarantined(d0, at, files, visits, k + 1, (files[k], visits[k].stamp));
    }
  }

  lemma HandledAt(files: seq<Name>, k: nat, j: nat)
    requires j < k <= |files|
    ensures Handled(files, k, files[j])
  {
    assert files[..k][j] == files[j];
  }

  lemma QuarantineStep(s0: Sweep, at: string, files: seq<Name>, visits: seq<Visit>, k: nat, s: Sweep)
    requires Fresh(s0, files) && k < |files| && k < |visits|
    requires FilesOk(s0.disk, at, files, k, s.disk) && QuarantineOk(s0, at, files, visits, k, s.corrupt)
    requires s.stop.Going? && VisitFile(s, at, files[k], visits[k]).stop.Going?
    ensures QuarantineOk(s0, at, files, visits, k + 1, VisitFile(s, at, files[k], visits[k]).corrupt)
  {
    hide Decide, Handled, AfterLoop;
    NotHandledYet(files, k);
    DecideDependsOnFile(s0.disk, s.disk, files[k], at);
    QuarantinedNext(s0.disk, at, files, visits, k);
    hide Quarantined;
  }

  // The k-th file joins the set of its kind.

  lemma ResubmittedNext(d0: Directory, at: string, files: seq<Name>, k: nat)
    requires k < |files|
    ensures |Resubmitted(d0, at, files, k + 1)| == |Resubmitted(d0, at, files, k)| + (if Decide(d0, files[k], at).Resubmit? then 1 else 0)
  {
    hide Decide;
    assert Resubmitted(d0, at, files, k + 1) ==
      Resubmitted(d0, at, files, k) + (if Decide(d0, files[k], at).Resubmit? then {k} else {});
  }

  lemma CorruptOnesNext(d0: Directory, at: string, files: seq<Name>, k: nat)
    requires k < |files|
    ensures |CorruptOnes(d0, at, files, k + 1)| == |CorruptOnes(d0, at, files, k)| + (if Decide(d0, files[k], at).CorruptFile? then 1 else 0)
  {
    hide Decide;
    assert CorruptOnes(d0, at, files, k + 1) ==
      CorruptOnes(d0, at, files, k) + (if Decide(d0, files[k], at).CorruptFile? then {k} else {});
  }

  lemma OrphansNext(d0: Directory, at: string, files: seq<Name>, k: nat)
    requires k < |files|
    ensures |Orphans(d0, at, files, k + 1)| == |Orphans(d0, at, files, k)| + (if Decide(d0, files[k], at).Orphan? then 1 else 0)
  {
    hide Decide;
    assert Orphans(d0, at, files, k + 1) ==
      Orphans(d0, at, files, k) + (if Decide(d0, files[k], at).Orphan? then {k} else {});
  }

  lemma CountsStep(s0: Sweep, at: string, files: seq<Name>, k: nat, s: Sweep, v: Visit)
    requires Fresh(s0, files) && k < |files|
    requires FilesOk(s0.disk, at, files, k, s.disk) && CountsOk(s0.disk, at, files, k, s.result)
    requires s.stop.Going? && VisitFile(s, at, files[k], v).stop.Going?
    ensures CountsOk(s0.disk, at, files, k + 1, VisitFile(s, at, files[k], v).result)
  {
    hide Decide, Handled, AfterLoop, Resubmitted, CorruptOnes, Orphans;
    NotHandledYet(files, k);
    DecideDependsOnFile(s0.disk, s.disk, files[k], at);
    ResubmittedNext(s0.disk, at, files, k);
    CorruptOnesNext(s0.disk, at, files, k);
    OrphansNext(s0.disk, at, files, k);
  }

  lemma LedgerStep(s0: Sweep, at: string, files: seq<Name>, visits: seq<Visit>, k: nat, s: Sweep)
    requires Fresh(s0, files) && k < |files| && k < |visits|
    requires Ledger(s0, at, files, visits, k, s) && s.stop.Going?
    requires VisitFile(s, at, files[k], visits[k]).stop.Going?
    requires Decide(s.disk, files[k], at).Resubmit? && Finished(visits[k].status) ==>
      visits[k].bumps > 0 && visits[k].broken.NoFault? && Countable(s.disk, files[k]).Some?
    ensures Ledger(s0, at, files, visits, k + 1, VisitFile(s, at, files[k], visits[k]))
  {
    hide FilesOk, QuarantineOk, CountsOk, Decide, AfterLoop, Countable;
    CountsStep(s0, at, files, k, s, visits[k]);
    FilesStep(s0, at, files, k, s, visits[k]);
    QuarantineStep(s0, at, files, visits, k, s);
  }

  /** The retry loop reports a final answer only after a bump. */
  lemma FinishedHasBumped(s: Sweep, at: string, name: Name, p: Plan, v: Visit)
    requires s.stop.Going? && VisitFits(s, at, name, p, v) && Decide(s.disk, name, at).Resubmit? && !v.shutdown
    ensures Finished(v.status) ==> v.bumps > 0 && v.broken.NoFault? && Countable(s.disk, name).Some?
  {
    hide Decide, Countable, WirePayload, Admitted;
  }

  lemma SweepOfNone(s0: Sweep, at: string, files: seq<Name>, visits: seq<Visit>)
    ensures SweepOf(s0, at, files, visits, 0) == s0
  {
  }

  lemma PassedAt(s0: Sweep, at: string, files: seq<Name>, plan: Name -> Plan, visits: seq<Visit>, s: Sweep, j: nat)
    requires Passed(s0, at, files, plan, visits, s) && j < |visits|
    ensures |visits| <= |files| && s == SweepOf(s0, at, files, visits, |visits|)
    ensures SweepOf(s0, at, files, visits, j).stop.Going?
    ensures VisitFits(SweepOf(s0, at, files, visits, j), at, files[j], plan(files[j]), visits[j])
    ensures SweepOf(s0, at, files, visits, j + 1) == VisitFile(SweepOf(s0, at, files, visits, j), at, files[j], visits[j])
    ensures visits[j].shutdown ==> SweepOf(s0, at, files, visits, j + 1).stop == Interrupted
  {
    hide VisitFits, Decide;
  }

  lemma {:induction false} LedgerOfPass(s0: Sweep, at: string, files: seq<Name>, plan: Name -> Plan,
                                        visits: seq<Visit>, s: Sweep, k: nat)
    requires Fresh(s0, files) && Passed(s0, at, files, plan, visits, s) && k <= |visits|
    requires SweepOf(s0, at, files, visits, k).stop.Going?
    ensures Ledger(s0, at, files, visits, k, SweepOf(s0, at, files, visits, k))
  {
    hide FilesOk, QuarantineOk, CountsOk, Decide, AfterLoop, Countable, VisitFits, Fresh, Passed, VisitFile, SweepOf, Finished;
    if k == 0 {
      SweepOfNone(s0, at, files, visits);
      LedgerStart(s0, at, files, visits);
    } else {
      PassedAt(s0, at, files, plan, visits, s, k - 1);
      var before := SweepOf(s0, at, files, visits, k - 1);
      LedgerOfPass(s0, at, files, plan, visits, s, k - 1);
      if Decide(before.disk, files[k - 1], at).Resubmit? && !visits[k - 1].shutdown {
        FinishedHasBumped(before, at, files[k - 1], plan(files[k - 1]), visits[k - 1]);
      }
      LedgerStep(s0, at, files, visits, k - 1, before);
    }
  }

  lemma LedgerStart(s0: Sweep, at: string, files: seq<Name>, visits: seq<Visit>)
    requires Fresh(s0, files)
    ensures Ledger(s0, at, files, visits, 0, s0)
  {
    assert Resubmitted(s0.disk, at, files, 0) == {} && CorruptOnes(s0.disk, at, files, 0) == {} && Orphans(s0.disk, at, files, 0) == {};
  }

  lemma StoppedHasVisit(s0: Sweep, at: string, files: seq<Name>, plan: Name -> Plan, visits: seq<Visit>, s: Sweep)
    requires Fresh(s0, files) && Passed(s0, at, files, plan, visits, s) && !s.stop.Going?
    ensures 0 < |visits| <= |files|
  {
    hide VisitFits, VisitFile;
  }

  // ---- why a pass ends ----

  /** What the handling of one file means for the pass, read off the file and the last round of its
      retry loop: shutdown, a 401, or anything else that raises; otherwise the pass goes on. */
  ghost predicate FileEnds(decision: Decision, p: Plan, v: Visit, stop: Stop) {
    if p.shutdown then stop == Interrupted
    else
      match decision
      case CorruptFile => stop == Going
      case Orphan => stop == Going
      case Missing => stop == Errored(false)
      case Unhandled => stop == Errored(false)
      case Resubmit(record) =>
        var n := v.bumps;
        var complete := {ReportIdKey, ReportTypeKey, StartedAtKey, CompletedAtKey} <= WirePayload(record).fields.Keys;
        if 0 < n <= |p.rounds| && v.broken.NoFault? && complete then
          var a := p.rounds[n - 1];
          var lost := a.fault.NoFault? && (a.fate.Vanishes? || (a.fate.Arrives? && !a.fate.heard));
          && (stop == Errored(true) <==> a.fault.NoFault? && a.fate.AuthRejected?)
          && (stop == Interrupted <==> lost && a.woke)
          && (stop == Cut <==> lost && !a.woke)
          && (stop == Going <==> a.fault.NoFault? && a.fate.Arrives? && a.fate.heard && !a.stuck)
        else stop == Errored(false) || (stop == Cut && p.rounds == [])
  }

  /** The pass ends at the last file it came to, for that file's reason. */
  ghost predicate PassEnds(d0: Directory, at: string, files: seq<Name>, plan: Name -> Plan, visits: seq<Visit>, stop: Stop) {
    && |visits| <= |files|
    && if visits == [] then stop == Going
       else
         var k := |visits| - 1;
         FileEnds(Decide(d0, files[k], at), plan(files[k]), visits[k], stop)
  }

  lemma VisitEnds(s: Sweep, at: string, name: Name, p: Plan, v: Visit)
    requires s.stop.Going? && VisitFits(s, at, name, p, v)
    ensures FileEnds(Decide(s.disk, name, at), p, v, VisitFile(s, at, name, v).stop)
  {
    hide Decide, WirePayload, StopsAt, AfterLoop;
    var decision := Decide(s.disk, name, at);
    if !p.shutdown && decision.Resubmit? {
      var wire := WirePayload(decision.record);
      var seen :| StopsAt(s.disk, name, wire, p.rounds, seen, v.status, v.bumps, v.broken);
      StopsAtEnds(s.disk, name, wire, p.rounds, seen, v.status, v.bumps, v.broken);
    }
  }

  /** A 401 met by the last file ends the pass as an auth error, and nothing else does; likewise
      for shutdown and the other endings. */
  lemma WhyAPassEnds(s0: Sweep, at: string, files: seq<Name>, plan: Name -> Plan, visits: seq<Visit>, s: Sweep)
    requires Fresh(s0, files) && Passed(s0, at, files, plan, visits, s)
    ensures PassEnds(s0.disk, at, files, plan, visits, s.stop)
  {
    hide VisitFits, VisitFile, Decide, FileEnds, FilesOk, QuarantineOk, CountsOk;
    if visits != [] {
      hide SweepOf, Passed;
      var k := |visits| - 1;
      PassedAt(s0, at, files, plan, visits, s, k);
      var before := SweepOf(s0, at, files, visits, k);
      LedgerOfPass(s0, at, files, plan, visits, s, k);
      VisitEnds(before, at, files[k], plan(files[k]), visits[k]);
      SameWhenVisited(s0, at, files, k, before.disk);
    }
  }

  lemma SameWhenVisited(s0: Sweep, at: string, files: seq<Name>, k: nat, d: Directory)
    requires Fresh(s0, files) && k < |files| && FilesOk(s0.disk, at, files, k, d)
    ensures Decide(d, files[k], at) == Decide(s0.disk, files[k], at)
  {
    hide Decide, Handled;
    NotHandledYet(files, k);
    DecideDependsOnFile(s0.disk, d, files[k], at);
  }

  // ---- the theorems ----

  /** A pass that is not stopped accounts for every listed file exactly once, as replayed,
      corrupt or orphan by what it finds in the file; it leaves
      exactly the orphans, unchanged, and the quarantine holds the bytes of exactly the
      corrupt files beside what it held under other names. */
  lemma ReplayConserves(s0: Sweep, at: string, files: seq<Name>, plan: Name -> Plan, visits: seq<Visit>, s: Sweep)
    requires Fresh(s0, files) && (forall n | n in s0.disk && IsJson(n) :: n in files)
    requires Passed(s0, at, files, plan, visits, s) && s.stop.Going? && |visits| == |files|
    ensures CountsOk(s0.disk, at, files, |files|, s.result)
    ensures forall n | n in s0.disk && IsJson(n) ::
      if Decide(s0.disk, n, at).Orphan? then Untouched(s0.disk, s.disk, n) else n !in s.disk
    ensures forall n | n in s.disk && IsJson(n) :: n in s0.disk && Decide(s0.disk, n, at).Orphan?
    ensures QuarantineOk(s0, at, files, visits, |files|, s.corrupt)
  {
    hide Decide, QuarantineOk, CountsOk, SweepOf, Fresh;
    LedgerOfPass(s0, at, files, plan, visits, s, |visits|);
    assert files[..|files|] == files;
  }

  /** A pass that stops at a file f has accounted for the files before it, has left the files
      after it untouched, and in f itself has changed nothing but `_attempts`. */
  lemma StoppedReplayKeepsTheRest(s0: Sweep, at: string, files: seq<Name>, plan: Name -> Plan, visits: seq<Visit>, s: Sweep, k: nat, f: Name)
    requires Fresh(s0, files) && Passed(s0, at, files, plan, visits, s) && !s.stop.Going?
    requires |visits| == k + 1 <= |files| && f == files[k]
    ensures CountsOk(s0.disk, at, files, k, s.result)
    ensures forall n | n in s0.disk && !Handled(files, k, n) && n != f :: Untouched(s0.disk, s.disk, n)
    ensures f in s0.disk && f in s.disk
    ensures Untouched(s0.disk, s.disk, f) || OnlyBumped(s0.disk, s.disk, f, visits[k].bumps)
  {
    hide VisitFits, Decide, QuarantineOk, CountsOk, Countable, Handled, Attempts, Passed, SweepOf;
    PassedAt(s0, at, files, plan, visits, s, k);
    var before := SweepOf(s0, at, files, visits, k);
    LedgerOfPass(s0, at, files, plan, visits, s, k);
    NotHandledYet(files, k);
    DecideDependsOnFile(s0.disk, before.disk, f, at);
    CountableHasCounter(before.disk, f);
  }

  /** The file holds the record it held, with `_attempts` raised by n and nothing else. */
  ghost predicate OnlyBumped(d: Directory, d': Directory, f: Name, n: nat) {
    && f in d' && Countable(d, f).Some? && Attempts(Countable(d, f).value).Some?
    && d'[f].content == Whole(Obj(Bumps(Countable(d, f).value, n)))
  }
}
