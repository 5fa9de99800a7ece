/** Whether a pending report is ever attempted again, over any number of process starts that
    may each end at their first failing report. */
module ReplayFairness {
  import opened Wrappers
  import opened JsonValues
  import opened Files
  import opened PendingReports
  import opened RetrySpec
  import opened Replay
  import opened ReplayLedger

  /** One process start: the state its replay finds, the directory scan, the files
      listed, what happens at each, the visits made, and the state the replay ends in. */
  datatype Life = Life(start: Sweep, order: seq<Name>, files: seq<Name>, plan: Name -> Plan, visits: seq<Visit>, end: Sweep)

  ghost predicate LifeOk(l: Life, at: string) {
    && l.start.result == ReplayResult(0, 0, 0) && l.start.stop.Going?
    && (forall n | n in l.start.disk :: !IsTmp(n) && l.start.disk[n].mtime <= l.start.now)
    && IsEnumeration(l.start.disk, l.order) && l.files == Listing(l.start.disk, l.order)
    && Passed(l.start, at, l.files, l.plan, l.visits, l.end)
  }

  /** Between two starts temporary files are cleaned up, and files are only added, each with a
      later write time. */
  ghost predicate Linked(l: Life, l': Life) {
    && l.end.now <= l'.start.now
    && (forall n | n in l.end.disk && !IsTmp(n) :: Untouched(l.end.disk, l'.start.disk, n))
    && forall n | n in l'.start.disk && n !in l.end.disk :: l'.start.disk[n].mtime > l.end.now
  }

  /** A file that replay neither quarantines nor skips as an orphan. */
  predicate Live(d: Directory, n: Name, at: string) {
    IsJson(n) && (Decide(d, n, at).Resubmit? || Decide(d, n, at).Unhandled?)
  }

  /** A live file that raises before its counter moves: its bytes are no UTF-8, `_persisted_at`
      is truthy and not a string, or `_attempts` is no integer. */
  predicate Blocker(d: Directory, n: Name, at: string) {
    Live(d, n, at) && (Decide(d, n, at).Unhandled? || Countable(d, n).None?)
  }

  predicate Eligible(d: Directory, n: Name, at: string) {
    Live(d, n, at) && !Blocker(d, n, at)
  }

  /** The live files that replay meets before f. */
  function Ahead(d: Directory, f: Name, at: string): set<Name>
    requires f in d
  {
    set n | n in d && Live(d, n, at) && d[n].mtime < d[f].mtime
  }

  ghost predicate OwnTime(d: Directory, f: Name) {
    f in d && forall n | n in d && IsJson(n) && n != f :: d[n].mtime != d[f].mtime
  }

  /** The j-th visit resubmits its file and bumps its counter. */
  predicate AttemptAt(l: Life, j: nat) {
    j < |l.visits| && !l.visits[j].shutdown && l.visits[j].bumps > 0
  }

  /** The pass handles f and bumps its counter. */
  ghost predicate Attempted(l: Life, f: Name)
  {
    exists j | 0 <= j < |l.visits| && j < |l.files| :: l.files[j] == f && AttemptAt(l, j)
  }

  /** The pass gets as far as its first live file: shutdown and the end of the process do not
      come before that file's first attempt. */
  ghost predicate ReachesLive(l: Life, at: string)
  {
    exists j | 0 <= j < |l.visits| && j < |l.files| ::
      && Live(l.start.disk, l.files[j], at)
      && (Eligible(l.start.disk, l.files[j], at) ==> AttemptAt(l, j))
      && !l.visits[j].shutdown
  }

  // ---- one pass ----

  lemma LifeIsFresh(l: Life, at: string)
    requires LifeOk(l, at)
    ensures Fresh(l.start, l.files) && |l.visits| <= |l.files| && NoRepeats(l.files)
    ensures MtimeSorted(l.start.disk, l.files)
    ensures forall n :: n in l.files <==> n in l.start.disk && IsJson(n)
  {
    hide Listing, SweepOf, VisitFits;
    ListingSpec(l.start.disk, l.order);
  }

  lemma {:induction false} NamesOnlyLeave(s: Sweep, at: string, files: seq<Name>, visits: seq<Visit>, j: nat, k: nat)
    requires j <= k <= |files| && k <= |visits|
    ensures forall n | n in SweepOf(s, at, files, visits, k).disk && !IsTmp(n) :: n in SweepOf(s, at, files, visits, j).disk
    ensures SweepOf(s, at, files, visits, j).now <= SweepOf(s, at, files, visits, k).now
  {
    hide Bumps, Attempts, Load;
    if j < k {
      NamesOnlyLeave(s, at, files, visits, j, k - 1);
    }
  }

  /** A file that is attempted is gone at the end of the pass, or newer than every file the
      pass found. */
  lemma AttemptMovesBack(l: Life, at: string, j: nat)
    requires LifeOk(l, at) && j < |l.visits| && j < |l.files| && AttemptAt(l, j)
    requires Eligible(l.start.disk, l.files[j], at)
    ensures l.files[j] !in l.end.disk || l.end.disk[l.files[j]].mtime > l.start.now
  {
    hide Decide, Countable, Attempts, Fresh, Ledger, Listing, SweepOf, Passed, VisitFits, IsEnumeration, MtimeSorted, QuarantineOk;
    LifeIsFresh(l, at);
    var f := l.files[j];
    var before := SweepOf(l.start, at, l.files, l.visits, j);
    PassedAt(l.start, at, l.files, l.plan, l.visits, l.end, j);
    UnvisitedSame(l, at, j);
    SweepOfNone(l.start, at, l.files, l.visits);
    NamesOnlyLeave(l.start, at, l.files, l.visits, 0, j);
    NamesOnlyLeave(l.start, at, l.files, l.visits, j + 1, |l.visits|);
    CountableHasCounter(before.disk, f);
    FinishedHasBumped(before, at, f, l.plan(f), l.visits[j]);
    if j + 1 < |l.visits| {
      PassedAt(l.start, at, l.files, l.plan, l.visits, l.end, j + 1);
    }
  }

  /** When the pass comes to its j-th file, that file is as the pass found it. */
  lemma UnvisitedSame(l: Life, at: string, j: nat)
    requires LifeOk(l, at) && j < |l.visits| && j < |l.files|
    ensures Untouched(l.start.disk, SweepOf(l.start, at, l.files, l.visits, j).disk, l.files[j])
    ensures Decide(SweepOf(l.start, at, l.files, l.visits, j).disk, l.files[j], at) == Decide(l.start.disk, l.files[j], at)
    ensures Countable(SweepOf(l.start, at, l.files, l.visits, j).disk, l.files[j]) == Countable(l.start.disk, l.files[j])
  {
    hide Decide, Countable, Attempts, Listing, SweepOf, Passed, VisitFits, IsEnumeration, MtimeSorted, QuarantineOk, VisitFile, Handled;
    LifeIsFresh(l, at);
    PassedAt(l.start, at, l.files, l.plan, l.visits, l.end, j);
    LedgerOfPass(l.start, at, l.files, l.plan, l.visits, l.end, j);
    NotHandledYet(l.files, j);
    DecideDependsOnFile(l.start.disk, SweepOf(l.start, at, l.files, l.visits, j).disk, l.files[j], at);
  }

  /** A live file whose counter is not moved is the last the pass comes to. */
  lemma UnbumpedIsLast(l: Life, at: string, j: nat)
    requires LifeOk(l, at) && j < |l.visits| && j < |l.files| && Live(l.start.disk, l.files[j], at)
    requires Blocker(l.start.disk, l.files[j], at) || !AttemptAt(l, j)
    ensures j + 1 == |l.visits| && Untouched(l.start.disk, l.end.disk, l.files[j])
    ensures !l.end.stop.Going?
  {
    hide Decide, Countable, Attempts, Fresh, Ledger, Listing, SweepOf, Passed, IsEnumeration, MtimeSorted, QuarantineOk, WirePayload, Admitted, StatusOf;
    LifeIsFresh(l, at);
    PassedAt(l.start, at, l.files, l.plan, l.visits, l.end, j);
    UnvisitedSame(l, at, j);
    if j + 1 < |l.visits| {
      PassedAt(l.start, at, l.files, l.plan, l.visits, l.end, j + 1);
    }
  }

  /** A file the pass does not come to is untouched at its end. */
  lemma UnreachedUntouched(l: Life, at: string, n: Name)
    requires LifeOk(l, at) && n in l.start.disk && n !in l.files[..|l.visits|]
    ensures Untouched(l.start.disk, l.end.disk, n)
  {
    hide Decide, Countable, Attempts, Fresh, Listing, SweepOf, Passed, IsEnumeration, MtimeSorted, QuarantineOk, VisitFits, VisitFile;
    LifeIsFresh(l, at);
    if l.end.stop.Going? {
      if l.visits == [] {
        SweepOfAll(l, at);
      } else {
        PassedAt(l.start, at, l.files, l.plan, l.visits, l.end, |l.visits| - 1);
      }
      LedgerOfPass(l.start, at, l.files, l.plan, l.visits, l.end, |l.visits|);
    } else {
      StoppedHasVisit(l.start, at, l.files, l.plan, l.visits, l.end);
      var k := |l.visits| - 1;
      NotHandledYet(l.files, k);
      StoppedReplayKeepsTheRest(l.start, at, l.files, l.plan, l.visits, l.end, k, l.files[k]);
    }
  }

  lemma SweepOfAll(l: Life, at: string)
    requires LifeOk(l, at)
    ensures |l.visits| <= |l.files| && l.end == SweepOf(l.start, at, l.files, l.visits, |l.visits|)
  {
    hide VisitFits, SweepOf;
  }

  /** Whatever is there at the end was there at the start, and is unchanged or newer than
      every file of the start. */
  lemma PassEffect(l: Life, at: string, n: Name)
    requires LifeOk(l, at) && n in l.end.disk && !IsTmp(n)
    ensures n in l.start.disk
    ensures Untouched(l.start.disk, l.end.disk, n) || l.end.disk[n].mtime > l.start.now
  {
    hide Decide, Countable, Attempts, Fresh, Listing, SweepOf, Passed, IsEnumeration, MtimeSorted, QuarantineOk, VisitFits, VisitFile, AfterLoop;
    LifeIsFresh(l, at);
    SweepOfAll(l, at);
    SweepOfNone(l.start, at, l.files, l.visits);
    NamesOnlyLeave(l.start, at, l.files, l.visits, 0, |l.visits|);
    if n !in l.files[..|l.visits|] {
      UnreachedUntouched(l, at, n);
    } else {
      var j :| 0 <= j < |l.visits| && l.files[j] == n;
      if Eligible(l.start.disk, n, at) && AttemptAt(l, j) {
        AttemptMovesBack(l, at, j);
      } else if Live(l.start.disk, n, at) {
        UnbumpedIsLast(l, at, j);
      } else {
        DeadFileStaysOrGoes(l, at, j);
      }
    }
  }

  /** An orphan is left as it is and a corrupt file leaves the directory. */
  lemma DeadFileStaysOrGoes(l: Life, at: string, j: nat)
    requires LifeOk(l, at) && j < |l.visits| && j < |l.files| && !Live(l.start.disk, l.files[j], at)
    ensures l.files[j] !in l.end.disk || Untouched(l.start.disk, l.end.disk, l.files[j])
  {
    hide Countable, Attempts, Fresh, Listing, SweepOf, Passed, IsEnumeration, MtimeSorted, QuarantineOk, VisitFits, AfterLoop, NoRepeats, Load, Truthy, Less;
    LifeIsFresh(l, at);
    SweepOfAll(l, at);
    var f, n := l.files[j], |l.visits|;
    assert f in l.files[..n];
    PassedAt(l.start, at, l.files, l.plan, l.visits, l.end, j);
    UnvisitedSame(l, at, j);
    if l.end.stop.Going? {
      LedgerOfPass(l.start, at, l.files, l.plan, l.visits, l.end, n);
    } else {
      var last := n - 1;
      PassedAt(l.start, at, l.files, l.plan, l.visits, l.end, last);
      if j == last {
        return;
      }
      LedgerOfPass(l.start, at, l.files, l.plan, l.visits, l.end, last);
      NotHandledYet(l.files, last);
      assert f in l.files[..last];
      OthersUnchanged(SweepOf(l.start, at, l.files, l.visits, last), at, l.files[last], l.visits[last], f);
    }
  }

  lemma OthersUnchanged(s: Sweep, at: string, name: Name, v: Visit, n: Name)
    requires n != name && n != TmpName(name)
    ensures n in VisitFile(s, at, name, v).disk <==> n in s.disk
    ensures n in s.disk ==> VisitFile(s, at, name, v).disk[n] == s.disk[n]
  {
    hide Decide, Countable, Attempts;
  }

  // ---- from one start to the next ----

  /** A file that is not attempted in a pass is the same file at the next start. */
  lemma UnattemptedStays(l: Life, l': Life, at: string, f: Name)
    requires LifeOk(l, at) && LifeOk(l', at) && Linked(l, l')
    requires f in l.start.disk && Live(l.start.disk, f, at)
    requires Blocker(l.start.disk, f, at) || !Attempted(l, f)
    ensures Untouched(l.start.disk, l.end.disk, f) && Untouched(l.start.disk, l'.start.disk, f)
    ensures Live(l'.start.disk, f, at)
    ensures Blocker(l'.start.disk, f, at) <==> Blocker(l.start.disk, f, at)
  {
    hide Decide, Countable, Passed, Listing, IsEnumeration;
    LifeIsFresh(l, at);
    if f in l.files[..|l.visits|] {
      var j :| 0 <= j < |l.visits| && l.files[j] == f;
      UnbumpedIsLast(l, at, j);
    } else {
      UnreachedUntouched(l, at, f);
    }
    DecideDependsOnFile(l.start.disk, l'.start.disk, f, at);
  }

  /** What is ahead of an unattempted file at the next start was ahead of it at this one. */
  lemma AheadOnlyShrinks(l: Life, l': Life, at: string, f: Name)
    requires LifeOk(l, at) && LifeOk(l', at) && Linked(l, l')
    requires f in l.start.disk && Untouched(l.start.disk, l'.start.disk, f)
    ensures Ahead(l'.start.disk, f, at) <= Ahead(l.start.disk, f, at)
    ensures forall n | n in Ahead(l'.start.disk, f, at) ::
      && n in l.end.disk && Untouched(l.start.disk, l'.start.disk, n)
      && (Blocker(l'.start.disk, n, at) <==> Blocker(l.start.disk, n, at))
    ensures OwnTime(l.start.disk, f) ==> OwnTime(l'.start.disk, f)
  {
    hide Decide, Countable, Passed, Listing, IsEnumeration;
    LifeIsFresh(l, at);
    SweepOfAll(l, at);
    NowOnlyGrows(l, at);
    forall n | n in Ahead(l'.start.disk, f, at)
      ensures n in l.end.disk && Untouched(l.start.disk, l'.start.disk, n) && n in Ahead(l.start.disk, f, at)
      ensures Blocker(l'.start.disk, n, at) <==> Blocker(l.start.disk, n, at)
    {
      PassEffect(l, at, n);
      DecideDependsOnFile(l.start.disk, l'.start.disk, n, at);
    }
    if OwnTime(l.start.disk, f) {
      forall n | n in l'.start.disk && IsJson(n) && n != f
        ensures l'.start.disk[n].mtime != l'.start.disk[f].mtime
      {
        if n in l.end.disk {
          PassEffect(l, at, n);
        }
      }
    }
  }

  lemma NowOnlyGrows(l: Life, at: string)
    requires LifeOk(l, at)
    ensures l.start.now <= l.end.now
  {
    hide VisitFile, SweepOf, VisitFits, Listing, IsEnumeration;
    SweepOfNone(l.start, at, l.files, l.visits);
    NamesOnlyLeave(l.start, at, l.files, l.visits, 0, |l.visits|);
  }

  ghost predicate NoBlockerAhead(d: Directory, f: Name, at: string)
    requires f in d
  {
    forall n | n in Ahead(d, f, at) :: !Blocker(d, n, at)
  }

  /** A pass that gets to its first live file and does not attempt f attempts one ahead of f,
      which is behind f ever after. */
  lemma AheadShrinks(l: Life, l': Life, at: string, f: Name)
    requires LifeOk(l, at) && LifeOk(l', at) && Linked(l, l') && ReachesLive(l, at)
    requires f in l.start.disk && Eligible(l.start.disk, f, at) && OwnTime(l.start.disk, f)
    requires NoBlockerAhead(l.start.disk, f, at) && !Attempted(l, f)
    ensures Untouched(l.start.disk, l'.start.disk, f)
    ensures Eligible(l'.start.disk, f, at) && OwnTime(l'.start.disk, f) && NoBlockerAhead(l'.start.disk, f, at)
    ensures |Ahead(l'.start.disk, f, at)| < |Ahead(l.start.disk, f, at)|
  {
    hide LifeOk, Linked, ReachesLive, Eligible, Attempted, Decide, Countable;
    var g := PassTakesOneAhead(l, at, f);
    QueueAfterPass(l, l', at, f);
    LeftTheQueue(l, l', at, f, g);
    SmallerSubset(Ahead(l'.start.disk, f, at), Ahead(l.start.disk, f, at), g);
  }

  /** f and the files ahead of it at the next start are as they were at this one. */
  lemma QueueAfterPass(l: Life, l': Life, at: string, f: Name)
    requires LifeOk(l, at) && LifeOk(l', at) && Linked(l, l')
    requires f in l.start.disk && Eligible(l.start.disk, f, at) && OwnTime(l.start.disk, f)
    requires NoBlockerAhead(l.start.disk, f, at) && !Attempted(l, f)
    ensures Untouched(l.start.disk, l'.start.disk, f) && Eligible(l'.start.disk, f, at) && OwnTime(l'.start.disk, f)
    ensures Ahead(l'.start.disk, f, at) <= Ahead(l.start.disk, f, at) && NoBlockerAhead(l'.start.disk, f, at)
  {
    hide LifeOk, Linked, Attempted, Decide, Countable, OwnTime;
    UnattemptedStays(l, l', at, f);
    AheadOnlyShrinks(l, l', at, f);
  }

  /** A file ahead of f that the pass bumps and leaves behind f, or removes. */
  lemma PassTakesOneAhead(l: Life, at: string, f: Name) returns (g: Name)
    requires LifeOk(l, at) && ReachesLive(l, at)
    requires f in l.start.disk && Eligible(l.start.disk, f, at) && OwnTime(l.start.disk, f)
    requires NoBlockerAhead(l.start.disk, f, at) && !Attempted(l, f)
    ensures g in Ahead(l.start.disk, f, at)
    ensures g !in l.end.disk || l.end.disk[g].mtime > l.start.now
  {
    hide Decide, Countable, LifeOk, OwnTime, Attempted, AttemptAt, Blocker;
    var j :| 0 <= j < |l.visits| && j < |l.files| && Live(l.start.disk, l.files[j], at)
      && (Eligible(l.start.disk, l.files[j], at) ==> AttemptAt(l, j)) && !l.visits[j].shutdown;
    LifeIsFresh(l, at);
    g := l.files[j];
    FirstLiveIsAhead(l, at, f, j);
    AttemptMovesBack(l, at, j);
  }

  lemma LeftTheQueue(l: Life, l': Life, at: string, f: Name, g: Name)
    requires LifeOk(l, at) && Linked(l, l') && g in l.start.disk
    requires g !in l.end.disk || l.end.disk[g].mtime > l.start.now
    requires f in l.start.disk && Untouched(l.start.disk, l'.start.disk, f)
    ensures g !in Ahead(l'.start.disk, f, at)
  {
    hide Decide, Countable, Passed, Listing, IsEnumeration;
    NowOnlyGrows(l, at);
  }

  lemma SmallerSubset(a: set<Name>, b: set<Name>, x: Name)
    requires a <= b && x in b && x !in a
    ensures |a| < |b|
  {
    assert |b| == |a| + |b - a|;
  }

  lemma FirstLiveIsAhead(l: Life, at: string, f: Name, j: nat)
    requires LifeOk(l, at) && j < |l.visits| && j < |l.files|
    requires f in l.start.disk && Eligible(l.start.disk, f, at) && OwnTime(l.start.disk, f) && !Attempted(l, f)
    requires Eligible(l.start.disk, l.files[j], at) ==> AttemptAt(l, j)
    ensures l.start.disk[l.files[j]].mtime < l.start.disk[f].mtime
  {
    hide Decide, Countable, Passed, Listing, IsEnumeration;
    LifeIsFresh(l, at);
    var i :| 0 <= i < |l.files| && l.files[i] == f;
    if i < j {
      UnbumpedIsLast(l, at, i);
    }
    assert i != j;
  }

  /** Linked starts, each of whose passes gets to its first live file. */
  ghost predicate Chain(lives: seq<Life>, at: string) {
    && (forall i | 0 <= i < |lives| :: LifeOk(lives[i], at) && ReachesLive(lives[i], at))
    && forall i | 0 <= i < |lives| - 1 :: Linked(lives[i], lives[i + 1])
  }

  /** While f waits unattempted with no blocker ahead, each start but the last takes one file
      from the head of the queue. */
  lemma {:induction false} WaitIsBounded(lives: seq<Life>, at: string, f: Name, k: nat)
    requires Chain(lives, at) && k < |lives|
    requires f in lives[0].start.disk && Eligible(lives[0].start.disk, f, at) && OwnTime(lives[0].start.disk, f)
    requires NoBlockerAhead(lives[0].start.disk, f, at)
    requires forall i | 0 <= i < k :: !Attempted(lives[i], f)
    ensures f in lives[k].start.disk && Eligible(lives[k].start.disk, f, at) && OwnTime(lives[k].start.disk, f)
    ensures NoBlockerAhead(lives[k].start.disk, f, at)
    ensures |Ahead(lives[k].start.disk, f, at)| + k <= |Ahead(lives[0].start.disk, f, at)|
  {
    hide LifeOk, ReachesLive, Linked, Eligible, OwnTime, NoBlockerAhead, Ahead, Attempted;
    if k > 0 {
      WaitIsBounded(lives, at, f, k - 1);
      assert Linked(lives[k - 1], lives[k - 1 + 1]);
      AheadShrinks(lives[k - 1], lives[k], at, f);
    }
  }

  /** With a blocker ahead of it, f is never attempted and the blocker never leaves. */
  lemma {:induction false} BlockedForEver(lives: seq<Life>, at: string, f: Name, b: Name, k: nat)
    requires (forall i | 0 <= i < |lives| :: LifeOk(lives[i], at))
    requires (forall i | 0 <= i < |lives| - 1 :: Linked(lives[i], lives[i + 1])) && k < |lives|
    requires f in lives[0].start.disk && Live(lives[0].start.disk, f, at)
    requires b in Ahead(lives[0].start.disk, f, at) && Blocker(lives[0].start.disk, b, at)
    ensures f in lives[k].start.disk && Live(lives[k].start.disk, f, at)
    ensures b in Ahead(lives[k].start.disk, f, at) && Blocker(lives[k].start.disk, b, at)
    ensures !Attempted(lives[k], f)
  {
    hide LifeOk, Linked, Decide, Countable;
    if k > 0 {
      BlockedForEver(lives, at, f, b, k - 1);
      assert Linked(lives[k - 1], lives[k - 1 + 1]);
      UnattemptedStays(lives[k - 1], lives[k], at, f);
      UnattemptedStays(lives[k - 1], lives[k], at, b);
    }
    BlockerStopsThePass(lives[k], at, f, b);
  }

  lemma BlockerStopsThePass(l: Life, at: string, f: Name, b: Name)
    requires LifeOk(l, at) && f in l.start.disk && Live(l.start.disk, f, at)
    requires b in Ahead(l.start.disk, f, at) && Blocker(l.start.disk, b, at)
    ensures !Attempted(l, f)
  {
    hide Decide, Countable, Passed, Listing, IsEnumeration;
    LifeIsFresh(l, at);
    var i :| 0 <= i < |l.files| && l.files[i] == b;
    forall j | 0 <= j < |l.visits| && j < |l.files| && l.files[j] == f
      ensures false
    {
      if i < j {
        UnbumpedIsLast(l, at, i);
      }
    }
  }

  /** Exactly when a pending report is served. Take more starts than there are live files
      ahead of f, each getting to its first live file, whatever then becomes of the calls.
      Some start attempts f if and only if no file ahead of f, at the first of them, raises
      before its own counter moves. */
  lemma ServedIffNoBlockerAhead(lives: seq<Life>, at: string, f: Name)
    requires Chain(lives, at) && lives != []
    requires f in lives[0].start.disk && Eligible(lives[0].start.disk, f, at) && OwnTime(lives[0].start.disk, f)
    requires |lives| > |Ahead(lives[0].start.disk, f, at)|
    ensures (exists k | 0 <= k < |lives| :: Attempted(lives[k], f)) <==> NoBlockerAhead(lives[0].start.disk, f, at)
  {
    hide LifeOk, ReachesLive, Linked, OwnTime, Ahead, Attempted, Decide, Countable;
    if NoBlockerAhead(lives[0].start.disk, f, at) {
      if forall k | 0 <= k < |lives| :: !Attempted(lives[k], f) {
        var last := |lives| - 1;
        WaitIsBounded(lives, at, f, last);
        HeadIsAttempted(lives[last], at, f);
      }
    } else {
      var b :| b in Ahead(lives[0].start.disk, f, at) && Blocker(lives[0].start.disk, b, at);
      forall k | 0 <= k < |lives| ensures !Attempted(lives[k], f) {
        BlockedForEver(lives, at, f, b, k);
      }
    }
  }

  /** With nothing live ahead of it, f is attempted. */
  lemma HeadIsAttempted(l: Life, at: string, f: Name)
    requires LifeOk(l, at) && ReachesLive(l, at)
    requires f in l.start.disk && Eligible(l.start.disk, f, at) && OwnTime(l.start.disk, f)
    requires |Ahead(l.start.disk, f, at)| == 0
    ensures Attempted(l, f)
  {
    hide Decide, Countable, LifeOk, ReachesLive, OwnTime, Attempted, Eligible;
    if !Attempted(l, f) {
      var g := PassTakesOneAhead(l, at, f);
    }
  }

  // ---- starvation does happen ----

  const NULL_COUNTER: Object := Object(map[AttemptsKey := Null])
  const FRESH_COUNTER: Object := Object(map[AttemptsKey := Num(0)])
  const POISON: Name := Report("a")
  const WAITING: Name := Report("b")

  /** Two reports; `_attempts` of the older one is JSON null. */
  function PoisonedDisk(): Directory {
    map[POISON := File(Whole(Obj(NULL_COUNTER)), 1), WAITING := File(Whole(Obj(FRESH_COUNTER)), 2)]
  }

  function PoisonedLife(): Life {
    var start := Sweep(PoisonedDisk(), map[], 2, ReplayResult(0, 0, 0), Going);
    Life(start, [POISON, WAITING], [POISON, WAITING],
         (n: Name) => Plan(false, "", [Attempt(NoFault, Vanishes, false, false)]),
         [Visit(false, "", 0, NoFault, Raised(false))], start.(stop := Errored(false)))
  }

  lemma PoisonDecisions()
    ensures Decide(PoisonedDisk(), POISON, "") == Resubmit(NULL_COUNTER) && Countable(PoisonedDisk(), POISON).None?
    ensures Decide(PoisonedDisk(), WAITING, "") == Resubmit(FRESH_COUNTER) && Countable(PoisonedDisk(), WAITING).Some?
  {
  }

  lemma PoisonListing()
    ensures Listing(PoisonedDisk(), [POISON, WAITING]) == [POISON, WAITING]
  {
    var d, order := PoisonedDisk(), [POISON, WAITING];
    assert order[..1] == [POISON] && [POISON][..0] == [];
    assert OnlyJson([POISON]) == [POISON];
    assert OnlyJson(order) == order;
    assert order[1..] == [WAITING] && [WAITING][1..] == [];
    assert SortByMtime(d, [WAITING]) == [WAITING];
  }

  lemma PoisonEnumerated()
    ensures IsEnumeration(PoisonedDisk(), [POISON, WAITING])
  {
  }

  lemma PoisonPass()
    ensures var l := PoisonedLife(); Passed(l.start, "", l.files, l.plan, l.visits, l.end)
  {
    hide Decide, Countable, WirePayload, HasRequired, Admitted, AfterRounds, Attempts;
    PoisonDecisions();
    var l := PoisonedLife();
    assert StopsAt(l.start.disk, POISON, WirePayload(NULL_COUNTER), l.plan(POISON).rounds, false, Raised(false), 0, NoFault);
    assert VisitFits(l.start, "", POISON, l.plan(POISON), l.visits[0]);
    AfterRoundsStep(l.start.disk, POISON, 0, l.start.now, l.start.now);
    assert SweepOf(l.start, "", l.files, l.visits, 1) == VisitFile(SweepOf(l.start, "", l.files, l.visits, 0), "", POISON, l.visits[0]);
  }

  lemma PoisonedLifeOk()
    ensures LifeOk(PoisonedLife(), "") && Linked(PoisonedLife(), PoisonedLife()) && ReachesLive(PoisonedLife(), "")
    ensures Live(PoisonedDisk(), POISON, "") && Live(PoisonedDisk(), WAITING, "")
    ensures Blocker(PoisonedDisk(), POISON, "") && Eligible(PoisonedDisk(), WAITING, "") && OwnTime(PoisonedDisk(), WAITING)
  {
    hide Decide, Countable, Passed, Listing, IsEnumeration;
    PoisonDecisions();
    PoisonEnumerated();
    PoisonListing();
    PoisonPass();
    assert PoisonedLife().files[0] == POISON;
  }

  /** Starvation is real: with a null counter in the oldest file the younger report is not
      attempted in any number of starts. */
  lemma PoisonStarves(starts: nat) returns (lives: seq<Life>)
    requires starts > 0
    ensures |lives| == starts && Chain(lives, "") && lives[0].start.disk == PoisonedDisk()
    ensures Eligible(PoisonedDisk(), WAITING, "") && OwnTime(PoisonedDisk(), WAITING)
    ensures forall k | 0 <= k < starts :: !Attempted(lives[k], WAITING)
  {
    hide LifeOk, Linked, ReachesLive, Blocker, Eligible, OwnTime, Attempted;
    PoisonedLifeOk();
    lives := seq(starts, (i: nat) => PoisonedLife());
    forall k | 0 <= k < starts
      ensures !Attempted(lives[k], WAITING)
    {
      BlockedForEver(lives, "", WAITING, POISON, k);
    }
  }
}
