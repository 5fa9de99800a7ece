/** Delivery and replay together: the agent's own files never block the queue, so in an
    installation without foreign undecodable files every waiting report is served. */
module DeliveryFairness {
  import opened Wrappers
  import opened JsonValues
  import opened Files
  import opened PendingReports
  import opened Delivery
  import opened DeliverySafety
  import opened RetrySpec
  import opened ReplayFairness

  /** `_persisted_at` is a string, as a save writes it. */
  predicate Stamped(m: Object) {
    Get(m, PersistedAtKey, Null).Str?
  }

  predicate StampedFile(c: Content) {
    Load(c).Some? && Stamped(Load(c).value)
  }

  ghost predicate StampedPc(pc: Pc) {
    match pc
    case Opening(r, _) => Stamped(r)
    case Writing(r, _) => Stamped(r)
    case Replacing(r, _) => Stamped(r)
    case _ => true
  }

  /** Saved files and the records about to be written carry a stamp, and every listed file can
      be decoded. */
  ghost predicate StampsOk(s: State) {
    && (forall n | n in s.history.saved && n in s.disk :: StampedFile(s.disk[n].content))
    && (forall n | n in s.procs :: StampedPc(s.procs[n].pc))
  }

  ghost predicate Decodable(d: Directory) {
    forall n | n in d && IsJson(n) :: !d[n].content.Undecodable?
  }

  lemma BumpKeepsStamp(m: Object)
    requires Attempts(m).Some? && Stamped(m)
    ensures Stamped(Bump(m))
  {
    hide Attempts;
  }

  lemma StampOfSave(payload: Object, at: string)
    ensures Stamped(Persisted(payload, at))
  {
  }

  lemma StampsStepFresh(s: State, step: Step, s': State)
    requires Inv(s) && StampsOk(s) && Next(s, step, s') && (step.BeginSave? || step.LoadBump?)
    ensures forall n | n in s'.procs :: StampedPc(s'.procs[n].pc)
  {
    hide OriginsOk, DiskOk, ForeignOk, PhaseOk, RequestsOk, DashOk, SettledOk;
    hide WirePayload, IsWire, Attempts, Bump, Decide, Body, HasRequired, Persisted, ReportId, IsPayload, Load, Stamped, RecordOk;
    hide ReplaysHead, Renames, Sends, Answers, Halts;
    match step
    case BeginSave(_, payload, at) => StampOfSave(payload, at);
    case LoadBump(name) =>
      var record := if name in s.disk then Load(s.disk[name].content) else None;
      if record.Some? && Attempts(record.value).Some? {
        BumpKeepsStamp(record.value);
      }
  }

  lemma StampsStepProcs(s: State, step: Step, s': State)
    requires StampsOk(s) && Next(s, step, s') && !step.BeginSave? && !step.LoadBump?
    ensures forall n | n in s'.procs :: StampedPc(s'.procs[n].pc)
  {
    hide WirePayload, IsWire, Attempts, Bump, Decide, Body, HasRequired, Persisted, ReportId, IsPayload, Load, Stamped, Loads;
  }

  lemma StampsStepRename(s: State, name: Name, s': State)
    requires Inv(s) && StampsOk(s) && Decodable(s.disk) && Next(s, Replace(name), s')
    ensures forall n | n in s'.history.saved && n in s'.disk :: StampedFile(s'.disk[n].content)
    ensures Decodable(s'.disk)
  {
    hide OriginsOk, DiskOk, ForeignOk, PhaseOk, RequestsOk, DashOk, SettledOk;
    hide WirePayload, IsWire, Attempts, Bump, Body, HasRequired, Persisted, ReportId, IsPayload, Stamped, RecordOk;
    hide ReplaysHead, Loads, Sends, Answers, Halts;
    assert ProcOk(s.disk, s.remote, s.history, name, s.procs[name]);
    assert StampedPc(s.procs[name].pc);
  }

  lemma StampsStepRest(s: State, step: Step, s': State)
    requires Inv(s) && StampsOk(s) && Decodable(s.disk) && Next(s, step, s') && !step.Replace?
    ensures forall n | n in s'.history.saved && n in s'.disk :: StampedFile(s'.disk[n].content)
    ensures Decodable(s'.disk)
  {
    hide OriginsOk, DiskOk, ForeignOk, PhaseOk, RequestsOk, DashOk, SettledOk, ProcsOk, StampedFile;
    hide WirePayload, IsWire, Attempts, Bump, Decide, Body, HasRequired, Persisted, ReportId, IsPayload, Load, StampedPc;
    hide Renames, Loads;
    assert forall n | n in s.history.saved :: IsJson(n) by { hide *; SavedAreReports(s); }
  }

  lemma SavedAreReports(s: State)
    requires Inv(s)
    ensures forall n | n in s.history.saved :: IsJson(n)
  {
    hide DiskOk, ForeignOk, PhaseOk, RequestsOk, DashOk, SettledOk, ProcsOk, OriginsOk;
    OriginsAreReports(s.history);
  }

  lemma {:induction false} StampsOfRun(states: seq<State>, steps: seq<Step>, i: nat)
    requires IsRun(states, steps) && Init(states[0]) && Decodable(states[0].disk) && i <= |steps|
    ensures Inv(states[i]) && StampsOk(states[i]) && Decodable(states[i].disk)
  {
    hide Next, Inv, Init, Decodable;
    InvOfRun(states, steps, i);
    if i == 0 {
      StampsInit(states[0]);
    } else {
      hide StampsOk;
      StampsOfRun(states, steps, i - 1);
      StampsStep(states[i - 1], steps[i - 1], states[i]);
    }
  }

  lemma StampsInit(s: State)
    requires Init(s)
    ensures StampsOk(s)
  {
  }

  lemma StampsStep(s: State, step: Step, s': State)
    requires Inv(s) && StampsOk(s) && Decodable(s.disk) && Next(s, step, s')
    ensures StampsOk(s') && Decodable(s'.disk)
  {
    hide Inv, Next, Decodable, StampedFile, StampedPc;
    if step.BeginSave? || step.LoadBump? {
      StampsStepFresh(s, step, s');
    } else {
      StampsStepProcs(s, step, s');
    }
    match step
    case Replace(name) => StampsStepRename(s, name, s');
    case _ => StampsStepRest(s, step, s');
  }

  // ---- modification times ----

  ghost predicate WrittenBy(d: Directory, now: nat) {
    forall n | n in d :: d[n].mtime <= now
  }

  /** No two files written after t0 have one modification time. */
  ghost predicate TimesDiffer(d: Directory, t0: nat) {
    forall m, n | m in d && n in d && m != n && d[m].mtime > t0 :: d[m].mtime != d[n].mtime
  }

  /** The temporary file of an open write is younger than t0. */
  ghost predicate TmpYoung(d: Directory, n: Name, pc: Pc, t0: nat) {
    (pc.Writing? || pc.Replacing?) && TmpName(n) in d ==> d[TmpName(n)].mtime > t0
  }

  /** With t0 the time of installation: nothing is written in the future, saved reports are
      younger than the installation, and younger files all have different times. */
  ghost predicate TimesOk(s: State, t0: nat) {
    && t0 <= s.now
    && WrittenBy(s.disk, s.now) && TimesDiffer(s.disk, t0)
    && (forall n | n in s.history.saved && n in s.disk :: s.disk[n].mtime > t0)
    && forall n | n in s.procs :: TmpYoung(s.disk, n, s.procs[n].pc, t0)
  }

  /** A rename gives the name the time of its temporary file. */
  lemma CommitKeepsTimes(d: Directory, n: Name, now: nat, t0: nat)
    requires TmpName(n) in d && WrittenBy(d, now) && TimesDiffer(d, t0)
    ensures WrittenBy(Commit(d, n), now) && TimesDiffer(Commit(d, n), t0)
  {
  }

  lemma TimesStepRename(s: State, name: Name, s': State, t0: nat)
    requires TimesOk(s, t0) && Next(s, Replace(name), s')
    ensures TimesOk(s', t0)
  {
    hide WirePayload, IsWire, Attempts, Bump, Body, HasRequired, Persisted, ReportId, IsPayload, Load, Decide;
    hide ReplaysHead, Loads, Sends, Answers, Halts, TimesDiffer, WrittenBy;
    assert TmpYoung(s.disk, name, s.procs[name].pc, t0);
    CommitKeepsTimes(s.disk, name, s.now, t0);
  }

  /** A write at the next tick is younger than everything else. */
  lemma WriteIsYoungest(d: Directory, tmp: Name, c: Content, now: nat, t0: nat)
    requires t0 <= now && WrittenBy(d, now) && TimesDiffer(d, t0)
    ensures TimesDiffer(d[tmp := File(c, now + 1)], t0)
    ensures WrittenBy(d[tmp := File(c, now + 1)], now + 1)
  {
  }

  /** A step that writes to a temporary file does so at the next tick. */
  lemma WriteStep(s: State, step: Step, s': State) returns (tmp: Name, c: Content)
    requires Next(s, step, s') && (step.Open? || step.WritePart? || step.WriteAll?)
    ensures tmp == TmpName(step.name) && s'.disk == s.disk[tmp := File(c, s.now + 1)] && s'.now == s.now + 1
    ensures s'.history == s.history && step.name in s.procs
    ensures forall n | n in s'.procs && n != step.name :: n in s.procs && s'.procs[n] == s.procs[n]
  {
    hide ReplaysHead, Renames, Loads, Sends, Answers, Halts, IsPayload;
    tmp, c := TmpName(step.name), s'.disk[TmpName(step.name)].content;
  }

  lemma TimesStepWrite(s: State, step: Step, s': State, t0: nat)
    requires TimesOk(s, t0) && Next(s, step, s') && (step.Open? || step.WritePart? || step.WriteAll?)
    ensures TimesOk(s', t0)
  {
    hide Next, TimesDiffer;
    var tmp, c := WriteStep(s, step, s');
    WriteIsYoungest(s.disk, tmp, c, s.now, t0);
  }

  /** Files are only removed, and no write is under way that was not. */
  ghost predicate OnlyRemoves(s: State, s': State) {
    && s'.now == s.now && s'.history.saved == s.history.saved
    && (forall n | n in s'.disk :: n in s.disk && s'.disk[n] == s.disk[n])
    && forall n | n in s'.procs && (s'.procs[n].pc.Writing? || s'.procs[n].pc.Replacing?) ::
         n in s.procs && s'.procs[n] == s.procs[n]
  }

  lemma RestOnlyRemoves(s: State, step: Step, s': State)
    requires Next(s, step, s') && !step.Replace? && !step.Open? && !step.WritePart? && !step.WriteAll?
    ensures OnlyRemoves(s, s')
  {
    hide WirePayload, IsWire, Attempts, Bump, Body, HasRequired, Persisted, ReportId, IsPayload, Load, Decide;
    hide Renames;
  }

  lemma TimesStepRest(s: State, step: Step, s': State, t0: nat)
    requires TimesOk(s, t0) && Next(s, step, s')
    requires !step.Replace? && !step.Open? && !step.WritePart? && !step.WriteAll?
    ensures TimesOk(s', t0)
  {
    hide Next;
    RestOnlyRemoves(s, step, s');
  }

  lemma TimesStep(s: State, step: Step, s': State, t0: nat)
    requires TimesOk(s, t0) && Next(s, step, s')
    ensures TimesOk(s', t0)
  {
    hide *;
    match step
    case Replace(name) => TimesStepRename(s, name, s', t0);
    case Open(_) => TimesStepWrite(s, step, s', t0);
    case WritePart(_, _) => TimesStepWrite(s, step, s', t0);
    case WriteAll(_) => TimesStepWrite(s, step, s', t0);
    case _ => TimesStepRest(s, step, s', t0);
  }

  lemma TimesInit(s: State)
    requires Init(s)
    ensures TimesOk(s, s.now)
  {
  }

  lemma {:induction false} TimesOfRun(states: seq<State>, steps: seq<Step>, i: nat)
    requires IsRun(states, steps) && Init(states[0]) && i <= |steps|
    ensures TimesOk(states[i], states[0].now)
  {
    hide Next, Init, TimesOk;
    if i == 0 {
      TimesInit(states[0]);
    } else {
      TimesOfRun(states, steps, i - 1);
      TimesStep(states[i - 1], steps[i - 1], states[i], states[0].now);
    }
  }

  /** In every reachable state a saved report's file shares its modification time with no other
      file, so the listing gives it one place. */
  lemma SavedHasOwnTime(states: seq<State>, steps: seq<Step>, i: nat, f: Name)
    requires IsRun(states, steps) && Init(states[0]) && i <= |steps|
    requires f in states[i].history.saved && f in states[i].disk
    ensures OwnTime(states[i].disk, f)
  {
    hide Next, Init, TmpYoung;
    TimesOfRun(states, steps, i);
  }

  // ---- the theorems ----

  /** In every reachable state no file of the pending directory raises before its counter moves. */
  lemma NeverABlocker(states: seq<State>, steps: seq<Step>, i: nat, n: Name, at: string)
    requires IsRun(states, steps) && Init(states[0]) && Decodable(states[0].disk) && i <= |steps|
    requires n in states[i].disk && IsJson(n)
    ensures !Blocker(states[i].disk, n, at)
  {
    hide Next, Init, OriginsOk, PhaseOk, RequestsOk, DashOk, SettledOk, ProcsOk, WirePayload, Attempts, Less;
    StampsOfRun(states, steps, i);
    var s := states[i];
    if n in s.history.saved {
      assert StampedFile(s.disk[n].content);
    }
  }

  /** A file that replay neither quarantines nor skips is a saved report. */
  lemma LiveIsSaved(states: seq<State>, steps: seq<Step>, i: nat, f: Name, at: string)
    requires IsRun(states, steps) && Init(states[0]) && Decodable(states[0].disk) && i <= |steps|
    requires f in states[i].disk && Live(states[i].disk, f, at)
    ensures f in states[i].history.saved
  {
    hide Next, Init, OriginsOk, PhaseOk, RequestsOk, DashOk, SettledOk, ProcsOk, StampsOk, DiskOk, Truthy, Less;
    StampsOfRun(states, steps, i);
  }

  /** Hence no file can starve the agent's own reports: whatever state of the machine a start
      finds, over more starts than there are live files ahead of it, each getting to its first
      live file's attempt, a report is attempted. */
  lemma OwnReportsAreServed(states: seq<State>, steps: seq<Step>, i: nat, lives: seq<Life>, at: string, f: Name)
    requires IsRun(states, steps) && Init(states[0]) && Decodable(states[0].disk) && i <= |steps|
    requires Chain(lives, at) && lives != [] && lives[0].start.disk == Visible(states[i].disk)
    requires f in lives[0].start.disk && Live(lives[0].start.disk, f, at)
    requires |lives| > |Ahead(lives[0].start.disk, f, at)|
    ensures exists k | 0 <= k < |lives| :: Attempted(lives[k], f)
  {
    hide Next, Init, Chain, Attempted, Decide, Countable, Decodable;
    var d := lives[0].start.disk;
    forall n | n in d && IsJson(n)
      ensures !Blocker(d, n, at)
    {
      NeverABlocker(states, steps, i, n, at);
      VisibleSame(states[i].disk, n, at);
    }
    VisibleSame(states[i].disk, f, at);
    LiveIsSaved(states, steps, i, f, at);
    SavedHasOwnTime(states, steps, i, f);
    ServedIffNoBlockerAhead(lives, at, f);
  }

  lemma VisibleSame(d: Directory, n: Name, at: string)
    requires n in d && !IsTmp(n)
    ensures n in Visible(d) && Blocker(Visible(d), n, at) == Blocker(d, n, at) && Live(Visible(d), n, at) == Live(d, n, at)
  {
  }
}
