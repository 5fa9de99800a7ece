/** No report is lost and none is accepted twice, in every reachable state. */
module DeliverySafety {
  import opened Wrappers
  import opened JsonValues
  import opened Files
  import opened PendingReports
  import opened Delivery

  /** `p` is the payload first submitted under the file name `name`. */
  ghost predicate Originates(name: Name, p: Object) {
    IsWire(p) && ReportId(p).Str? && name == Report(ReportId(p).s)
  }

  /** The file `name` holds the report with all its original wire fields. */
  ghost predicate OnDisk(disk: Directory, h: History, name: Name) {
    && name in disk && name in h.origin
    && Load(disk[name].content).Some?
    && WirePayload(Load(disk[name].content).value) == h.origin[name]
  }

  /** The dashboard accepted the report exactly as first submitted. */
  predicate AcceptedIntact(r: Remote, h: History, name: Name) {
    name in h.origin && h.origin[name] in r.accepted
  }

  // ---- the invariant ----

  ghost predicate OriginsOk(h: History) {
    && h.saved <= h.origin.Keys
    && forall n | n in h.origin :: Originates(n, h.origin[n])
  }

  /** Files of saved reports parse and keep their payload. */
  ghost predicate DiskOk(disk: Directory, h: History) {
    forall n | n in h.saved && n in disk ::
      OnDisk(disk, h, n) && Attempts(Load(disk[n].content).value).Some?
  }

  /** Any other `.json` file does not parse, and belongs to no report. */
  ghost predicate ForeignOk(disk: Directory, h: History) {
    forall n | n in disk && n !in h.saved ::
      n !in h.origin && (IsJson(n) ==> Load(disk[n].content).None?)
  }

  ghost predicate RecordOk(disk: Directory, h: History, n: Name, record: Object, initial: bool) {
    && n in h.origin && WirePayload(record) == h.origin[n] && Attempts(record).Some?
    && if initial then n !in h.saved else n in h.saved && n in disk
  }

  ghost predicate ProcOk(disk: Directory, r: Remote, h: History, n: Name, p: Proc) {
    && n in h.origin && p.wire == h.origin[n]
    && match p.pc
       case Opening(record, f) => RecordOk(disk, h, n, record, f)
       case Writing(record, f) => RecordOk(disk, h, n, record, f) && TmpName(n) in disk
       case Replacing(record, f) =>
         && RecordOk(disk, h, n, record, f)
         && TmpName(n) in disk && disk[TmpName(n)].content == Whole(Obj(record))
       case Waiting(k, _) =>
         n in h.saved && n in disk && k < |r.requests| && r.requests[k].name == n
       case Deleting => n in h.saved && n in disk && n in h.settled
       case _ => n in h.saved && n in disk
  }

  ghost predicate ProcsOk(disk: Directory, procs: map<Name, Proc>, r: Remote, h: History) {
    forall n | n in procs :: ProcOk(disk, r, h, n, procs[n])
  }

  ghost predicate PhaseOk(phase: Phase, procs: map<Name, Proc>) {
    && (phase.Down? || phase.Cleaning? ==> procs == map[])
    && (phase.Replaying? ==> forall n | n in phase.todo :: IsJson(n))
    && (phase.Replaying? ==> forall a, b | a in procs && b in procs :: a == b)
  }

  ghost predicate RequestsOk(r: Remote, h: History) {
    && (forall k | 0 <= k < |r.requests| ::
          && r.requests[k].name in h.saved && r.requests[k].name in h.origin
          && r.requests[k].body == h.origin[r.requests[k].name])
    && forall k, a | (k, a) in r.answers :: k < |r.requests| && r.requests[k].name in h.settled
  }

  ghost predicate AcceptedOk(r: Remote, h: History, body: Object) {
    var id := ReportId(body);
    id in r.seen && id.Str? && Report(id.s) in h.saved
    && Report(id.s) in h.origin && h.origin[Report(id.s)] == body
  }

  /** The dashboard has seen exactly the ids it accepted, each once and intact. */
  ghost predicate DashOk(r: Remote, h: History) {
    && (forall i | 0 <= i < |r.accepted| :: AcceptedOk(r, h, r.accepted[i]))
    && (forall id | id in r.seen :: id.Str? && AcceptedIntact(r, h, Report(id.s)))
    && (forall i, j | 0 <= i < j < |r.accepted| :: ReportId(r.accepted[i]) != ReportId(r.accepted[j]))
  }

  /** A settled report was accepted intact or rejected. */
  ghost predicate AnswersOk(r: Remote, h: History) {
    forall n | n in h.settled :: AcceptedIntact(r, h, n) || n in h.rejected
  }

  /** A saved report that is not settled is on disk. */
  ghost predicate KeptOk(disk: Directory, h: History) {
    forall n | n in h.saved :: n in disk || n in h.settled
  }

  ghost predicate SettledOk(disk: Directory, r: Remote, h: History) {
    AnswersOk(r, h) && KeptOk(disk, h)
  }

  ghost predicate Inv(s: State) {
    && OriginsOk(s.history)
    && DiskOk(s.disk, s.history)
    && ForeignOk(s.disk, s.history)
    && ProcsOk(s.disk, s.procs, s.remote, s.history)
    && PhaseOk(s.phase, s.procs)
    && RequestsOk(s.remote, s.history)
    && DashOk(s.remote, s.history)
    && SettledOk(s.disk, s.remote, s.history)
  }

  lemma InvInit(s: State)
    requires Init(s)
    ensures Inv(s)
  {
  }

  // ---- one lemma per conjunct, each over every step ----

  lemma OriginsAreReports(h: History)
    requires OriginsOk(h)
    ensures h.saved <= h.origin.Keys && forall n | n in h.origin :: IsJson(n)
  {
  }

  lemma PhaseStep(s: State, step: Step, s': State)
    requires Inv(s) && Next(s, step, s')
    ensures PhaseOk(s'.phase, s'.procs)
  {
    hide OriginsOk, DiskOk, ForeignOk, ProcsOk, RequestsOk, DashOk, SettledOk;
    hide WirePayload, IsWire, Attempts, ReportId, HasRequired, Body, Bump, Load, Decide, IsPayload;
    if step.ListPending? {
      ListingSpec(s.disk, step.order);
    }
  }

  lemma OriginsStepSave(s: State, step: Step, s': State)
    requires Inv(s) && Next(s, step, s') && step.BeginSave?
    ensures OriginsOk(s'.history)
  {
    hide ReplaysHead, Loads, Renames, Sends, Answers, Halts;
    hide DiskOk, ForeignOk, SettledOk, PhaseOk, DashOk, RequestsOk, ProcsOk;
    hide WirePayload, IsWire, Attempts, Bump, Load, Decide, Body, HasRequired, Persisted;
  }

  lemma OriginsStepRest(s: State, step: Step, s': State)
    requires Inv(s) && Next(s, step, s') && !step.BeginSave?
    ensures OriginsOk(s'.history)
  {
    hide DiskOk, ForeignOk, SettledOk, PhaseOk, DashOk, RequestsOk, RecordOk, Originates;
    hide WirePayload, IsWire, Attempts, Bump, Load, Decide, Body, HasRequired, Persisted, ReportId;
  }

  lemma OriginsStep(s: State, step: Step, s': State)
    requires Inv(s) && Next(s, step, s')
    ensures OriginsOk(s'.history)
  {
    hide *;
    if step.BeginSave? {
      OriginsStepSave(s, step, s');
    } else {
      OriginsStepRest(s, step, s');
    }
  }

  lemma RequestsStepSend(s: State, name: Name, s': State)
    requires Inv(s) && Next(s, Send(name), s')
    ensures RequestsOk(s'.remote, s'.history)
  {
    hide ReplaysHead, Loads, Renames, Answers, Halts;
    hide DiskOk, ForeignOk, SettledOk, PhaseOk, DashOk, ReportId, IsPayload;
    hide WirePayload, IsWire, Attempts, Bump, Load, Decide, Body, HasRequired, Persisted;
    BodyOfPayload(s.procs[name].wire);
  }

  lemma RequestsStepRest(s: State, step: Step, s': State)
    requires Inv(s) && Next(s, step, s') && !step.Send?
    ensures RequestsOk(s'.remote, s'.history)
  {
    hide ReplaysHead, Loads, Sends;
    hide DiskOk, ForeignOk, SettledOk, PhaseOk, DashOk, ProcsOk, ReportId, IsPayload;
    hide WirePayload, IsWire, Attempts, Bump, Load, Decide, Body, HasRequired, Persisted;
  }

  lemma RequestsStep(s: State, step: Step, s': State)
    requires Inv(s) && Next(s, step, s')
    ensures RequestsOk(s'.remote, s'.history)
  {
    hide *;
    match step
    case Send(name) => RequestsStepSend(s, name, s');
    case _ => RequestsStepRest(s, step, s');
  }

  lemma DashStep(s: State, step: Step, s': State)
    requires Inv(s) && Next(s, step, s')
    ensures DashOk(s'.remote, s'.history)
  {
    hide DiskOk, ForeignOk, SettledOk, PhaseOk, ProcsOk;
    hide WirePayload, IsWire, Attempts, Bump, Load, Decide, Body, HasRequired, Persisted, IsPayload, ReportId;
  }

  lemma DiskStepRename(s: State, step: Step, s': State)
    requires Inv(s) && Next(s, step, s') && step.Replace?
    ensures DiskOk(s'.disk, s'.history) && ForeignOk(s'.disk, s'.history)
  {
    hide ReplaysHead, Loads, Sends, Answers, Halts;
    hide DashOk, RequestsOk, SettledOk, PhaseOk;
    hide WirePayload, IsWire, Attempts, ReportId, HasRequired, Body, Bump, IsPayload;
  }

  lemma DiskStepRest(s: State, step: Step, s': State)
    requires Inv(s) && Next(s, step, s') && !step.Replace?
    ensures DiskOk(s'.disk, s'.history)
  {
    hide Renames, Loads;
    hide DashOk, RequestsOk, SettledOk, PhaseOk, ProcsOk, ForeignOk;
    hide WirePayload, IsWire, Attempts, ReportId, HasRequired, Body, Bump, IsPayload, Load, Decide;
  }

  lemma ForeignStepRest(s: State, step: Step, s': State)
    requires Inv(s) && Next(s, step, s') && !step.Replace?
    ensures ForeignOk(s'.disk, s'.history)
  {
    hide Renames, Loads;
    hide DashOk, RequestsOk, SettledOk, PhaseOk, DiskOk, RecordOk, OriginsOk;
    hide WirePayload, IsWire, Attempts, ReportId, HasRequired, Body, Bump, IsPayload, Load, Decide, Persisted;
    OriginsAreReports(s.history);
  }

  lemma DiskStep(s: State, step: Step, s': State)
    requires Inv(s) && Next(s, step, s')
    ensures DiskOk(s'.disk, s'.history) && ForeignOk(s'.disk, s'.history)
  {
    hide *;
    if step.Replace? {
      DiskStepRename(s, step, s');
    } else {
      DiskStepRest(s, step, s');
      ForeignStepRest(s, step, s');
    }
  }

  lemma AnswersStep(s: State, step: Step, s': State)
    requires Inv(s) && Next(s, step, s')
    ensures AnswersOk(s'.remote, s'.history)
  {
    hide PhaseOk, DiskOk, ForeignOk, ProcsOk, KeptOk;
    hide WirePayload, IsWire, Attempts, HasRequired, Body, Bump, IsPayload, Persisted, Load, Decide;
  }

  lemma KeptStepReplay(s: State, step: Step, s': State)
    requires Inv(s) && Next(s, step, s') && step.ReplayNext?
    ensures KeptOk(s'.disk, s'.history)
  {
    hide Loads, Renames, Sends, Answers, Halts;
    hide PhaseOk, DashOk, RequestsOk, ForeignOk, AnswersOk, ProcsOk, OriginsOk;
    hide WirePayload, IsWire, Attempts, HasRequired, Body, Bump, IsPayload, Persisted, ReportId, Load;
  }

  lemma KeptStepUnlink(s: State, step: Step, s': State)
    requires Inv(s) && Next(s, step, s') && step.Unlink?
    ensures KeptOk(s'.disk, s'.history)
  {
    hide ReplaysHead, Loads, Renames, Sends, Answers, Halts;
    hide PhaseOk, DashOk, RequestsOk, ForeignOk, AnswersOk, DiskOk, OriginsOk, RecordOk;
    hide WirePayload, IsWire, Attempts, HasRequired, Body, Bump, IsPayload, Persisted, ReportId, Load, Decide;
  }

  lemma KeptStepRest(s: State, step: Step, s': State)
    requires Inv(s) && Next(s, step, s') && !step.ReplayNext? && !step.Unlink?
    ensures KeptOk(s'.disk, s'.history)
  {
    hide ReplaysHead;
    hide PhaseOk, DashOk, RequestsOk, ForeignOk, AnswersOk, DiskOk, ProcsOk, OriginsOk;
    hide WirePayload, IsWire, Attempts, HasRequired, Body, Bump, IsPayload, Persisted, ReportId, Load, Decide;
    OriginsAreReports(s.history);
  }

  lemma SettledStep(s: State, step: Step, s': State)
    requires Inv(s) && Next(s, step, s')
    ensures SettledOk(s'.disk, s'.remote, s'.history)
  {
    hide Inv, Next, AnswersOk, KeptOk;
    AnswersStep(s, step, s');
    if step.ReplayNext? {
      KeptStepReplay(s, step, s');
    } else if step.Unlink? {
      KeptStepUnlink(s, step, s');
    } else {
      KeptStepRest(s, step, s');
    }
  }

  // ---- the submitters, by the kind of step ----

  lemma ProcsStepLife(s: State, step: Step, s': State)
    requires Inv(s) && Next(s, step, s')
    requires step.Start? || step.CleanTmp? || step.ListPending? || step.ReplayFails? || step.ReplayDone? || step.Halt? || step.Process?
    ensures ProcsOk(s'.disk, s'.procs, s'.remote, s'.history)
  {
    hide ReplaysHead, Loads, Renames, Sends;
    hide DashOk, SettledOk, DiskOk, ForeignOk, OriginsOk;
    hide WirePayload, IsWire, Attempts, ReportId, HasRequired, Body, Bump, Persisted, Load, Decide, IsPayload;
  }

  lemma ProcsStepReplay(s: State, step: Step, s': State)
    requires Inv(s) && Next(s, step, s') && step.ReplayNext?
    ensures ProcsOk(s'.disk, s'.procs, s'.remote, s'.history)
  {
    hide Loads, Renames, Sends, Answers, Halts;
    hide DashOk, SettledOk, RequestsOk;
    hide WirePayload, IsWire, Attempts, ReportId, HasRequired, Body, Bump, Persisted;
  }

  lemma ProcsStepSave(s: State, step: Step, s': State)
    requires Inv(s) && Next(s, step, s') && (step.BeginSave? || step.LoadBump?)
    ensures ProcsOk(s'.disk, s'.procs, s'.remote, s'.history)
  {
    hide ReplaysHead, Renames, Sends, Answers, Halts;
    hide DashOk, SettledOk, PhaseOk, ForeignOk, RequestsOk;
    hide WirePayload, IsWire, Attempts, ReportId, HasRequired, Body, Bump, Persisted;
    match step
    case BeginSave(id, payload, at) => PersistedKeepsWire(payload, at);
    case LoadBump(name) =>
      if name in s.disk && Load(s.disk[name].content).Some? && Attempts(Load(s.disk[name].content).value).Some? {
        BumpKeepsWire(Load(s.disk[name].content).value);
      }
  }

  lemma ProcsStepNet(s: State, step: Step, s': State)
    requires Inv(s) && Next(s, step, s') && (step.Send? || step.Receive? || step.GiveUp?)
    ensures ProcsOk(s'.disk, s'.procs, s'.remote, s'.history)
  {
    hide ReplaysHead, Loads, Renames, Answers, Halts;
    hide DashOk, SettledOk, PhaseOk, ForeignOk, DiskOk, OriginsOk;
    hide WirePayload, IsWire, Attempts, ReportId, HasRequired, Body, Bump, Persisted, Load;
  }

  lemma ProcsStepDelete(s: State, step: Step, s': State)
    requires Inv(s) && Next(s, step, s') && (step.Unlink? || step.WriteFails?)
    ensures ProcsOk(s'.disk, s'.procs, s'.remote, s'.history)
  {
    hide ReplaysHead, Loads, Renames, Sends, Answers, Halts;
    hide DashOk, SettledOk, PhaseOk, ForeignOk, RequestsOk, DiskOk;
    hide WirePayload, IsWire, Attempts, ReportId, HasRequired, Body, Bump, Persisted, Load;
  }

  lemma ProcsStepEnd(s: State, step: Step, s': State)
    requires Inv(s) && Next(s, step, s') && (step.Raise? || step.Wake? || step.ChmodFails? || step.UnlinkFails?)
    ensures ProcsOk(s'.disk, s'.procs, s'.remote, s'.history)
  {
    hide ReplaysHead, Loads, Renames, Sends, Answers, Halts;
    hide DashOk, SettledOk, PhaseOk, ForeignOk, RequestsOk, DiskOk;
    hide WirePayload, IsWire, Attempts, ReportId, HasRequired, Body, Bump, Persisted, Load;
  }

  lemma ProcsStepWrite(s: State, step: Step, s': State)
    requires Inv(s) && Next(s, step, s') && (step.Open? || step.WritePart? || step.WriteAll?)
    ensures ProcsOk(s'.disk, s'.procs, s'.remote, s'.history)
  {
    hide ReplaysHead, Loads, Renames, Sends, Answers, Halts;
    hide DashOk, SettledOk, PhaseOk, ForeignOk, RequestsOk, DiskOk;
    hide WirePayload, IsWire, Attempts, ReportId, HasRequired, Body, Bump, Persisted, Load, Originates;
  }

  lemma ProcsStepRename(s: State, step: Step, s': State)
    requires Inv(s) && Next(s, step, s') && step.Replace?
    ensures ProcsOk(s'.disk, s'.procs, s'.remote, s'.history)
  {
    hide ReplaysHead, Loads, Sends, Answers, Halts;
    hide DashOk, SettledOk, PhaseOk, ForeignOk, RequestsOk, DiskOk;
    hide WirePayload, IsWire, Attempts, ReportId, HasRequired, Body, Bump, Persisted, Load;
  }

  lemma ProcsStep(s: State, step: Step, s': State)
    requires Inv(s) && Next(s, step, s')
    ensures ProcsOk(s'.disk, s'.procs, s'.remote, s'.history)
  {
    hide *;
    match step
    case ReplayNext(_) => ProcsStepReplay(s, step, s');
    case BeginSave(_, _, _) => ProcsStepSave(s, step, s');
    case LoadBump(_) => ProcsStepSave(s, step, s');
    case Send(_) => ProcsStepNet(s, step, s');
    case Receive(_, _) => ProcsStepNet(s, step, s');
    case GiveUp(_) => ProcsStepNet(s, step, s');
    case Raise(_, _) => ProcsStepEnd(s, step, s');
    case ChmodFails(_) => ProcsStepEnd(s, step, s');
    case UnlinkFails(_) => ProcsStepEnd(s, step, s');
    case Wake(_, _) => ProcsStepEnd(s, step, s');
    case Unlink(_) => ProcsStepDelete(s, step, s');
    case WriteFails(_, _) => ProcsStepDelete(s, step, s');
    case Open(_) => ProcsStepWrite(s, step, s');
    case WritePart(_, _) => ProcsStepWrite(s, step, s');
    case WriteAll(_) => ProcsStepWrite(s, step, s');
    case Replace(_) => ProcsStepRename(s, step, s');
    case _ => ProcsStepLife(s, step, s');
  }

  /** Every step, a crash between any two file operations included, keeps the invariant. */
  lemma InvStep(s: State, step: Step, s': State)
    requires Inv(s) && Next(s, step, s')
    ensures Inv(s')
  {
    hide Next, OriginsOk, DiskOk, ForeignOk, ProcsOk, PhaseOk, RequestsOk, DashOk, SettledOk;
    PhaseStep(s, step, s');
    OriginsStep(s, step, s');
    RequestsStep(s, step, s');
    DashStep(s, step, s');
    DiskStep(s, step, s');
    SettledStep(s, step, s');
    ProcsStep(s, step, s');
  }

  lemma {:induction false} InvOfRun(states: seq<State>, steps: seq<Step>, i: nat)
    requires IsRun(states, steps) && Init(states[0]) && i <= |steps|
    ensures Inv(states[i])
  {
    hide Next, Inv;
    if i == 0 {
      InvInit(states[0]);
    } else {
      InvOfRun(states, steps, i - 1);
      InvStep(states[i - 1], steps[i - 1], states[i]);
    }
  }

  // ---- the theorems ----

  /** At least once. In every state of every run, a report whose save returned is still on
      disk with its original wire fields, or the dashboard accepted it unchanged, or the
      dashboard rejected it with 400 or 413. */
  lemma NoReportLost(states: seq<State>, steps: seq<Step>, i: nat, name: Name)
    requires IsRun(states, steps) && Init(states[0]) && i <= |steps|
    requires name in states[i].history.saved
    ensures var s := states[i];
      || OnDisk(s.disk, s.history, name)
      || AcceptedIntact(s.remote, s.history, name)
      || name in s.history.rejected
  {
    hide Next, OnDisk;
    InvOfRun(states, steps, i);
  }

  /** At most once. In every state of every run the accepted list holds no id twice, and
      every accepted body is the payload first submitted under its id. */
  lemma AcceptedOnceAndIntact(states: seq<State>, steps: seq<Step>, i: nat)
    requires IsRun(states, steps) && Init(states[0]) && i <= |steps|
    ensures var r, h := states[i].remote, states[i].history;
      && (forall a, b | 0 <= a < b < |r.accepted| :: ReportId(r.accepted[a]) != ReportId(r.accepted[b]))
      && forall a | 0 <= a < |r.accepted| ::
           && ReportId(r.accepted[a]).Str?
           && Report(ReportId(r.accepted[a]).s) in h.origin
           && h.origin[Report(ReportId(r.accepted[a]).s)] == r.accepted[a]
  {
    hide Next;
    InvOfRun(states, steps, i);
  }

  /** A file of a saved report leaves the directory only once the report is settled. */
  lemma DeletedOnlyWhenSettled(states: seq<State>, steps: seq<Step>, i: nat, name: Name)
    requires IsRun(states, steps) && Init(states[0]) && i < |steps|
    requires name in states[i].history.saved && name in states[i].disk && name !in states[i + 1].disk
    ensures AcceptedIntact(states[i].remote, states[i].history, name) || name in states[i].history.rejected
  {
    hide DashOk, RequestsOk, ProcsOk, DiskOk, ForeignOk;
    hide WirePayload, IsWire, Attempts, ReportId, HasRequired, Body, Bump, Persisted, Originates, Decide, Load;
    InvOfRun(states, steps, i);
    InvOfRun(states, steps, i + 1);
    assert Next(states[i], steps[i], states[i + 1]);
  }

  /** The names counted as rejected are those a 400 or 413 answers. */
  ghost predicate RejectedOk(r: Remote, h: History) {
    forall n | n in h.rejected ::
      exists k | 0 <= k < |r.requests| :: r.requests[k].name == n && ((k, Invalid) in r.answers || (k, TooLarge) in r.answers)
  }

  lemma {:induction false} RejectedMeansAnswered(states: seq<State>, steps: seq<Step>, i: nat)
    requires IsRun(states, steps) && Init(states[0]) && i <= |steps|
    ensures RejectedOk(states[i].remote, states[i].history)
  {
    hide WirePayload, IsWire, Attempts, ReportId, HasRequired, Body, Bump, Persisted, Load, Decide;
    if i > 0 {
      RejectedMeansAnswered(states, steps, i - 1);
      var s, s' := states[i - 1], states[i];
      assert Next(s, steps[i - 1], s');
      assert s.remote.requests <= s'.remote.requests;
    }
  }
}
