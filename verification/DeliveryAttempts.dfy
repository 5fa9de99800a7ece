/** What the on-disk `_attempts` counter means, and the delays it drives, over all runs. */
module DeliveryAttempts {
  import opened Wrappers
  import opened Files
  import opened PendingReports
  import opened Delivery
  import opened DeliverySafety
  import Backoff

  /** The counter stored in the file `n`. */
  function Counter(disk: Directory, n: Name): int {
    if n in disk && Load(disk[n].content).Some? && Attempts(Load(disk[n].content).value).Some?
    then Attempts(Load(disk[n].content).value).value else 0
  }

  /** The live process has bumped the counter and not yet made the request. */
  function InHand(procs: map<Name, Proc>, n: Name): nat {
    if n in procs && procs[n].pc.Ready? then 1 else 0
  }

  ghost predicate Nondecreasing(waits: seq<nat>) {
    forall i, j | 0 <= i < j < |waits| :: waits[i] <= waits[j]
  }

  ghost predicate CountOk(disk: Directory, procs: map<Name, Proc>, tally: map<Name, Tally>, n: Name) {
    && n in tally
    && Nondecreasing(tally[n].waits)
    && (n in disk ==>
          && Counter(disk, n) == tally[n].sends + tally[n].wasted + InHand(procs, n)
          && forall w | w in tally[n].waits :: w <= Backoff.Delay(Counter(disk, n)))
  }

  ghost predicate CountsOk(s: State) {
    forall n | n in s.history.saved :: CountOk(s.disk, s.procs, s.tally, n)
  }

  /** What a submitter holds in memory agrees with the file it works on. */
  ghost predicate HeldOk(disk: Directory, n: Name, pc: Pc) {
    match pc
    case Opening(r, initial) => Attempts(r) == Some(if initial then 0 else Counter(disk, n) + 1)
    case Writing(r, initial) => Attempts(r) == Some(if initial then 0 else Counter(disk, n) + 1)
    case Replacing(r, initial) => Attempts(r) == Some(if initial then 0 else Counter(disk, n) + 1)
    case Ready(a) => a == Counter(disk, n)
    case Waiting(_, a) => a == Counter(disk, n)
    case _ => true
  }

  ghost predicate HoldsOk(s: State) {
    forall n | n in s.procs :: HeldOk(s.disk, n, s.procs[n].pc)
  }

  ghost predicate Writes(step: Step) {
    step.Open? || step.WritePart? || step.WriteAll? || step.WriteFails?
  }

  ghost predicate Keeps(step: Step) {
    step.Send? || step.Receive? || step.GiveUp? || step.Raise? || step.Wake? || step.Process? || step.LoadBump?
    || step.ChmodFails? || step.UnlinkFails?
  }

  lemma ReportNames(s: State)
    requires Inv(s)
    ensures forall n | n in s.history.origin :: n.Report? && IsWire(s.history.origin[n])
    ensures s.history.saved <= s.history.origin.Keys
    ensures forall n | n in s.procs :: n in s.history.origin && s.procs[n].wire == s.history.origin[n]
  {
    hide DashOk, SettledOk, RequestsOk, ForeignOk, DiskOk, PhaseOk, WirePayload, IsWire, ReportId;
  }

  lemma HeldAt(s: State, n: Name)
    requires HoldsOk(s) && n in s.procs
    ensures HeldOk(s.disk, n, s.procs[n].pc)
  {
  }

  lemma HoldsStepWrites(s: State, step: Step, s': State)
    requires Inv(s) && CountsOk(s) && HoldsOk(s) && Next(s, step, s') && Writes(step)
    ensures HoldsOk(s')
  {
    hide ReplaysHead, Loads, Renames, Sends, Answers, Halts, IsPayload, Persisted;
    hide CountsOk, OriginsOk, DiskOk, ForeignOk, PhaseOk, RequestsOk, DashOk, SettledOk, ProcsOk;
    hide WirePayload, IsWire, ReportId, Attempts, Load;
    ReportNames(s);
  }

  lemma HoldsStepKeeps(s: State, step: Step, s': State)
    requires Inv(s) && CountsOk(s) && HoldsOk(s) && Next(s, step, s') && Keeps(step)
    ensures HoldsOk(s')
  {
    hide ReplaysHead, Renames, Answers, Halts, IsPayload, Persisted;
    hide CountsOk, OriginsOk, DiskOk, ForeignOk, PhaseOk, RequestsOk, DashOk, SettledOk, ProcsOk;
    hide WirePayload, IsWire, ReportId, HasRequired, Body, Bump, Attempts, Load;
    if step.LoadBump? && step.name in s.disk && Load(s.disk[step.name].content).Some?
       && Attempts(Load(s.disk[step.name].content).value).Some? {
      BumpKeepsWire(Load(s.disk[step.name].content).value);
    }
  }

  lemma HoldsStepRename(s: State, name: Name, s': State)
    requires Inv(s) && CountsOk(s) && HoldsOk(s) && Next(s, Replace(name), s')
    ensures HoldsOk(s')
  {
    hide ReplaysHead, Loads, Sends, Answers, Halts;
    hide CountsOk, DashOk, SettledOk, RequestsOk, ForeignOk, OriginsOk, DiskOk, PhaseOk;
    hide WirePayload, IsWire, ReportId, HasRequired, Body, Bump, Attempts, Persisted, Decide;
    ReportNames(s);
  }

  lemma HoldsStepRest(s: State, step: Step, s': State)
    requires Inv(s) && CountsOk(s) && HoldsOk(s) && Next(s, step, s') && !Writes(step) && !Keeps(step) && !step.Replace?
    ensures HoldsOk(s')
  {
    hide Loads, Renames, Sends, Answers;
    hide CountsOk, DashOk, SettledOk, RequestsOk, ForeignOk, OriginsOk, DiskOk, PhaseOk, ProcsOk;
    hide WirePayload, IsWire, ReportId, HasRequired, Body, Bump, Attempts, Persisted, Decide, Load;
    ReportNames(s);
    if step.BeginSave? {
      PersistedKeepsWire(step.payload, step.at);
    }
  }

  lemma CountsStepWrites(s: State, step: Step, s': State)
    requires Inv(s) && CountsOk(s) && HoldsOk(s) && Next(s, step, s') && Writes(step)
    ensures CountsOk(s')
  {
    hide ReplaysHead, Loads, Renames, Sends, Answers, Halts, IsPayload, Persisted;
    hide HoldsOk, OriginsOk, DiskOk, ForeignOk, RequestsOk, DashOk, SettledOk, Nondecreasing;
    hide WirePayload, IsWire, ReportId, Attempts, Load, Backoff.Delay;
    ReportNames(s);
  }

  lemma CountsStepKeeps(s: State, step: Step, s': State)
    requires Inv(s) && CountsOk(s) && HoldsOk(s) && Next(s, step, s') && Keeps(step)
    requires !step.GiveUp? && !step.ChmodFails? && !step.Send?
    ensures CountsOk(s')
  {
    hide ReplaysHead, Renames, Sends, Halts, IsPayload, Persisted;
    hide OriginsOk, DiskOk, ForeignOk, RequestsOk, DashOk, SettledOk, Nondecreasing, HoldsOk;
    hide WirePayload, IsWire, ReportId, HasRequired, Body, Bump, Attempts, Load;
    hide Backoff.Delay;
    ReportNames(s);
  }

  lemma CountsStepSend(s: State, name: Name, s': State)
    requires Inv(s) && CountsOk(s) && HoldsOk(s) && Next(s, Send(name), s')
    ensures CountsOk(s')
  {
    hide ReplaysHead, Loads, Renames, Answers, Halts;
    hide OriginsOk, DiskOk, ForeignOk, RequestsOk, DashOk, SettledOk, PhaseOk, Nondecreasing, HoldsOk;
    hide WirePayload, IsWire, ReportId, HasRequired, Body, Bump, Attempts, Load, Backoff.Delay;
    ReportNames(s);
    BodyOfPayload(s.procs[name].wire);
  }

  lemma CountsStepChmod(s: State, name: Name, s': State)
    requires Inv(s) && CountsOk(s) && HoldsOk(s) && Next(s, ChmodFails(name), s')
    ensures CountsOk(s')
  {
    hide OriginsOk, DiskOk, ForeignOk, RequestsOk, DashOk, SettledOk, Nondecreasing, HoldsOk;
    hide WirePayload, IsWire, ReportId, HasRequired, Body, Bump, Attempts, Load, Backoff.Delay;
    ReportNames(s);
  }

  lemma AppendLarger(waits: seq<nat>, w: nat)
    requires Nondecreasing(waits) && forall v | v in waits :: v <= w
    ensures Nondecreasing(waits + [w])
  {
    assert forall i | 0 <= i < |waits| :: waits[i] in waits;
  }

  lemma CountsStepGiveUp(s: State, name: Name, s': State)
    requires Inv(s) && CountsOk(s) && HoldsOk(s) && Next(s, GiveUp(name), s')
    ensures CountsOk(s')
  {
    hide ReplaysHead, Loads, Renames, Sends, Answers, Halts;
    hide OriginsOk, DiskOk, ForeignOk, RequestsOk, DashOk, SettledOk, PhaseOk;
    hide WirePayload, IsWire, ReportId, HasRequired, Body, Bump, Attempts, Load;
    forall n | n in s'.history.saved
      ensures CountOk(s'.disk, s'.procs, s'.tally, n)
    {
      assert CountOk(s.disk, s.procs, s.tally, n);
      assert InHand(s'.procs, n) == InHand(s.procs, n);
      if n == name {
        assert HeldOk(s.disk, n, s.procs[n].pc);
        AppendLarger(s.tally[n].waits, Backoff.Delay(Counter(s.disk, n)));
      }
    }
  }

  lemma CountsStepRename(s: State, name: Name, s': State)
    requires Inv(s) && CountsOk(s) && HoldsOk(s) && Next(s, Replace(name), s')
    ensures CountsOk(s')
  {
    hide ReplaysHead, Loads, Sends, Answers, Halts;
    hide DashOk, SettledOk, RequestsOk, OriginsOk, PhaseOk, ForeignOk, DiskOk, IsPayload, Decide, HoldsOk;
    hide WirePayload, IsWire, ReportId, HasRequired, Body, Bump, Attempts, Persisted, Backoff.Delay;
    ReportNames(s);
    HeldAt(s, name);
    if !s.procs[name].pc.initial {
      Backoff.DelayMonotone(Counter(s.disk, name), Counter(s'.disk, name));
    }
  }

  lemma CountsStepRest(s: State, step: Step, s': State)
    requires Inv(s) && CountsOk(s) && HoldsOk(s) && Next(s, step, s') && !Writes(step) && !Keeps(step) && !step.Replace?
    ensures CountsOk(s')
  {
    hide Loads, Renames, Sends, Answers;
    hide DashOk, SettledOk, RequestsOk, OriginsOk, Nondecreasing;
    hide WirePayload, IsWire, ReportId, HasRequired, Body, Bump, Attempts, Persisted;
    ReportNames(s);
  }

  /** Every step keeps the meaning of the counter. */
  lemma CountingStep(s: State, step: Step, s': State)
    requires Inv(s) && CountsOk(s) && HoldsOk(s) && Next(s, step, s')
    ensures CountsOk(s') && HoldsOk(s')
  {
    hide Next, Inv, CountsOk, HoldsOk;
    if Writes(step) {
      HoldsStepWrites(s, step, s');
      CountsStepWrites(s, step, s');
    } else if Keeps(step) {
      HoldsStepKeeps(s, step, s');
      match step {
        case GiveUp(name) => CountsStepGiveUp(s, name, s');
        case ChmodFails(name) => CountsStepChmod(s, name, s');
        case Send(name) => CountsStepSend(s, name, s');
        case _ => CountsStepKeeps(s, step, s');
      }
    } else {
      match step {
        case Replace(name) =>
          HoldsStepRename(s, name, s');
          CountsStepRename(s, name, s');
        case _ =>
          HoldsStepRest(s, step, s');
          CountsStepRest(s, step, s');
      }
    }
  }

  lemma CountingInit(s: State)
    requires Init(s)
    ensures CountsOk(s) && HoldsOk(s)
  {
  }

  lemma {:induction false} CountingOfRun(states: seq<State>, steps: seq<Step>, i: nat)
    requires IsRun(states, steps) && Init(states[0]) && i <= |steps|
    ensures Inv(states[i]) && CountsOk(states[i]) && HoldsOk(states[i])
  {
    hide Next, Inv, CountsOk, HoldsOk, Init;
    InvOfRun(states, steps, i);
    if i == 0 {
      CountingInit(states[0]);
    } else {
      CountingOfRun(states, steps, i - 1);
      CountingStep(states[i - 1], steps[i - 1], states[i]);
    }
  }

  // ---- the theorems ----

  /** In every state of every run, the `_attempts` of a pending report's file is exactly the
      number of requests ever made for it, plus the bumps whose process died before the
      request, plus one if the live process has bumped and not yet sent. */
  lemma CounterIsWorkDone(states: seq<State>, steps: seq<Step>, i: nat, name: Name)
    requires IsRun(states, steps) && Init(states[0]) && i <= |steps|
    requires name in states[i].history.saved && name in states[i].disk
    ensures var s := states[i];
      && name in s.tally
      && Counter(s.disk, name) == s.tally[name].sends + s.tally[name].wasted + InHand(s.procs, name)
  {
    hide Next, Inv, HoldsOk;
    CountingOfRun(states, steps, i);
  }

  /** The delays requested for a report never decrease, over every retry, crash and replay,
      and the next one, driven by the counter on disk, is at least the last. */
  lemma DelaysNeverDecrease(states: seq<State>, steps: seq<Step>, i: nat, name: Name)
    requires IsRun(states, steps) && Init(states[0]) && i <= |steps|
    requires name in states[i].history.saved
    ensures name in states[i].tally && Nondecreasing(states[i].tally[name].waits)
    ensures name in states[i].disk ==>
      forall w | w in states[i].tally[name].waits :: w <= Backoff.Delay(Counter(states[i].disk, name))
  {
    hide Next, Inv, HoldsOk, Nondecreasing;
    CountingOfRun(states, steps, i);
  }

  /** The steps that can waste a bump of `name`: the end of a life, and a chmod that fails after
      the counter's rename. */
  function Losses(steps: seq<Step>, name: Name): nat {
    if steps == [] then 0
    else
      var last := steps[|steps| - 1];
      Losses(steps[..|steps| - 1], name) + (if last.Halt? || last == ChmodFails(name) then 1 else 0)
  }

  lemma WastedStep(s: State, step: Step, s': State, name: Name)
    requires Next(s, step, s')
    ensures TallyOf(s', name).wasted <=
      TallyOf(s, name).wasted + (if step.Halt? || step == ChmodFails(name) then 1 else 0)
  {
    hide Decide, Load, Attempts, WirePayload, IsWire, HasRequired, Body, Bump, Persisted, IsPayload, ReportId, Backoff.Delay;
  }

  /** Over a whole run a report has wasted at most as many bumps as there were ends of lives and
      failures of its own chmod; with `CounterIsWorkDone` this bounds how far the counter on
      disk exceeds the requests made. */
  lemma {:induction false} WastedBumpsAreLosses(states: seq<State>, steps: seq<Step>, i: nat, name: Name)
    requires IsRun(states, steps) && Init(states[0]) && i <= |steps|
    ensures TallyOf(states[i], name).wasted <= Losses(steps[..i], name)
  {
    hide Next;
    if i > 0 {
      hide Init;
      WastedBumpsAreLosses(states, steps, i - 1, name);
      WastedStep(states[i - 1], steps[i - 1], states[i], name);
      assert steps[..i][..i - 1] == steps[..i - 1];
    }
  }
}
