/** The agent's identity across restarts (certwatch/agent_state.py, certwatch/bootstrap.py): the
    credentials file, registration, and crashes at any moment of either. */
module Identity {
  import opened Wrappers
  import opened JsonValues
  import opened Files
  import opened Clock
  import PendingReports
  import Backoff

  /** The four fields as read back; the code does not look at their types. */
  datatype Credentials = Credentials(agentId: Json, agentSecret: Json, dashboardUrl: Json, registeredAt: Json)

  /** "agent.json" in the data directory. */
  const CREDS: Name := Report("agent")

  const AGENT_ID: Key := OtherKey("agent_id")
  const AGENT_SECRET: Key := OtherKey("agent_secret")
  const DASHBOARD_URL: Key := OtherKey("dashboard_url")
  const REGISTERED_AT: Key := OtherKey("registered_at")

  function RecordOf(c: Credentials): Object {
    Object(map[AGENT_ID := c.agentId, AGENT_SECRET := c.agentSecret, DASHBOARD_URL := c.dashboardUrl, REGISTERED_AT := c.registeredAt])
  }

  /** `_bootstrap_subsequent_run`'s reading of the record; None for a KeyError. */
  function Parse(o: Object): Option<Credentials> {
    var f := o.fields;
    if AGENT_ID in f && AGENT_SECRET in f && DASHBOARD_URL in f then
      Some(Credentials(f[AGENT_ID], f[AGENT_SECRET], f[DASHBOARD_URL], if REGISTERED_AT in f then f[REGISTERED_AT] else Str("")))
    else None
  }

  lemma RecordRoundTrip(c: Credentials)
    ensures Parse(RecordOf(c)) == Some(c)
  {
    assert AGENT_ID.name[6] != AGENT_SECRET.name[6];
    assert |DASHBOARD_URL.name| == |REGISTERED_AT.name| == 13 && DASHBOARD_URL.name[0] != REGISTERED_AT.name[0];
    assert |AGENT_ID.name| == 8 && |AGENT_SECRET.name| == 12;
  }

  /** A record is usable exactly if the three fields the code indexes are there; one written
      before `registered_at` existed reads an empty string for it, which orphans no report. */
  lemma ParseIff(o: Object)
    ensures Parse(o).Some? <==> AGENT_ID in o.fields && AGENT_SECRET in o.fields && DASHBOARD_URL in o.fields
    ensures Parse(o).Some? && REGISTERED_AT !in o.fields ==> Parse(o).value.registeredAt == Str("")
    ensures forall persistedAt: string :: !PendingReports.Less(persistedAt, "")
  {
  }

  /** `load_credentials`. */
  datatype Loaded = Absent | Corrupt | Present(record: Object)

  function LoadFrom(d: Directory): Loaded {
    if CREDS !in d then Absent
    else match PendingReports.Load(d[CREDS].content)
      case None => Corrupt
      case Some(o) => Present(o)
  }

  // ---- the machine: every file operation and message a step, a crash between any two ----

  datatype Phase =
    | Down
    | Loading
    | Registering
    | Registered(c: Credentials)      // answer in memory only
    | Writing(c: Credentials)
    | Written(c: Credentials)
    | Running(c: Credentials)

  /** `issued`: identities the dashboard has created. `orphaned`: how many of them the agent
      lost before they were on disk. `used`: the identity of each life that got to run. */
  datatype State = State(disk: Directory, phase: Phase, issued: seq<Credentials>, orphaned: nat, used: seq<Credentials>)

  datatype Step =
    | Start | Load
    | Register(c: Credentials, heard: bool) | RegisterFails
    | OpenTmp | WritePart(bytes: string) | WriteAll | WriteFails | Replace
    | Halt

  ghost predicate Init(s: State) {
    LoadFrom(s.disk).Absent? && s.phase.Down? && s.issued == [] && s.orphaned == 0 && s.used == []
  }

  /** A new identity is in memory and not yet on disk. */
  predicate Unsaved(p: Phase) {
    p.Registered? || p.Writing? || p.Written?
  }

  ghost predicate Next(s: State, step: Step, s': State) {
    && (step.Register? || s'.issued == s.issued)
    && (step.Register? || step.Halt? || step.WriteFails? || s'.orphaned == s.orphaned)
    && (step.Load? || step.Replace? || s'.used == s.used)
    && (step.OpenTmp? || step.WritePart? || step.WriteAll? || step.WriteFails? || step.Replace? || s'.disk == s.disk)
    && match step
       case Start => s.phase.Down? && s'.phase == Loading
       case Load =>
         && s.phase.Loading?
         && (match LoadFrom(s.disk)
             case Absent => s'.phase == Registering && s'.used == s.used
             case Corrupt => s'.phase == Down && s'.used == s.used
             case Present(o) =>
               if Parse(o).Some? then s'.phase == Running(Parse(o).value) && s'.used == s.used + [Parse(o).value]
               else s'.phase == Down && s'.used == s.used)
       case Register(c, heard) =>
         // the dashboard registers the agent; the answer may be lost, and the call retried
         && s.phase.Registering? && s'.issued == s.issued + [c]
         && s'.phase == (if heard then Registered(c) else Registering)
         && s'.orphaned == s.orphaned + (if heard then 0 else 1)
       case RegisterFails => s.phase.Registering? && (s'.phase == Registering || s'.phase == Down)
       case OpenTmp => s.phase.Registered? && s'.phase == Writing(s.phase.c) && s'.disk == Tear(s.disk, CREDS, "", 0)
       case WritePart(bytes) => s.phase.Writing? && s'.phase == s.phase && s'.disk == Tear(s.disk, CREDS, bytes, 0)
       case WriteAll =>
         s.phase.Writing? && s'.phase == Written(s.phase.c) && s'.disk == Fill(s.disk, CREDS, Obj(RecordOf(s.phase.c)), 0)
       case WriteFails =>
         // the temporary file is removed and the exception ends the process
         && s.phase.Writing? && s'.phase == Down && s'.disk == s.disk - {TmpName(CREDS)}
         && s'.orphaned == s.orphaned + 1
       case Replace =>
         && s.phase.Written? && TmpName(CREDS) in s.disk && s'.disk == Commit(s.disk, CREDS)
         && s'.phase == Running(s.phase.c) && s'.used == s.used + [s.phase.c]
       case Halt =>
         // a crash, an exit, a failed open, chmod or configuration fetch
         s'.phase == Down && s'.orphaned == s.orphaned + (if Unsaved(s.phase) then 1 else 0)
  }

  ghost predicate IsRun(states: seq<State>, steps: seq<Step>) {
    && |states| == |steps| + 1 && Init(states[0])
    && forall i | 0 <= i < |steps| :: Next(states[i], steps[i], states[i + 1])
  }

  /** The identity on disk, if any. */
  function OnDisk(d: Directory): Option<Credentials> {
    match LoadFrom(d)
    case Present(o) => Parse(o)
    case _ => None
  }

  ghost predicate Inv(s: State) {
    && (LoadFrom(s.disk).Absent? || OnDisk(s.disk).Some?)
    && (OnDisk(s.disk).Some? ==> !s.phase.Registering? && !Unsaved(s.phase) && OnDisk(s.disk).value in s.issued)
    && (s.phase.Running? ==> OnDisk(s.disk) == Some(s.phase.c))
    && (s.phase.Written? ==> TmpName(CREDS) in s.disk && s.disk[TmpName(CREDS)].content == Whole(Obj(RecordOf(s.phase.c))))
    && (Unsaved(s.phase) ==> s.phase.c in s.issued)
    && (forall i | 0 <= i < |s.used| :: OnDisk(s.disk) == Some(s.used[i]))
    && |s.issued| == s.orphaned + (if Unsaved(s.phase) then 1 else 0) + (if OnDisk(s.disk).Some? then 1 else 0)
  }

  lemma InvStep(s: State, step: Step, s': State)
    requires Inv(s) && Next(s, step, s')
    ensures Inv(s')
    ensures OnDisk(s.disk).Some? ==> OnDisk(s'.disk) == OnDisk(s.disk) && s'.issued == s.issued
  {
    hide Parse, RecordOf;
    if step.Replace? {
      RecordRoundTrip(s.phase.c);
    }
  }

  lemma {:induction false} InvOfRun(states: seq<State>, steps: seq<Step>, i: nat)
    requires IsRun(states, steps) && i <= |steps|
    ensures Inv(states[i])
  {
    hide Next, Parse;
    if i > 0 {
      InvOfRun(states, steps, i - 1);
      InvStep(states[i - 1], steps[i - 1], states[i]);
    }
  }

  // ---- the theorems ----

  /** A start never finds a half-written credentials file. */
  lemma NeverCorrupt(states: seq<State>, steps: seq<Step>, i: nat)
    requires IsRun(states, steps) && i <= |steps|
    ensures LoadFrom(states[i].disk).Absent? || OnDisk(states[i].disk).Some?
  {
    hide Next, Init;
    InvOfRun(states, steps, i);
  }

  /** Registered once, for ever: when the credentials file exists, every later state has the
      same one and the dashboard creates no further identity for the agent. */
  lemma {:induction false} RegisteredOnce(states: seq<State>, steps: seq<Step>, i: nat, j: nat)
    requires IsRun(states, steps) && i <= j <= |steps| && OnDisk(states[i].disk).Some?
    ensures OnDisk(states[j].disk) == OnDisk(states[i].disk) && states[j].issued == states[i].issued
    ensures states[j].phase.Running? ==> Some(states[j].phase.c) == OnDisk(states[i].disk)
  {
    hide Next, Inv, Init, OnDisk;
    InvOfRun(states, steps, j);
    assert states[j].phase.Running? ==> OnDisk(states[j].disk) == Some(states[j].phase.c) by { hide *; RunningIsOnDisk(states[j]); }
    if i < j {
      RegisteredOnce(states, steps, i, j - 1);
      InvOfRun(states, steps, j - 1);
      InvStep(states[j - 1], steps[j - 1], states[j]);
    }
  }

  lemma RunningIsOnDisk(s: State)
    requires Inv(s)
    ensures s.phase.Running? ==> OnDisk(s.disk) == Some(s.phase.c)
  {
  }

  /** All lives of an installation that get to run use one identity; any other identity the
      dashboard has created for it was lost between the dashboard's answer and the rename. */
  lemma OneIdentity(states: seq<State>, steps: seq<Step>, i: nat)
    requires IsRun(states, steps) && i <= |steps|
    ensures forall a, b | 0 <= a < b < |states[i].used| :: states[i].used[a] == states[i].used[b]
    ensures states[i].used != [] ==> states[i].used[0] in states[i].issued && |states[i].issued| == states[i].orphaned + 1
  {
    hide Next, Init;
    InvOfRun(states, steps, i);
  }

  // ---- imperatively ----

  /** How one `register` call ends: a response; 401, 409, 400 or another status; retriable. */
  datatype RegisterOutcome = Granted(c: Credentials) | Refused | Retriable

  /** How `_fetch_initial_config_with_retry` ends: a configuration, retriable (the defaults are
      used), or an error that ends the bootstrap. */
  datatype ConfigFetch = ConfigFetched | UseDefaults | ConfigRefused

  /** `_register_with_backoff`: calls until one is not retriable, waiting by the schedule; None
      for a BootstrapError, or when the outcomes given are used up. */
  method RegisterWithBackoff(outcomes: seq<RegisterOutcome>, clock: FakeClock) returns (r: Option<Credentials>, n: nat)
    modifies clock
    ensures n <= |outcomes| && (forall j | 0 <= j < n - 1 :: outcomes[j].Retriable?)
    ensures r.Some? ==> n > 0 && outcomes[n - 1] == Granted(r.value)
    ensures r.Some? <==> n > 0 && outcomes[n - 1].Granted?
    ensures n < |outcomes| ==> n > 0 && !outcomes[n - 1].Retriable?
    ensures clock.sleeps == old(clock.sleeps) + Backoff.Delays(1, if n > 0 && !outcomes[n - 1].Retriable? then n - 1 else n)
  {
    hide Backoff.Delay;
    n := 0;
    while n < |outcomes|
      invariant n <= |outcomes| && (forall j | 0 <= j < n :: outcomes[j].Retriable?)
      invariant clock.sleeps == old(clock.sleeps) + Backoff.Delays(1, n)
    {
      n := n + 1;
      match outcomes[n - 1] {
        case Granted(c) =>
          return Some(c), n;
        case Refused =>
          return None, n;
        case Retriable =>
          var woke := clock.WaitFor(Backoff.Delay(n), false);
      }
    }
    r := None;
  }

  class DataDirectory {
    var disk: Directory

    /** Writing to the temporary file: `bytes` that do not parse, or the whole record. */
    method WriteTmp(content: Content)
      modifies this
      ensures disk == old(disk)[TmpName(CREDS) := File(content, 0)]
    {
      disk := disk[TmpName(CREDS) := File(content, 0)];
    }

    method UnlinkTmp()
      modifies this
      ensures disk == old(disk) - {TmpName(CREDS)}
    {
      disk := disk - {TmpName(CREDS)};
    }

    method ReplaceByTmp()
      requires TmpName(CREDS) in disk
      modifies this
      ensures disk == Commit(old(disk), CREDS)
    {
      disk := Commit(disk, CREDS);
    }

    /** `save_credentials`: a reader sees the old file or the whole new one. */
    method SaveCredentials(c: Credentials, fault: Fault) returns (ok: bool)
      modifies this
      ensures ok == fault.NoFault?
      ensures Renamed(fault) ==>
        Visible(disk) == Visible(old(disk))[CREDS := File(Whole(Obj(RecordOf(c))), 0)]
      ensures !Renamed(fault) ==> Visible(disk) == Visible(old(disk))
    {
      hide RecordOf;
      ok := fault.NoFault?;
      if fault.OnOpen? {
        return;
      }
      WriteTmp(Torn(""));
      if fault.OnWrite? {
        WriteTmp(Torn(fault.bytes));
        UnlinkTmp();
        return;
      }
      WriteTmp(Whole(Obj(RecordOf(c))));
      if fault.OnReplace? {
        return;
      }
      ReplaceByTmp();
    }

    /** `load_credentials`. */
    method LoadCredentials() returns (r: Loaded)
      ensures r == LoadFrom(disk)
    {
      if CREDS !in disk {
        return Absent;
      }
      match disk[CREDS].content {
        case Whole(Obj(o)) => return Present(o);
        case _ => return Corrupt;
      }
    }

    /** `bootstrap`. With a readable credentials file it registers nothing, changes nothing and
        uses the identity in it; without a file it uses the identity registered, which is the
        one the next start will read, even if the configuration then cannot be had. */
    method Bootstrap(outcomes: seq<RegisterOutcome>, fault: Fault, config: ConfigFetch, clock: FakeClock)
      returns (r: Option<Credentials>, calls: nat)
      modifies this, clock
      ensures CREDS in old(disk) ==> disk == old(disk) && calls == 0 && clock.sleeps == old(clock.sleeps)
      ensures CREDS in old(disk) ==> r == if config.ConfigRefused? then None else OnDisk(old(disk))
      ensures r.Some? ==> OnDisk(disk) == r
      ensures CREDS !in old(disk) ==>
        && calls <= |outcomes| && (forall j | 0 <= j < calls - 1 :: outcomes[j].Retriable?)
        && (calls < |outcomes| ==> calls > 0 && !outcomes[calls - 1].Retriable?)
        && (forall c :: r == Some(c) <==>
              calls > 0 && outcomes[calls - 1] == Granted(c) && fault.NoFault? && !config.ConfigRefused?)
        && (if calls > 0 && outcomes[calls - 1].Granted? && (fault.NoFault? || fault.OnChmod?)
            then OnDisk(disk) == Some(outcomes[calls - 1].c) else CREDS !in disk)
    {
      hide Visible, Parse, RecordOf, Backoff.Delay, Backoff.Delays;
      var loaded := LoadCredentials();
      match loaded {
        case Corrupt =>
          return None, 0;
        case Present(o) =>
          return if config.ConfigRefused? then None else Parse(o), 0;
        case Absent =>
          r, calls := RegisterWithBackoff(outcomes, clock);
          if r.None? {
            return;
          }
          var ok := SaveCredentials(r.value, fault);
          SavedIsRead(old(disk), disk, r.value, fault);
          if !ok || config.ConfigRefused? {
            r := None;
          }
      }
    }
  }

  lemma SavedIsRead(d: Directory, d': Directory, c: Credentials, fault: Fault)
    requires LoadFrom(d).Absent?
    requires Visible(d') ==
      if Renamed(fault) then Visible(d)[CREDS := File(Whole(Obj(RecordOf(c))), 0)] else Visible(d)
    ensures if Renamed(fault) then OnDisk(d') == Some(c) else LoadFrom(d').Absent?
  {
    hide Parse, RecordOf;
    RecordRoundTrip(c);
    assert CREDS in d' <==> CREDS in Visible(d');
    assert CREDS in d <==> CREDS in Visible(d);
    assert CREDS in d' ==> Visible(d')[CREDS] == d'[CREDS];
  }
}
