/** The concurrent runtime: the runner's main thread, the heartbeat, the action workers, the
    check thread and the NetBox thread, with the flags and the queue they share. A step is one
    atomic action of one thread (a flag read or set, a queue operation, a call that returns),
    a signal, or the passage of time; any thread may take the next one. */
module Runtime {
  import opened Wrappers
  import opened NetboxSync
  import opened Timestamps

  // ---- actions ----

  datatype Kind = CheckHost | SyncNetbox | UnknownKind(text: string)

  /** An element of `pending_actions`; Malformed stands for one on which `.get` or the
      comparison of `expires_at` raises. */
  datatype Action = Action(id: string, kind: Kind, expiresAt: Option<string>) | Malformed

  predicate Keeps(a: Action, now: string) {
    a.Action? && !Expired(a.expiresAt, now)
  }

  /** The actions of a response that `_enqueue_actions` puts on the queue, in order. */
  function Unexpired(actions: seq<Action>, now: string): seq<Action> {
    if actions == [] then []
    else
      var rest, last := Unexpired(actions[..|actions| - 1], now), actions[|actions| - 1];
      if Keeps(last, now) then rest + [last] else rest
  }

  /** The actions of one response that have been gone through, and the time they were
      compared with. */
  datatype Batch = Batch(actions: seq<Action>, now: string)

  function Enqueued(batches: seq<Batch>): seq<Action> {
    if batches == [] then []
    else
      var last := batches[|batches| - 1];
      Enqueued(batches[..|batches| - 1]) + Unexpired(last.actions, last.now)
  }

  // ---- shared state ----

  datatype Cause = ByAuth | BySignal | ByCrash

  /** The shutdown and auth-error events; whether any thread or the replay has met an auth
      error; and who set the shutdown event first. */
  datatype Flags = Flags(shutdown: bool, auth: bool, authSeen: bool, cause: Option<Cause>)

  function Shut(f: Flags, cause: Cause): Flags {
    if f.shutdown then f else f.(shutdown := true, cause := Some(cause))
  }

  /** A get whose dispatch checks passed, with the time its expiry was compared with. */
  datatype Clearance = Clearance(ticket: nat, now: string)

  /** The queue, its count of unfinished tasks, and the logs of puts, of gets, of the gets
      whose dispatch checks passed, and of the responses gone through. */
  datatype Board = Board(
    queue: seq<Action>,
    unfinished: nat,
    puts: seq<Action>,
    taken: seq<Action>,
    cleared: seq<Clearance>,
    batches: seq<Batch>)

  /** The first-sync event, how often it was set, whether the local view of NetBox held a
      fetch result by then, and the check thread's gate. `firstView` is the NetBox snapshot of the first cycle. */
  datatype Gate = Gate(
    event: bool,
    sets: nat,
    afterFetch: bool,
    completed: bool,       // the NetBox thread's `first_sync_completed`
    since: nat,
    timedOut: bool,
    firstView: Option<seq<DiscoveredHost>>)

  const GATE_SECONDS: nat := 30

  // ---- the threads ----

  datatype HbPc =
    | HbIdle | HbTop | HbCalling
    | HbRefreshing(pending: seq<Action>)
    | HbEnqueueing(actions: seq<Action>, i: nat, now: string)
    | HbWaiting | HbCrashed | HbDone
    | HbAuthSeen | HbAuthSet

  /** `ticket` counts the gets: the action in hand is `taken[ticket]`. */
  datatype WorkerPc =
    | WIdle | WTop | WGetting | WDone
    | WChecking(ticket: nat)
    | WUnexpired(ticket: nat, now: string)
    | WHandling(ticket: nat, sync: Option<SyncPc>)   // None unless the handler runs a sync
    | WAuthSeen(ticket: nat) | WAuthSet(ticket: nat)
    | WFinishing(ticket: nat)

  datatype CheckPc =
    | CkIdle | CkGate | CkGated | CkTop | CkStarting | CkRunning | CkWaiting | CkCrashed | CkDone
    | CkAuthSeen | CkAuthSet

  datatype NetPc =
    | NbIdle | NbAbsent | NbTop
    | NbSyncing(sync: SyncPc)
    | NbAfter(status: SyncStatus) | NbWaiting | NbCrashed | NbFinally | NbDone
    | NbAuthSeen | NbAuthSet

  /** `late` holds the stages whose join gave up before its threads had ended: 0 for the
      heartbeat, 1 for the workers, 2 for the check thread, 3 for the NetBox thread. */
  datatype MainPc =
    | MReplaying | MReplayed | MStarting(started: nat) | MWaiting
    | MJoining(stage: nat, late: set<nat>)
    | MFinal(late: set<nat>)
    | MExit(code: nat, late: set<nat>)

  const EXIT_CLEAN: nat := 0
  const EXIT_AUTH_ERROR: nat := 2

  datatype State = State(
    time: nat,
    flags: Flags,
    board: Board,
    gate: Gate,
    inventory: Inventory,
    main: MainPc,
    hb: HbPc,
    workers: seq<WorkerPc>,
    check: CheckPc,
    net: NetPc)

  datatype HbStep =
    | HbLoop | HbAnswer(pc: HbPc) | HbRefreshed(auth: bool) | HbNextAction | HbTimeout | HbWoken | HbRaise
    | HbSetAuth | HbSetShutdown

  datatype WorkerStep =
    | WLoop | WEmpty | WTake | WExpiry(now: string) | WDispatch | WSyncMove(sync: SyncPc)
    | WReturn | WAuthError | WSetAuth | WSetShutdown | WTaskDone

  datatype CheckStep =
    | CkEnterGate | CkPassGate | CkLoop | CkSnapshot | CkCycleEnds | CkAuthError | CkTimeout | CkWoken | CkRaise
    | CkSetAuth | CkSetShutdown

  datatype NetStep =
    | NbLoop | NbSyncMove(sync: SyncPc) | NbSyncEnds | NbFirstDone | NbTimeout | NbWoken | NbRaise
    | NbSetAuth | NbSetShutdown | NbLeave

  datatype MainStep = MReplayEnds(auth: bool) | MStart | MThreads | MWake | MJoin | MReturn

  datatype Step =
    | Heartbeat(h: HbStep)
    | Worker(w: nat, k: WorkerStep)
    | Check(c: CheckStep)
    | Net(n: NetStep)
    | Main(m: MainStep)
    | Signal
    | Tick

  ghost predicate Init(s: State, workerCount: nat) {
    && s.flags == Flags(false, false, false, None)
    && s.board == Board([], 0, [], [], [], [])
    && s.inventory == NEW_INVENTORY
    && s.main == MReplaying
    && s.hb == HbIdle && s.check == CkIdle && (s.net == NbIdle || s.net == NbAbsent)
    && |s.workers| == workerCount && (forall w | 0 <= w < workerCount :: s.workers[w] == WIdle)
    && s.gate == Gate(s.net.NbAbsent?, 0, false, false, 0, false, None)
  }

  // ---- the heartbeat ----

  ghost predicate HbNext(s: State, h: HbStep, s': State) {
    && s'.time == s.time && s'.gate == s.gate && s'.inventory == s.inventory
    && s'.main == s.main && s'.workers == s.workers && s'.check == s.check && s'.net == s.net
    && match h
       case HbLoop =>
         && s.hb.HbTop? && s'.flags == s.flags && s'.board == s.board
         && s'.hb == (if s.flags.shutdown then HbDone else HbCalling)
       case HbAnswer(pc) =>
         // the response, a 401, or another DashboardError
         && s.hb.HbCalling? && s'.hb == pc && s'.board == s.board
         && (pc.HbRefreshing? || (pc.HbEnqueueing? && pc.i == 0) || pc.HbWaiting? || pc.HbAuthSeen?)
         && s'.flags == s.flags.(authSeen := s.flags.authSeen || pc.HbAuthSeen?)
       case HbRefreshed(auth) =>
         && s.hb.HbRefreshing? && s'.board == s.board
         && s'.flags == s.flags.(authSeen := s.flags.authSeen || auth)
         && if auth then s'.hb == HbAuthSeen
            else s'.hb.HbEnqueueing? && s'.hb.actions == s.hb.pending && s'.hb.i == 0
       case HbNextAction =>
         && s.hb.HbEnqueueing? && s'.flags == s.flags
         && EnqueueNext(s.board, s.hb.actions, s.hb.i, s.hb.now, s'.board, s'.hb)
       case HbTimeout => s.hb.HbWaiting? && s'.hb == HbTop && s'.flags == s.flags && s'.board == s.board
       case HbWoken =>
         s.hb.HbWaiting? && s.flags.shutdown && s'.hb == HbDone && s'.flags == s.flags && s'.board == s.board
       case HbRaise =>
         && (s.hb.HbCalling? || s.hb.HbRefreshing? || s.hb.HbWaiting?)
         && s'.hb == HbCrashed && s'.flags == s.flags && s'.board == s.board
       case HbSetAuth =>
         s.hb.HbAuthSeen? && s'.hb == HbAuthSet && s'.flags == s.flags.(auth := true) && s'.board == s.board
       case HbSetShutdown =>
         && (s.hb.HbAuthSet? || s.hb.HbCrashed?) && s'.hb == HbDone && s'.board == s.board
         && s'.flags == Shut(s.flags, if s.hb.HbAuthSet? then ByAuth else ByCrash)
  }

  /** One round of the loop in `_enqueue_actions`, or its end. */
  ghost predicate EnqueueNext(b: Board, actions: seq<Action>, i: nat, now: string, b': Board, hb': HbPc) {
    && i <= |actions|
    && b'.taken == b.taken && b'.cleared == b.cleared
    && if i == |actions| || actions[i].Malformed? then
         && hb' == (if i == |actions| then HbWaiting else HbCrashed)
         && b'.batches == b.batches + [Batch(actions[..i], now)]
         && b'.queue == b.queue && b'.puts == b.puts && b'.unfinished == b.unfinished
       else
         && hb' == HbEnqueueing(actions, i + 1, now) && b'.batches == b.batches
         && if Expired(actions[i].expiresAt, now) then
              b'.queue == b.queue && b'.puts == b.puts && b'.unfinished == b.unfinished
            else
              && b'.queue == b.queue + [actions[i]] && b'.puts == b.puts + [actions[i]]
              && b'.unfinished == b.unfinished + 1
  }

  // ---- the workers ----

  /** Worker w moves to pc. */
  ghost predicate WorkerGoes(s: State, w: nat, pc: WorkerPc, s': State) {
    w < |s.workers| && s'.workers == s.workers[w := pc]
  }

  predicate IsCheckHost(b: Board, ticket: nat) {
    ticket < |b.taken| && b.taken[ticket].Action? && b.taken[ticket].kind.CheckHost?
  }

  ghost predicate WorkerNext(s: State, w: nat, k: WorkerStep, s': State) {
    && s'.time == s.time && s'.gate == s.gate
    && s'.main == s.main && s'.hb == s.hb && s'.check == s.check && s'.net == s.net
    && w < |s.workers|
    && (k.WSyncMove? || s'.inventory == s.inventory)
    && (k.WAuthError? || k.WSetAuth? || k.WSetShutdown? || s'.flags == s.flags)
    && (k.WTake? || k.WDispatch? || k.WTaskDone? || s'.board == s.board)
    && var pc := s.workers[w];
       match k
       case WLoop => pc.WTop? && WorkerGoes(s, w, if s.flags.shutdown then WDone else WGetting, s')
       case WEmpty => pc.WGetting? && s.board.queue == [] && WorkerGoes(s, w, WTop, s')
       case WTake =>
         && pc.WGetting? && s.board.queue != []
         && WorkerGoes(s, w, WChecking(|s.board.taken|), s')
         && s'.board == s.board.(queue := s.board.queue[1..], taken := s.board.taken + [s.board.queue[0]])
       case WExpiry(now) =>
         && pc.WChecking? && pc.ticket < |s.board.taken|
         && WorkerGoes(s, w, if Keeps(s.board.taken[pc.ticket], now) then WUnexpired(pc.ticket, now) else WFinishing(pc.ticket), s')
       case WDispatch =>
         && pc.WUnexpired? && pc.ticket < |s.board.taken| && s.board.taken[pc.ticket].Action?
         && var kind := s.board.taken[pc.ticket].kind;
            if s.flags.shutdown || kind.UnknownKind? then
              s'.board == s.board && WorkerGoes(s, w, WFinishing(pc.ticket), s')
            else
              && s'.board == s.board.(cleared := s.board.cleared + [Clearance(pc.ticket, pc.now)])
              && WorkerGoes(s, w, WHandling(pc.ticket, if kind.SyncNetbox? && !s.net.NbAbsent? then Some(Fetching) else None), s')
       case WSyncMove(sync) =>
         && pc.WHandling? && pc.sync.Some?
         && SyncMove(s.inventory, pc.sync.value, s.flags.shutdown, s'.inventory, sync)
         && WorkerGoes(s, w, WHandling(pc.ticket, Some(sync)), s')
       case WReturn =>
         // a return, or an exception other than an auth error; a sync has ended first
         && pc.WHandling? && (pc.sync.Some? ==> pc.sync.value.Ended? && !pc.sync.value.status.AuthRaised?)
         && WorkerGoes(s, w, WFinishing(pc.ticket), s')
       case WAuthError =>
         && pc.WHandling?
         && (if pc.sync.Some? then pc.sync.value == Ended(AuthRaised) else IsCheckHost(s.board, pc.ticket))
         && WorkerGoes(s, w, WAuthSeen(pc.ticket), s')
         && s'.flags == s.flags.(authSeen := true)
       case WSetAuth =>
         pc.WAuthSeen? && WorkerGoes(s, w, WAuthSet(pc.ticket), s') && s'.flags == s.flags.(auth := true)
       case WSetShutdown =>
         pc.WAuthSet? && WorkerGoes(s, w, WFinishing(pc.ticket), s') && s'.flags == Shut(s.flags, ByAuth)
       case WTaskDone =>
         && pc.WFinishing? && WorkerGoes(s, w, WTop, s')
         && s.board.unfinished > 0 && s'.board == s.board.(unfinished := s.board.unfinished - 1)
  }

  // ---- the check thread ----

  ghost predicate CheckNext(s: State, c: CheckStep, s': State) {
    && s'.time == s.time && s'.board == s.board && s'.inventory == s.inventory
    && s'.main == s.main && s'.hb == s.hb && s'.workers == s.workers && s'.net == s.net
    && (c.CkEnterGate? || c.CkPassGate? || c.CkSnapshot? || s'.gate == s.gate)
    && (c.CkAuthError? || c.CkSetAuth? || c.CkSetShutdown? || s'.flags == s.flags)
    && match c
       case CkEnterGate =>
         && s.check.CkGate? && s'.gate == s.gate.(since := s.time)
         && s'.check == (if s.gate.event then CkTop else CkGated)
       case CkPassGate =>
         // `ev.wait(timeout=30)`: the event, or the whole wait; shutdown does not end it
         && s.check.CkGated? && s'.check == CkTop
         && (s.gate.event || s.time >= s.gate.since + GATE_SECONDS)
         && s'.gate == s.gate.(timedOut := !s.gate.event)
       case CkLoop => s.check.CkTop? && s'.check == (if s.flags.shutdown then CkDone else CkStarting)
       case CkSnapshot =>
         && s.check.CkStarting? && s'.check == CkRunning
         && s'.gate == (if s.gate.firstView.None? then s.gate.(firstView := Some(s.inventory.local)) else s.gate)
       case CkCycleEnds => (s.check.CkRunning? || s.check.CkStarting?) && s'.check == CkWaiting
       case CkAuthError =>
         s.check.CkRunning? && s'.check == CkAuthSeen && s'.flags == s.flags.(authSeen := true)
       case CkTimeout => s.check.CkWaiting? && s'.check == CkTop
       case CkWoken => s.check.CkWaiting? && s.flags.shutdown && s'.check == CkDone
       case CkRaise => s.check.CkWaiting? && s'.check == CkCrashed
       case CkSetAuth => s.check.CkAuthSeen? && s'.check == CkAuthSet && s'.flags == s.flags.(auth := true)
       case CkSetShutdown =>
         && (s.check.CkAuthSet? || s.check.CkCrashed?) && s'.check == CkDone
         && s'.flags == Shut(s.flags, if s.check.CkAuthSet? then ByAuth else ByCrash)
  }

  // ---- the NetBox thread ----

  function SetEvent(g: Gate, v: Inventory): Gate {
    g.(event := true, sets := g.sets + 1, afterFetch := v.replaced)
  }

  ghost predicate NetNext(s: State, n: NetStep, s': State) {
    && s'.time == s.time && s'.board == s.board
    && s'.main == s.main && s'.hb == s.hb && s'.workers == s.workers && s'.check == s.check
    && (n.NbFirstDone? || n.NbLeave? || s'.gate == s.gate)
    && (n.NbSyncMove? || s'.inventory == s.inventory)
    && (n.NbSyncEnds? || n.NbSetAuth? || n.NbSetShutdown? || s'.flags == s.flags)
    && match n
       case NbLoop => s.net.NbTop? && s'.net == (if s.flags.shutdown then NbFinally else NbSyncing(Fetching))
       case NbSyncMove(sync) =>
         && s.net.NbSyncing? && s'.net == NbSyncing(sync)
         && SyncMove(s.inventory, s.net.sync, s.flags.shutdown, s'.inventory, sync)
       case NbSyncEnds =>
         && s.net.NbSyncing? && s.net.sync.Ended?
         && var auth := s.net.sync.status.AuthRaised?;
            && s'.net == (if auth then NbAuthSeen else NbAfter(s.net.sync.status))
            && s'.flags == s.flags.(authSeen := s.flags.authSeen || auth)
       case NbFirstDone =>
         && s.net.NbAfter? && s'.net == NbWaiting
         && s'.gate == (if s.gate.completed then s.gate else SetEvent(s.gate, s.inventory).(completed := true))
       case NbTimeout => s.net.NbWaiting? && s'.net == NbTop
       case NbWoken => s.net.NbWaiting? && s.flags.shutdown && s'.net == NbFinally
       case NbRaise => s.net.NbWaiting? && s'.net == NbCrashed
       case NbSetAuth => s.net.NbAuthSeen? && s'.net == NbAuthSet && s'.flags == s.flags.(auth := true)
       case NbSetShutdown =>
         && (s.net.NbAuthSet? || s.net.NbCrashed?) && s'.net == NbFinally
         && s'.flags == Shut(s.flags, if s.net.NbAuthSet? then ByAuth else ByCrash)
       case NbLeave =>
         && s.net.NbFinally? && s'.net == NbDone
         && s'.gate == (if s.gate.completed then s.gate else SetEvent(s.gate, s.inventory))
  }

  // ---- the main thread ----

  predicate HbEnded(s: State) {
    s.hb.HbDone?
  }

  predicate WorkersEnded(s: State) {
    forall w | 0 <= w < |s.workers| :: s.workers[w].WDone?
  }

  predicate NetEnded(s: State) {
    s.net.NbDone? || s.net.NbAbsent?
  }

  /** The join of stage k finds its threads ended. */
  predicate StageEnded(s: State, stage: nat) {
    match stage
    case 0 => HbEnded(s)
    case 1 => WorkersEnded(s)
    case 2 => s.check.CkDone?
    case _ => NetEnded(s)
  }

  /** All threads but the main one are as before. */
  ghost predicate SameThreads(s: State, s': State) {
    s'.hb == s.hb && s'.workers == s.workers && s'.check == s.check && s'.net == s.net
  }

  ghost predicate Starts(s: State, k: nat, s': State) {
    var n := |s.workers|;
    && s'.hb == (if k == 0 then HbTop else s.hb)
    && s'.workers == (if 1 <= k <= n then s.workers[k - 1 := WTop] else s.workers)
    && s'.check == (if k == n + 1 then CkGate else s.check)
    && s'.net == (if k == n + 2 && !s.net.NbAbsent? then NbTop else s.net)
    && s'.main == (if k < n + 2 then MStarting(k + 1) else MWaiting)
  }

  ghost predicate MainNext(s: State, m: MainStep, s': State) {
    && s'.time == s.time && s'.board == s.board && s'.gate == s.gate && s'.inventory == s.inventory
    && (m.MReplayEnds? || s'.flags == s.flags)
    && (m.MThreads? || SameThreads(s, s'))
    && match m
       case MReplayEnds(auth) =>
         && s.main.MReplaying? && s'.flags == s.flags.(authSeen := s.flags.authSeen || auth)
         && s'.main == (if auth then MExit(EXIT_AUTH_ERROR, {}) else MReplayed)
       case MStart => s.main.MReplayed? && s'.main == (if s.flags.shutdown then MFinal({}) else MStarting(0))
       case MThreads =>
         // heartbeat, workers, check thread, NetBox thread, one after another
         s.main.MStarting? && Starts(s, s.main.started, s')
       case MWake => s.main.MWaiting? && s.flags.shutdown && s'.main == MJoining(0, {})
       case MJoin =>
         // the threads have ended, or the bounded join gives up
         && s.main.MJoining?
         && var late := s.main.late + (if StageEnded(s, s.main.stage) then {} else {s.main.stage});
            s'.main == (if s.main.stage < 3 then MJoining(s.main.stage + 1, late) else MFinal(late))
       case MReturn =>
         s.main.MFinal? && s'.main == MExit(if s.flags.auth then EXIT_AUTH_ERROR else EXIT_CLEAN, s.main.late)
  }

  ghost predicate Next(s: State, step: Step, s': State) {
    match step
    case Heartbeat(h) => HbNext(s, h, s')
    case Worker(w, k) => WorkerNext(s, w, k, s')
    case Check(c) => CheckNext(s, c, s')
    case Net(n) => NetNext(s, n, s')
    case Main(m) => MainNext(s, m, s')
    case Signal =>
      && s'.time == s.time && s'.flags == Shut(s.flags, BySignal) && s'.board == s.board && s'.gate == s.gate
      && s'.inventory == s.inventory && s'.main == s.main && SameThreads(s, s')
    case Tick =>
      && s'.time == s.time + 1 && s'.flags == s.flags && s'.board == s.board && s'.gate == s.gate
      && s'.inventory == s.inventory && s'.main == s.main && SameThreads(s, s')
  }

  ghost predicate IsRun(states: seq<State>, steps: seq<Step>, workerCount: nat) {
    && |states| == |steps| + 1 && Init(states[0], workerCount)
    && forall i | 0 <= i < |steps| :: Next(states[i], steps[i], states[i + 1])
  }

  // ---- what `_enqueue_actions` keeps ----

  /** The prefix of a response's actions before the first malformed one. */
  function WellFormed(actions: seq<Action>): (n: nat)
    ensures n <= |actions|
    ensures forall i | 0 <= i < n :: actions[i].Action?
    ensures n < |actions| ==> actions[n].Malformed?
  {
    if actions == [] || actions[0].Malformed? then 0 else 1 + WellFormed(actions[1..])
  }

  lemma {:induction false} UnexpiredIff(actions: seq<Action>, now: string, a: Action)
    ensures a in Unexpired(actions, now) <==> a in actions && Keeps(a, now)
  {
    hide Keeps;
    if actions != [] {
      var n := |actions| - 1;
      UnexpiredIff(actions[..n], now, a);
      assert a in actions <==> a in actions[..n] || a == actions[n];
    }
  }

  /** The positions in `actions` of what `Unexpired` keeps. */
  function Picks(actions: seq<Action>, now: string): (r: seq<nat>)
    ensures forall i | 0 <= i < |r| :: r[i] < |actions|
  {
    if actions == [] then []
    else
      var n := |actions| - 1;
      if Keeps(actions[n], now) then Picks(actions[..n], now) + [n] else Picks(actions[..n], now)
  }

  /** Order and multiplicity: what is kept stands at increasing positions of the response. */
  lemma {:induction false} UnexpiredKeepsOrder(actions: seq<Action>, now: string)
    ensures |Picks(actions, now)| == |Unexpired(actions, now)|
    ensures forall i | 0 <= i < |Picks(actions, now)| :: Unexpired(actions, now)[i] == actions[Picks(actions, now)[i]]
    ensures forall i, j | 0 <= i < j < |Picks(actions, now)| :: Picks(actions, now)[i] < Picks(actions, now)[j]
  {
    hide Keeps;
    if actions != [] {
      UnexpiredKeepsOrder(actions[..|actions| - 1], now);
    }
  }

  /** None that is unexpired is passed over. */
  lemma {:induction false} UnexpiredSkipsNone(actions: seq<Action>, now: string, k: nat)
    requires k < |actions|
    ensures k in Picks(actions, now) <==> Keeps(actions[k], now)
  {
    hide Keeps;
    var n := |actions| - 1;
    if k < n {
      UnexpiredSkipsNone(actions[..n], now, k);
    } else if Keeps(actions[n], now) {
      assert Picks(actions, now)[|Picks(actions[..n], now)|] == n;
    }
  }

  lemma {:induction false} EnqueuedConcat(a: seq<Batch>, b: seq<Batch>)
    ensures Enqueued(a + b) == Enqueued(a) + Enqueued(b)
  {
    hide Unexpired;
    if b == [] {
      assert a + b == a;
    } else {
      assert (a + b)[..|a + b| - 1] == a + b[..|b| - 1];
      EnqueuedConcat(a, b[..|b| - 1]);
    }
  }
}
