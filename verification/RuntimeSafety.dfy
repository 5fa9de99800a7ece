/** What holds in every reachable state of the runtime, for every interleaving: the flags
    behind the exit code, the queue's accounts, and the first-sync gate. */
module RuntimeSafety {
  import opened Wrappers
  import opened NetboxSync
  import opened Timestamps
  import opened Runtime

  // ---- flags ----

  /** Some thread stands exactly between its two `set` calls. */
  ghost predicate SomeAuthSet(s: State) {
    || s.hb.HbAuthSet? || s.check.CkAuthSet? || s.net.NbAuthSet?
    || exists w | 0 <= w < |s.workers| :: s.workers[w].WAuthSet?
  }

  /** Some thread has met an auth error and not yet set the first event. */
  ghost predicate SomeAuthSeen(s: State) {
    || s.hb.HbAuthSeen? || s.check.CkAuthSeen? || s.net.NbAuthSeen?
    || exists w | 0 <= w < |s.workers| :: s.workers[w].WAuthSeen?
  }

  /** The threads of a join stage have nothing left to do, or were never started. */
  ghost predicate StageQuiet(s: State, stage: nat) {
    match stage
    case 0 => s.hb.HbDone? || s.hb.HbIdle?
    case 1 => forall w | 0 <= w < |s.workers| :: s.workers[w].WDone? || s.workers[w].WIdle?
    case 2 => s.check.CkDone? || s.check.CkIdle?
    case _ => s.net.NbDone? || s.net.NbIdle? || s.net.NbAbsent?
  }

  /** The stages joined so far are quiet but for the late ones. */
  ghost predicate QuietBut(s: State, stages: nat, late: set<nat>) {
    && (forall k | k in late :: k < stages)
    && forall k: nat | k < stages && k !in late :: StageQuiet(s, k)
  }

  /** A thread of the stage has met an auth error and set neither event. */
  ghost predicate StageSeen(s: State, stage: nat) {
    match stage
    case 0 => s.hb.HbAuthSeen?
    case 1 => exists w | 0 <= w < |s.workers| :: s.workers[w].WAuthSeen?
    case 2 => s.check.CkAuthSeen?
    case _ => s.net.NbAuthSeen?
  }

  ghost predicate FlagsOk(s: State) {
    && (s.flags.shutdown <==> s.flags.cause.Some?)
    && (s.flags.auth ==> s.flags.authSeen)
    && (s.flags.auth && !s.flags.shutdown ==> SomeAuthSet(s))
    && (SomeAuthSeen(s) ==> s.flags.authSeen)
    && (SomeAuthSet(s) || s.flags.cause == Some(ByAuth) ==> s.flags.auth)
    && (s.flags.authSeen && !s.flags.auth ==> SomeAuthSeen(s) || (s.main.MExit? && s.main.code == EXIT_AUTH_ERROR))
  }

  /** The k-th thread in start order and those after it have not been started. */
  ghost predicate NotStarted(s: State, k: nat) {
    && (k == 0 ==> s.hb.HbIdle?)
    && (forall w | 0 <= w < |s.workers| && k <= w + 1 :: s.workers[w].WIdle?)
    && (k <= |s.workers| + 1 ==> s.check.CkIdle?)
    && k <= |s.workers| + 2 && (s.net.NbIdle? || s.net.NbAbsent?)
  }

  ghost predicate AllIdle(s: State) {
    NotStarted(s, 0)
  }

  ghost predicate MainOk(s: State) {
    match s.main
    case MReplaying => AllIdle(s) && !s.flags.authSeen
    case MReplayed => AllIdle(s) && !s.flags.authSeen
    case MStarting(k) => NotStarted(s, k)
    case MJoining(stage, late) => s.flags.shutdown && stage <= 3 && QuietBut(s, stage, late)
    case MFinal(late) => s.flags.shutdown && QuietBut(s, 4, late)
    case MExit(code, late) =>
      && (code == EXIT_AUTH_ERROR || code == EXIT_CLEAN)
      && (code == EXIT_AUTH_ERROR ==> s.flags.authSeen)
      && (code == EXIT_CLEAN ==> s.flags.shutdown && s.flags.cause != Some(ByAuth))
      && QuietBut(s, 4, late) && (late == {} && s.flags.authSeen ==> code == EXIT_AUTH_ERROR)
    case _ => true
  }

  /** If the pcs of all threads but one worker are the same, so are the others' auth states. */
  lemma OtherWorkersSame(s: State, w: nat, pc: WorkerPc, s': State)
    requires WorkerGoes(s, w, pc, s') && SameButWorkers(s, s')
    ensures SomeAuthSet(s) && !s.workers[w].WAuthSet? ==> SomeAuthSet(s')
    ensures SomeAuthSeen(s) && !s.workers[w].WAuthSeen? ==> SomeAuthSeen(s')
    ensures SomeAuthSet(s') && !pc.WAuthSet? ==> SomeAuthSet(s)
    ensures SomeAuthSeen(s') && !pc.WAuthSeen? ==> SomeAuthSeen(s)
    ensures s.workers[w].WAuthSet? ==> SomeAuthSet(s)
    ensures s.workers[w].WAuthSeen? ==> SomeAuthSeen(s)
    ensures pc.WAuthSet? ==> SomeAuthSet(s')
    ensures pc.WAuthSeen? ==> SomeAuthSeen(s')
  {
    assert s'.workers[w] == pc;
    if v :| 0 <= v < |s.workers| && s.workers[v].WAuthSet? && v != w {
      assert s'.workers[v].WAuthSet?;
    }
    if v :| 0 <= v < |s.workers| && s.workers[v].WAuthSeen? && v != w {
      assert s'.workers[v].WAuthSeen?;
    }
    if v :| 0 <= v < |s.workers| && s'.workers[v].WAuthSet? && v != w {
      assert s.workers[v].WAuthSet?;
    }
    if v :| 0 <= v < |s.workers| && s'.workers[v].WAuthSeen? && v != w {
      assert s.workers[v].WAuthSeen?;
    }
  }

  ghost predicate SameButWorkers(s: State, s': State) {
    s'.hb == s.hb && s'.check == s.check && s'.net == s.net
  }

  lemma FlagsWorkerStep(s: State, w: nat, k: WorkerStep, s': State)
    requires FlagsOk(s) && WorkerNext(s, w, k, s')
    ensures FlagsOk(s')
  {
    hide SyncMove, Keeps, IsCheckHost, SomeAuthSet, SomeAuthSeen;
    OtherWorkersSame(s, w, s'.workers[w], s');
  }

  lemma FlagsMainStep(s: State, m: MainStep, s': State)
    requires FlagsOk(s) && MainOk(s) && MainNext(s, m, s')
    ensures FlagsOk(s')
  {
    if m.MThreads? && 1 <= s.main.started <= |s.workers| {
      assert WorkerGoes(s, s.main.started - 1, WTop, s');
      OtherWorkersSame(s, s.main.started - 1, WTop, s');
    }
  }

  lemma FlagsStep(s: State, step: Step, s': State)
    requires FlagsOk(s) && MainOk(s) && Next(s, step, s')
    ensures FlagsOk(s')
  {
    hide SyncMove, Keeps, Expired, WorkerNext, MainNext;
    match step
    case Worker(w, k) => FlagsWorkerStep(s, w, k, s');
    case Main(m) => FlagsMainStep(s, m, s');
    case _ =>
  }

  // ---- main ----

  lemma StageStaysQuiet(s: State, step: Step, s': State, stage: nat)
    requires StageQuiet(s, stage) && Next(s, step, s') && !step.Main?
    ensures StageQuiet(s', stage)
  {
    hide SyncMove, Keeps, EnqueueNext;
  }

  lemma QuietStays(s: State, step: Step, s': State, stages: nat, late: set<nat>)
    requires QuietBut(s, stages, late) && Next(s, step, s') && !step.Main?
    ensures QuietBut(s', stages, late)
    ensures late == {} && stages == 4 ==> s'.flags.authSeen == s.flags.authSeen
  {
    hide SyncMove, Keeps, EnqueueNext, Next, StageQuiet;
    forall k: nat | k < stages && k !in late
      ensures StageQuiet(s', k)
    {
      StageStaysQuiet(s, step, s', k);
    }
    if late == {} && stages == 4 {
      assert StageQuiet(s, 0) && StageQuiet(s, 1) && StageQuiet(s, 2) && StageQuiet(s, 3);
      QuietSeesNothing(s, step, s');
    }
  }

  lemma QuietSeesNothing(s: State, step: Step, s': State)
    requires StageQuiet(s, 0) && StageQuiet(s, 1) && StageQuiet(s, 2) && StageQuiet(s, 3)
    requires Next(s, step, s') && !step.Main?
    ensures s'.flags.authSeen == s.flags.authSeen
  {
    hide SyncMove, Keeps, EnqueueNext;
  }

  lemma NotStartedStays(s: State, step: Step, s': State, k: nat)
    requires NotStarted(s, k) && Next(s, step, s') && !step.Main?
    ensures NotStarted(s', k) && (k == 0 ==> s'.flags.authSeen == s.flags.authSeen)
  {
    hide SyncMove, Keeps, EnqueueNext;
  }

  lemma EndedIsQuiet(s: State, stage: nat)
    requires StageEnded(s, stage)
    ensures StageQuiet(s, stage)
  {
  }

  lemma IdleIsQuiet(s: State)
    requires AllIdle(s)
    ensures QuietBut(s, 4, {})
  {
  }

  /** With every stage quiet no thread stands before its first `set`. */
  lemma SeenIsLate(s: State, late: set<nat>)
    requires QuietBut(s, 4, late)
    ensures SomeAuthSeen(s) <==> exists k :: k in late && StageSeen(s, k)
  {
    if SomeAuthSeen(s) {
      assert StageSeen(s, 0) || StageSeen(s, 1) || StageSeen(s, 2) || StageSeen(s, 3);
      assert forall k: nat | k < 4 && StageQuiet(s, k) :: !StageSeen(s, k);
    }
  }

  lemma MainMoves(s: State, m: MainStep, s': State)
    requires FlagsOk(s) && MainOk(s) && MainNext(s, m, s')
    ensures MainOk(s')
  {
    hide StageEnded, StageQuiet, SomeAuthSet, StageSeen;
    match m {
      case MJoin =>
        var stage := s.main.stage;
        if StageEnded(s, stage) {
          EndedIsQuiet(s, stage);
        }
        forall k: nat | k < stage + 1 && k !in s'.main.late
          ensures StageQuiet(s', k)
        {
          SameStage(s, s', k);
        }
      case MReturn =>
        SeenIsLate(s, s.main.late);
        SameStages(s, s', s.main.late);
      case MReplayEnds(auth) =>
        IdleIsQuiet(s);
        SameStages(s, s', {});
      case MStart =>
        IdleIsQuiet(s);
        SameStages(s, s', {});
      case MWake =>
      case MThreads =>
    }
  }

  lemma SameStage(s: State, s': State, stage: nat)
    requires SameThreads(s, s')
    ensures StageQuiet(s', stage) <==> StageQuiet(s, stage)
  {
  }

  lemma SameStages(s: State, s': State, late: set<nat>)
    requires SameThreads(s, s') && QuietBut(s, 4, late)
    ensures QuietBut(s', 4, late)
  {
    hide StageQuiet, SameThreads;
    forall k: nat | k < 4 && k !in late
      ensures StageQuiet(s', k)
    {
      SameStage(s, s', k);
    }
  }

  lemma MainStepOk(s: State, step: Step, s': State)
    requires FlagsOk(s) && MainOk(s) && Next(s, step, s')
    ensures MainOk(s')
  {
    hide SyncMove, Keeps, EnqueueNext, QuietBut, NotStarted, SomeAuthSet, SomeAuthSeen;
    if step.Main? {
      MainMoves(s, step.m, s');
    } else {
      if NotStarted(s, 0) {
        NotStartedStays(s, step, s', 0);
      }
      match s.main
      case MStarting(k) => NotStartedStays(s, step, s', k);
      case MJoining(stage, late) => QuietStays(s, step, s', stage, late);
      case MFinal(late) => QuietStays(s, step, s', 4, late);
      case MExit(_, late) => QuietStays(s, step, s', 4, late);
      case _ =>
    }
  }

  // ---- the queue ----

  predicate HasTicket(pc: WorkerPc) {
    !pc.WIdle? && !pc.WTop? && !pc.WGetting? && !pc.WDone?
  }

  /** Workers with an action in hand. */
  function Busy(workers: seq<WorkerPc>): nat {
    if workers == [] then 0
    else Busy(workers[..|workers| - 1]) + (if HasTicket(workers[|workers| - 1]) then 1 else 0)
  }

  /** What the heartbeat has enqueued of the response in hand. */
  function Current(hb: HbPc): seq<Action> {
    if hb.HbEnqueueing? && hb.i <= |hb.actions| then Unexpired(hb.actions[..hb.i], hb.now) else []
  }

  ghost predicate QueueOk(b: Board, hb: HbPc, workers: seq<WorkerPc>) {
    && b.puts == b.taken + b.queue
    && b.puts == Enqueued(b.batches) + Current(hb)
    && (forall i | 0 <= i < |b.puts| :: b.puts[i].Action?)
    && b.unfinished == |b.queue| + Busy(workers)
  }

  ghost predicate ClearedHas(b: Board, ticket: nat) {
    exists i | 0 <= i < |b.cleared| :: b.cleared[i].ticket == ticket
  }

  /** An action in hand has been taken, and its handler runs only once it is cleared. */
  ghost predicate WorkerOk(b: Board, pc: WorkerPc) {
    HasTicket(pc) ==>
      && pc.ticket < |b.taken|
      && (pc.WChecking? || pc.WUnexpired? ==> !ClearedHas(b, pc.ticket))
      && (pc.WUnexpired? ==> Keeps(b.taken[pc.ticket], pc.now))
      && (pc.WHandling? || pc.WAuthSeen? || pc.WAuthSet? ==> ClearedHas(b, pc.ticket))
  }

  ghost predicate WorkersOk(b: Board, workers: seq<WorkerPc>) {
    && (forall w | 0 <= w < |workers| :: WorkerOk(b, workers[w]))
    && forall v, w | 0 <= v < w < |workers| && HasTicket(workers[v]) && HasTicket(workers[w]) ::
         workers[v].ticket != workers[w].ticket
  }

  /** Only unexpired actions of known type are cleared, each once. */
  ghost predicate ClearedOk(b: Board) {
    && (forall i | 0 <= i < |b.cleared| ::
          && b.cleared[i].ticket < |b.taken|
          && Keeps(b.taken[b.cleared[i].ticket], b.cleared[i].now)
          && !b.taken[b.cleared[i].ticket].kind.UnknownKind?)
    && forall i, j | 0 <= i < j < |b.cleared| :: b.cleared[i].ticket != b.cleared[j].ticket
  }

  lemma {:induction false} BusyAfter(workers: seq<WorkerPc>, w: nat, pc: WorkerPc)
    requires w < |workers|
    ensures Busy(workers[w := pc]) + (if HasTicket(workers[w]) then 1 else 0) == Busy(workers) + (if HasTicket(pc) then 1 else 0)
  {
    var n := |workers| - 1;
    if w == n {
      assert workers[w := pc][..n] == workers[..n];
    } else {
      BusyAfter(workers[..n], w, pc);
      assert workers[w := pc][..n] == workers[..n][w := pc];
    }
  }

  /** `_enqueue_actions` appends exactly the unexpired actions, one by one. */
  lemma EnqueueStep(b: Board, actions: seq<Action>, i: nat, now: string, b': Board, hb': HbPc)
    requires EnqueueNext(b, actions, i, now, b', hb')
    requires b.puts == Enqueued(b.batches) + Unexpired(actions[..i], now)
    ensures b'.puts == Enqueued(b'.batches) + Current(hb')
    ensures b'.puts == b.puts || (b'.puts == b.puts + [actions[i]] && b'.queue == b.queue + [actions[i]] && actions[i].Action?)
  {
    hide Expired;
    if i == |actions| || actions[i].Malformed? {
      assert b'.batches[..|b'.batches| - 1] == b.batches;
    } else {
      assert actions[..i + 1][..i] == actions[..i];
    }
  }

  lemma QueueHeartbeatStep(s: State, h: HbStep, s': State)
    requires QueueOk(s.board, s.hb, s.workers) && HbNext(s, h, s')
    ensures QueueOk(s'.board, s'.hb, s'.workers)
  {
    hide Expired, Keeps, Busy;
    if h.HbNextAction? {
      hide EnqueueNext;
      EnqueueIsSmall(s.board, s.hb.actions, s.hb.i, s.hb.now, s'.board, s'.hb);
      EnqueueStep(s.board, s.hb.actions, s.hb.i, s.hb.now, s'.board, s'.hb);
    }
  }

  lemma EnqueueIsSmall(b: Board, actions: seq<Action>, i: nat, now: string, b': Board, hb': HbPc)
    requires EnqueueNext(b, actions, i, now, b', hb')
    ensures i <= |actions| && b'.taken == b.taken && b'.cleared == b.cleared
    ensures b'.unfinished - b.unfinished == |b'.queue| - |b.queue|
    ensures b'.puts == b.puts ==> b'.queue == b.queue
  {
  }

  lemma QueueWorkerStep(s: State, w: nat, k: WorkerStep, s': State)
    requires QueueOk(s.board, s.hb, s.workers) && WorkerNext(s, w, k, s')
    ensures QueueOk(s'.board, s'.hb, s'.workers)
  {
    hide Expired, Keeps, SyncMove, Busy, Enqueued, Current;
    BusyAfter(s.workers, w, s'.workers[w]);
  }

  lemma {:induction false} BusyOfStart(workers: seq<WorkerPc>)
    requires forall w | 0 <= w < |workers| :: !HasTicket(workers[w])
    ensures Busy(workers) == 0
  {
    if workers != [] {
      BusyOfStart(workers[..|workers| - 1]);
    }
  }

  lemma QueueStep(s: State, step: Step, s': State)
    requires QueueOk(s.board, s.hb, s.workers) && MainOk(s) && Next(s, step, s')
    ensures QueueOk(s'.board, s'.hb, s'.workers)
  {
    hide HbNext, WorkerNext, Busy, SyncMove, Enqueued;
    match step
    case Heartbeat(h) => QueueHeartbeatStep(s, h, s');
    case Worker(w, k) => QueueWorkerStep(s, w, k, s');
    case Main(m) =>
      if m.MThreads? && 1 <= s.main.started <= |s.workers| {
        BusyAfter(s.workers, s.main.started - 1, WTop);
      }
    case _ =>
  }

  lemma WorkersWorkerStep(s: State, w: nat, k: WorkerStep, s': State)
    requires WorkersOk(s.board, s.workers) && ClearedOk(s.board) && WorkerNext(s, w, k, s')
    ensures WorkersOk(s'.board, s'.workers) && ClearedOk(s'.board)
  {
    hide Expired, Keeps, SyncMove, IsCheckHost;
    var b, b', pc := s.board, s'.board, s.workers[w];
    assert WorkerOk(b, pc);
    assert b.cleared <= b'.cleared && b.taken <= b'.taken;
    if k.WDispatch? && b'.cleared != b.cleared {
      assert b'.cleared[|b.cleared|].ticket == pc.ticket;
    }
    forall v | 0 <= v < |s.workers|
      ensures WorkerOk(b', s'.workers[v])
    {
      assert WorkerOk(b, s.workers[v]);
      if HasTicket(s.workers[v]) {
        ClearedGrows(b, b', s.workers[v].ticket);
      }
    }
  }

  lemma ClearedGrows(b: Board, b': Board, ticket: nat)
    requires b.cleared <= b'.cleared
    ensures ClearedHas(b, ticket) ==> ClearedHas(b', ticket)
    ensures |b'.cleared| == |b.cleared| ==> (ClearedHas(b', ticket) ==> ClearedHas(b, ticket))
    ensures |b'.cleared| == |b.cleared| + 1 && b'.cleared[|b.cleared|].ticket != ticket ==>
      (ClearedHas(b', ticket) ==> ClearedHas(b, ticket))
  {
  }

  lemma WorkersStep(s: State, step: Step, s': State)
    requires WorkersOk(s.board, s.workers) && ClearedOk(s.board) && MainOk(s) && Next(s, step, s')
    ensures WorkersOk(s'.board, s'.workers) && ClearedOk(s'.board)
  {
    hide WorkerNext, SyncMove, Keeps, Expired;
    if step.Worker? {
      WorkersWorkerStep(s, step.w, step.k, s');
    }
  }

  // ---- NetBox syncs and the first-sync gate ----

  ghost predicate SyncsOk(v: Inventory, workers: seq<WorkerPc>, net: NetPc) {
    && InventoryOk(v)
    && (net.NbSyncing? ==> SyncOk(v, net.sync))
    && (net.NbAfter? && HadFetched(net.status) ==> v.replaced)
    && forall w | 0 <= w < |workers| && workers[w].WHandling? && workers[w].sync.Some? :: SyncOk(v, workers[w].sync.value)
  }

  predicate PastGate(c: CheckPc) {
    !c.CkIdle? && !c.CkGate? && !c.CkGated?
  }

  /** The event is set at most once by the NetBox thread, and exactly once when it has left or
      done a first sync; without NetBox it is set from the start. */
  ghost predicate EventOk(g: Gate, v: Inventory, net: NetPc) {
    && (if net.NbAbsent? then g.event && g.sets == 0 && !g.completed
        else
          && (g.event <==> g.sets > 0)
          && g.sets == (if g.completed || net.NbDone? then 1 else 0))
    && (g.afterFetch ==> v.replaced && g.event)
  }

  ghost predicate GateOk(g: Gate, time: nat, v: Inventory, check: CheckPc) {
    && (PastGate(check) ==> g.event || time >= g.since + GATE_SECONDS)
    && (PastGate(check) && !g.timedOut ==> g.event)
    && (g.firstView.Some? ==> PastGate(check))
    && (g.firstView.Some? && !g.timedOut && g.afterFetch ==> g.firstView.value in v.fetches)
  }

  lemma SyncsStep(s: State, step: Step, s': State)
    requires SyncsOk(s.inventory, s.workers, s.net) && Next(s, step, s')
    ensures SyncsOk(s'.inventory, s'.workers, s'.net)
    ensures s.inventory.fetches <= s'.inventory.fetches && (s.inventory.replaced ==> s'.inventory.replaced)
  {
    hide InventoryOk, SyncMove, SyncOk, HbNext, CheckNext, Keeps, Expired, IsCheckHost;
    var v, v' := s.inventory, s'.inventory;
    match step
    case Worker(w, k) =>
      if k.WSyncMove? {
        var pc := s.workers[w].sync.value;
        SyncMoveKeepsInventory(v, pc, s.flags.shutdown, v', k.sync, if s.net.NbSyncing? then s.net.sync else pc);
        forall u | 0 <= u < |s'.workers| && s'.workers[u].WHandling? && s'.workers[u].sync.Some?
          ensures SyncOk(v', s'.workers[u].sync.value)
        {
          SyncMoveKeepsInventory(v, pc, s.flags.shutdown, v', k.sync, if u == w then pc else s.workers[u].sync.value);
        }
      } else {
        FreshSyncOk(v);
      }
    case Net(n) =>
      FreshSyncOk(v);
      if n.NbSyncMove? {
        var pc := s.net.sync;
        SyncMoveKeepsInventory(v, pc, s.flags.shutdown, v', n.sync, pc);
        forall u | 0 <= u < |s.workers| && s.workers[u].WHandling? && s.workers[u].sync.Some?
          ensures SyncOk(v', s.workers[u].sync.value)
        {
          SyncMoveKeepsInventory(v, pc, s.flags.shutdown, v', n.sync, s.workers[u].sync.value);
        }
      } else if n.NbSyncEnds? {
        EndedSyncOk(v, s.net.sync);
      }
    case Heartbeat(h) => SameInventory(s, step, s');
    case Check(c) => SameInventory(s, step, s');
    case _ =>
  }

  lemma FreshSyncOk(v: Inventory)
    ensures SyncOk(v, Fetching)
  {
  }

  lemma EndedSyncOk(v: Inventory, pc: SyncPc)
    requires SyncOk(v, pc) && pc.Ended?
    ensures HadFetched(pc.status) ==> v.replaced
  {
  }

  lemma SameInventory(s: State, step: Step, s': State)
    requires Next(s, step, s') && (step.Heartbeat? || step.Check?)
    ensures s'.inventory == s.inventory && s'.workers == s.workers && s'.net == s.net
  {
    hide EnqueueNext;
  }

  lemma GateStep(s: State, step: Step, s': State)
    requires EventOk(s.gate, s.inventory, s.net) && GateOk(s.gate, s.time, s.inventory, s.check) && MainOk(s)
    requires SyncsOk(s.inventory, s.workers, s.net) && Next(s, step, s')
    ensures EventOk(s'.gate, s'.inventory, s'.net) && GateOk(s'.gate, s'.time, s'.inventory, s'.check)
  {
    SyncsStep(s, step, s');
    hide SyncMove, SyncOk, EnqueueNext, Keeps, Expired, IsCheckHost, SyncsOk, QuietBut;
    assert InventoryOk(s.inventory) by { hide *; SyncsInventory(s); }
  }

  lemma SyncsInventory(s: State)
    requires SyncsOk(s.inventory, s.workers, s.net)
    ensures InventoryOk(s.inventory)
  {
  }

  // ---- every reachable state ----

  ghost predicate Inv(s: State) {
    && FlagsOk(s) && MainOk(s)
    && QueueOk(s.board, s.hb, s.workers)
    && WorkersOk(s.board, s.workers) && ClearedOk(s.board)
    && SyncsOk(s.inventory, s.workers, s.net)
    && EventOk(s.gate, s.inventory, s.net) && GateOk(s.gate, s.time, s.inventory, s.check)
  }

  lemma InvInit(s: State, workerCount: nat)
    requires Init(s, workerCount)
    ensures Inv(s)
  {
    BusyOfStart(s.workers);
  }

  lemma InvStep(s: State, step: Step, s': State)
    requires Inv(s) && Next(s, step, s')
    ensures Inv(s')
  {
    hide Next, FlagsOk, MainOk, QueueOk, WorkersOk, ClearedOk, SyncsOk, EventOk, GateOk;
    FlagsStep(s, step, s');
    MainStepOk(s, step, s');
    QueueStep(s, step, s');
    WorkersStep(s, step, s');
    SyncsStep(s, step, s');
    GateStep(s, step, s');
  }

  lemma {:induction false} InvOfRun(states: seq<State>, steps: seq<Step>, workerCount: nat, i: nat)
    requires IsRun(states, steps, workerCount) && i <= |steps|
    ensures Inv(states[i])
  {
    hide Next, Inv, Init;
    if i == 0 {
      InvInit(states[0], workerCount);
    } else {
      InvOfRun(states, steps, workerCount, i - 1);
      InvStep(states[i - 1], steps[i - 1], states[i]);
    }
  }

  // ---- theorems: flags and exit code ----

  /** In every reachable state, an auth error recorded without shutdown means that some thread
      is between its two `set` calls. */
  lemma AuthWindow(states: seq<State>, steps: seq<Step>, workerCount: nat, i: nat)
    requires IsRun(states, steps, workerCount) && i <= |steps|
    ensures states[i].flags.auth && !states[i].flags.shutdown ==> SomeAuthSet(states[i])
  {
    hide Next, Init;
    InvOfRun(states, steps, workerCount, i);
  }

  /** The exit code. The runner returns 2 if an auth path is what set the shutdown event; it
      returns 2 only if a thread or the replay has met an auth error; and if no join timed
      out it returns 2 exactly then. */
  lemma ExitCode(states: seq<State>, steps: seq<Step>, workerCount: nat, i: nat)
    requires IsRun(states, steps, workerCount) && i <= |steps| && states[i].main.MExit?
    ensures var s := states[i];
      && (s.main.code == 0 || s.main.code == 2)
      && (s.flags.cause == Some(ByAuth) ==> s.main.code == 2)
      && (s.main.code == 2 ==> s.flags.authSeen)
      && (s.main.late == {} ==> (s.main.code == 2 <==> s.flags.authSeen))
  {
    hide Next, Init;
    InvOfRun(states, steps, workerCount, i);
  }

  /** Exactly when the exit code hides an auth error. The runner, about to return, returns 0
      although some thread has met one if and only if no thread has set the auth event and a
      thread whose join gave up stands between its error and its first `set`. */
  lemma ExitCodeLostIff(states: seq<State>, steps: seq<Step>, workerCount: nat, i: nat)
    requires IsRun(states, steps, workerCount) && i < |steps| && steps[i] == Main(MReturn)
    ensures states[i].main.MFinal? && states[i + 1].main.MExit?
    ensures var s, code := states[i], states[i + 1].main.code;
      !(code == 2 <==> s.flags.authSeen) <==>
      !s.flags.auth && exists k :: k in s.main.late && StageSeen(s, k)
  {
    hide Init, SomeAuthSet, SomeAuthSeen, StageSeen, QuietBut;
    InvOfRun(states, steps, workerCount, i);
    assert Next(states[i], steps[i], states[i + 1]);
    SeenIsLate(states[i], states[i].main.late);
  }

  /** Events are never unset. */
  lemma {:induction false} FlagsStay(states: seq<State>, steps: seq<Step>, workerCount: nat, i: nat, j: nat)
    requires IsRun(states, steps, workerCount) && i <= j <= |steps|
    ensures states[i].flags.shutdown ==> states[j].flags.shutdown && states[j].flags.cause == states[i].flags.cause
    ensures states[i].flags.auth ==> states[j].flags.auth
    ensures states[i].gate.event ==> states[j].gate.event
  {
    hide SyncMove, EnqueueNext, Keeps, Starts, StageEnded, IsCheckHost, Init;
    if i < j {
      FlagsStay(states, steps, workerCount, i, j - 1);
      assert Next(states[j - 1], steps[j - 1], states[j]);
    }
  }

  /** Under shutdown no step begins new work: no heartbeat call, check cycle or sync, no look at the
      queue, no handler, no post to the dashboard, and the runner starts no threads. */
  lemma NoStepBeginsWork(s: State, step: Step, s': State)
    requires Next(s, step, s') && s.flags.shutdown
    ensures s.hb.HbTop? ==> !s'.hb.HbCalling?
    ensures s.check.CkTop? ==> !s'.check.CkStarting?
    ensures s.net.NbTop? ==> !s'.net.NbSyncing?
    ensures |s'.workers| == |s.workers|
    ensures forall w | 0 <= w < |s.workers| && s.workers[w].WTop? :: !s'.workers[w].WGetting?
    ensures s'.board.cleared == s.board.cleared && s'.inventory.posts == s.inventory.posts
    ensures s.main.MReplayed? ==> !s'.main.MStarting?
  {
    hide EnqueueNext, Keeps, Expired, StageEnded, IsCheckHost;
    if step.Heartbeat? {
      ClearedSame(s, step, s');
    }
  }

  lemma ClearedSame(s: State, step: Step, s': State)
    requires Next(s, step, s') && step.Heartbeat?
    ensures s'.board.cleared == s.board.cleared
  {
    hide Keeps, Expired;
  }

  /** Hence once shutdown is set nothing is begun in the rest of the run, and what was posted to the
      dashboard stays as it is. */
  lemma {:induction false} NothingBeginsAfterShutdown(states: seq<State>, steps: seq<Step>, workerCount: nat, i: nat, j: nat)
    requires IsRun(states, steps, workerCount) && i <= j <= |steps| && states[i].flags.shutdown
    ensures states[j].flags.shutdown && states[j].inventory.posts == states[i].inventory.posts
    ensures j < |steps| ==>
      && !(states[j].hb.HbTop? && states[j + 1].hb.HbCalling?)
      && !(states[j].check.CkTop? && states[j + 1].check.CkStarting?)
      && !(states[j].net.NbTop? && states[j + 1].net.NbSyncing?)
      && |states[j].workers| == |states[j + 1].workers|
      && (forall w | 0 <= w < |states[j].workers| :: !(states[j].workers[w].WTop? && states[j + 1].workers[w].WGetting?))
      && !(states[j].main.MReplayed? && states[j + 1].main.MStarting?)
  {
    hide Next, Init;
    if i < j {
      NothingBeginsAfterShutdown(states, steps, workerCount, i, j - 1);
      NoStepBeginsWork(states[j - 1], steps[j - 1], states[j]);
      FlagsStay(states, steps, workerCount, i, j);
    }
    if j < |steps| {
      NoStepBeginsWork(states[j], steps[j], states[j + 1]);
    }
  }

  // ---- theorems: the first-sync gate ----

  /** A NetBox thread sets the event at most once, and exactly once if it has ended, however it
      ended. */
  lemma FirstSyncSetOnce(states: seq<State>, steps: seq<Step>, workerCount: nat, i: nat)
    requires IsRun(states, steps, workerCount) && i <= |steps| && !states[i].net.NbAbsent?
    ensures states[i].gate.sets <= 1 && (states[i].gate.event <==> states[i].gate.sets == 1)
    ensures states[i].net.NbDone? ==> states[i].gate.sets == 1
  {
    hide Next, Init;
    InvOfRun(states, steps, workerCount, i);
  }

  /** The first cycle begins only once the event is set or 30 seconds have gone by. */
  lemma FirstCycleGated(states: seq<State>, steps: seq<Step>, workerCount: nat, i: nat)
    requires IsRun(states, steps, workerCount) && i <= |steps| && PastGate(states[i].check)
    ensures states[i].gate.event || states[i].time >= states[i].gate.since + 30
  {
    hide Next, Init;
    InvOfRun(states, steps, workerCount, i);
  }

  lemma AfterFetchStep(s: State, step: Step, s': State)
    requires Inv(s) && Next(s, step, s') && s.gate.event && s.gate.afterFetch
    ensures s'.gate.event && s'.gate.afterFetch
  {
    hide SyncMove, EnqueueNext, Keeps, Starts, StageEnded, IsCheckHost, FlagsOk, MainOk, QueueOk, WorkersOk, ClearedOk, GateOk, SyncsOk;
  }

  lemma {:induction false} AfterFetchStays(states: seq<State>, steps: seq<Step>, workerCount: nat, i: nat, j: nat)
    requires IsRun(states, steps, workerCount) && i <= j <= |steps|
    requires states[i].gate.event && states[i].gate.afterFetch
    ensures states[j].gate.event && states[j].gate.afterFetch
  {
    hide Next, Inv, Init;
    if i < j {
      AfterFetchStays(states, steps, workerCount, i, j - 1);
      InvOfRun(states, steps, workerCount, j - 1);
      AfterFetchStep(states[j - 1], steps[j - 1], states[j]);
    }
  }

  /** When the NetBox thread sets the event after a sync whose fetch succeeded, whatever became
      of the submission, a check thread let through by the event checks in its first cycle
      the hosts of a successful fetch. */
  lemma FirstCycleSeesFetch(states: seq<State>, steps: seq<Step>, workerCount: nat, i: nat, j: nat)
    requires IsRun(states, steps, workerCount) && i < j <= |steps| && steps[i] == Net(NbFirstDone)
    requires states[i].net.NbAfter? && !states[i].gate.completed
    requires !states[i].net.status.NetboxError? && !states[i].net.status.Crashed? && !states[i].net.status.Unfinished?
    requires states[j].gate.firstView.Some? && !states[j].gate.timedOut
    ensures states[j].gate.firstView.value in states[j].inventory.fetches
  {
    hide SyncMove, EnqueueNext, FlagsOk, MainOk, QueueOk, WorkersOk, ClearedOk, Init, InventoryOk;
    InvOfRun(states, steps, workerCount, i);
    assert Next(states[i], steps[i], states[i + 1]);
    AfterFetchStays(states, steps, workerCount, i + 1, j);
    InvOfRun(states, steps, workerCount, j);
  }

  // ---- theorems: NetBox safety ----

  /** However syncs of the thread and of actions interleave: the local view is the initial
      empty one or the result of a fetch, and each array sent to the dashboard is the in-order
      image of one. */
  lemma NetboxSafety(states: seq<State>, steps: seq<Step>, workerCount: nat, i: nat)
    requires IsRun(states, steps, workerCount) && i <= |steps|
    ensures var v := states[i].inventory;
      && (v.local == [] || v.local in v.fetches)
      && forall p | 0 <= p < |v.posts| :: IsImageOfFetch(v, v.posts[p])
  {
    hide Next, Init, IsImageOfFetch;
    InvOfRun(states, steps, workerCount, i);
  }

  // ---- theorems: the action queue ----

  /** Conservation: what was enqueued is what was taken followed by what is queued, and is
      exactly the unexpired actions of the responses gone through, in order; unfinished tasks
      are those queued and those in hand. */
  lemma QueueAccounts(states: seq<State>, steps: seq<Step>, workerCount: nat, i: nat)
    requires IsRun(states, steps, workerCount) && i <= |steps|
    ensures var b := states[i].board;
      && b.puts == b.taken + b.queue
      && b.puts == Enqueued(b.batches) + Current(states[i].hb)
      && b.unfinished == |b.queue| + Busy(states[i].workers)
  {
    hide Next, Init, Enqueued, Current, Busy;
    InvOfRun(states, steps, workerCount, i);
  }

  /** Each taken action is in the hands of at most one worker; the dispatch checks pass for it
      at most once, only for a known type and before its expiry; and its handler runs only
      after that. */
  lemma HandledAtMostOnce(states: seq<State>, steps: seq<Step>, workerCount: nat, i: nat)
    requires IsRun(states, steps, workerCount) && i <= |steps|
    ensures var b, workers := states[i].board, states[i].workers;
      && (forall v, w | 0 <= v < w < |workers| && HasTicket(workers[v]) && HasTicket(workers[w]) ::
            workers[v].ticket != workers[w].ticket)
      && (forall j, k | 0 <= j < k < |b.cleared| :: b.cleared[j].ticket != b.cleared[k].ticket)
      && (forall j | 0 <= j < |b.cleared| ::
            && b.cleared[j].ticket < |b.taken|
            && Keeps(b.taken[b.cleared[j].ticket], b.cleared[j].now)
            && !b.taken[b.cleared[j].ticket].kind.UnknownKind?)
      && forall w | 0 <= w < |workers| && workers[w].WHandling? :: ClearedHas(b, workers[w].ticket)
  {
    hide Next, Init, Keeps, ClearedHas;
    InvOfRun(states, steps, workerCount, i);
    assert forall w | 0 <= w < |states[i].workers| :: WorkerOk(states[i].board, states[i].workers[w]);
  }

  /** Once shutdown is set no further action passes its dispatch checks. */
  lemma {:induction false} NothingClearedAfterShutdown(states: seq<State>, steps: seq<Step>, workerCount: nat, i: nat, j: nat)
    requires IsRun(states, steps, workerCount) && i <= j <= |steps| && states[i].flags.shutdown
    ensures states[j].board.cleared == states[i].board.cleared
  {
    hide SyncMove, Keeps, Expired, Starts, StageEnded, IsCheckHost, Init;
    if i < j {
      NothingClearedAfterShutdown(states, steps, workerCount, i, j - 1);
      FlagsStay(states, steps, workerCount, i, j - 1);
      assert Next(states[j - 1], steps[j - 1], states[j]);
    }
  }

  lemma {:induction false} BusyHasOne(workers: seq<WorkerPc>, w: nat)
    requires w < |workers| && HasTicket(workers[w])
    ensures Busy(workers) > 0
  {
    if w < |workers| - 1 {
      BusyHasOne(workers[..|workers| - 1], w);
    }
  }

  /** `task_done` is never called too often: a worker about to call it finds an unfinished task. */
  lemma TaskDoneNeverRaises(states: seq<State>, steps: seq<Step>, workerCount: nat, i: nat, w: nat)
    requires IsRun(states, steps, workerCount) && i <= |steps|
    requires w < |states[i].workers| && states[i].workers[w].WFinishing?
    ensures states[i].board.unfinished > 0
  {
    hide Next, Init, Busy;
    InvOfRun(states, steps, workerCount, i);
    BusyHasOne(states[i].workers, w);
  }

  // ---- an auth error can go unreported ----

  const FOUR: nat := 4

  /** The runtime with the first k of its seven threads started. */
  function Booting(k: nat): State {
    State(0, Flags(false, false, false, None), Board([], 0, [], [], [], []), Gate(false, 0, false, false, 0, false, None),
          NEW_INVENTORY, if k < FOUR + 3 then MStarting(k) else MWaiting,
          if k > 0 then HbTop else HbIdle,
          seq(FOUR, (w: nat) => if w + 1 < k then WTop else WIdle),
          if k > FOUR + 1 then CkGate else CkIdle,
          if k > FOUR + 2 then NbTop else NbIdle)
  }

  lemma Extend(states: seq<State>, steps: seq<Step>, step: Step, s': State) returns (states': seq<State>, steps': seq<Step>)
    requires IsRun(states, steps, FOUR) && Next(states[|steps|], step, s')
    ensures IsRun(states', steps', FOUR) && |states'| == |states| + 1 && states'[|steps'|] == s'
  {
    hide Next, Init;
    states', steps' := states + [s'], steps + [step];
    forall i | 0 <= i < |steps'| ensures Next(states'[i], steps'[i], states'[i + 1]) {
      if i < |steps| {
        assert Next(states[i], steps[i], states[i + 1]);
      }
    }
  }

  lemma {:induction false} Boot(k: nat) returns (states: seq<State>, steps: seq<Step>)
    requires k <= FOUR + 3
    ensures IsRun(states, steps, FOUR) && states[|steps|] == Booting(k)
  {
    hide IsRun;
    if k == 0 {
      var s := Booting(0).(main := MReplaying);
      states, steps := [s], [];
      assert IsRun(states, steps, FOUR) by { IsRunOfOne(s); }
      states, steps := Extend(states, steps, Main(MReplayEnds(false)), s.(main := MReplayed));
      states, steps := Extend(states, steps, Main(MStart), Booting(0));
    } else {
      states, steps := Boot(k - 1);
      assert 1 <= k - 1 <= FOUR ==> Booting(k).workers == Booting(k - 1).workers[k - 2 := WTop];
      assert !(1 <= k - 1 <= FOUR) ==> Booting(k).workers == Booting(k - 1).workers;
      states, steps := Extend(states, steps, Main(MThreads), Booting(k));
    }
  }

  lemma IsRunOfOne(s: State)
    requires Init(s, FOUR)
    ensures IsRun([s], [], FOUR)
  {
  }

  /** The heartbeat has met a 401 and set neither event. */
  function Revoked(): State {
    Booting(FOUR + 3).(hb := HbAuthSeen, flags := Flags(false, false, true, None))
  }

  lemma RevokedIsReached() returns (states: seq<State>, steps: seq<Step>)
    ensures IsRun(states, steps, FOUR) && states[|steps|] == Revoked()
  {
    hide IsRun, WorkerNext, CheckNext, NetNext, MainNext, EnqueueNext;
    states, steps := Boot(FOUR + 3);
    states, steps := Extend(states, steps, Heartbeat(HbLoop), Booting(FOUR + 3).(hb := HbCalling));
    states, steps := Extend(states, steps, Heartbeat(HbAnswer(HbAuthSeen)), Revoked());
  }

  /** The revoked heartbeat at the join of the given stage, all joins so far having given up. */
  function Leaving(main: MainPc): State {
    Revoked().(flags := Flags(true, false, true, Some(BySignal)), main := main)
  }

  lemma LateJoin(stage: nat, late: set<nat>)
    requires stage <= 3
    ensures Next(Leaving(MJoining(stage, late)), Main(MJoin),
                 Leaving(if stage < 3 then MJoining(stage + 1, late + {stage}) else MFinal(late + {stage})))
  {
    assert Revoked().workers[0] == WTop;
  }

  lemma LeavingStarts()
    ensures Next(Revoked(), Signal, Leaving(MWaiting))
    ensures Next(Leaving(MWaiting), Main(MWake), Leaving(MJoining(0, {})))
    ensures Next(Leaving(MFinal({0, 1, 2, 3})), Main(MReturn), Leaving(MExit(EXIT_CLEAN, {0, 1, 2, 3})))
  {
  }

  /** Exit code 0 does not rule out a revoked agent: a signal arrives while the heartbeat's
      401 is in hand, every join times out, and the flag is read before it is set. */
  lemma AuthErrorCanExitClean() returns (states: seq<State>, steps: seq<Step>)
    ensures IsRun(states, steps, FOUR)
    ensures states[|steps|].main == MExit(0, {0, 1, 2, 3}) && states[|steps|].flags.authSeen
  {
    hide IsRun, Next;
    states, steps := RevokedIsReached();
    LeavingStarts();
    states, steps := Extend(states, steps, Signal, Leaving(MWaiting));
    states, steps := Extend(states, steps, Main(MWake), Leaving(MJoining(0, {})));
    LateJoin(0, {});
    assert {} + {0} == {0};
    states, steps := Extend(states, steps, Main(MJoin), Leaving(MJoining(1, {0})));
    LateJoin(1, {0});
    assert {0} + {1} == {0, 1};
    states, steps := Extend(states, steps, Main(MJoin), Leaving(MJoining(2, {0, 1})));
    LateJoin(2, {0, 1});
    assert {0, 1} + {2} == {0, 1, 2};
    states, steps := Extend(states, steps, Main(MJoin), Leaving(MJoining(3, {0, 1, 2})));
    LateJoin(3, {0, 1, 2});
    assert {0, 1, 2} + {3} == {0, 1, 2, 3};
    states, steps := Extend(states, steps, Main(MJoin), Leaving(MFinal({0, 1, 2, 3})));
    states, steps := Extend(states, steps, Main(MReturn), Leaving(MExit(EXIT_CLEAN, {0, 1, 2, 3})));
  }
}
