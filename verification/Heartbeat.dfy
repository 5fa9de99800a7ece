/** certwatch/heartbeat_thread.py as imperative code: the heartbeat loop, what it does with
    each answer, and the configuration it owns. Every flag, queue operation and answer is
    recorded as a step of `Runtime`, and the loop is proved to make a run of that machine. */
module Heartbeat {
  import opened Wrappers
  import opened Runtime
  import RuntimeSafety
  import opened Clock

  /** The part of a configuration the heartbeat reads; None for a missing interval. */
  datatype Config = Config(heartbeatSeconds: Option<nat>)

  /** How `get_config` ends: a configuration, a 401, another DashboardError, or any other
      exception. */
  datatype Refresh = Fetched(config: Config) | Refresh401 | Unrefreshed | RefreshRaises

  /** How the heartbeat call ends; in a response, whether a refresh is asked for and how that
      ends, the pending actions, and the time they are compared with. */
  datatype Reply =
    | Reply401
    | Unavailable
    | ReplyRaises
    | Response(refresh: Option<Refresh>, actions: seq<Action>, now: string)

  /** One round of the loop: shutdown set before it, the reply, how long the beat takes, and
      shutdown set during the wait. */
  datatype Beat = Beat(shutdown: bool, reply: Reply, duration: nat, woke: bool)

  datatype BeatEnd = GoesOn | AuthStop | CrashStop

  /** When a beat began and ended. */
  datatype Span = Span(startedAt: int, endedAt: int)

  // ---- the specification ----

  /** The response is processed as far as its actions: a refresh that fails other than by 401
      or an unexpected exception does not stop them. */
  predicate ReachesActions(r: Reply) {
    r.Response? && (r.refresh.Some? ==> r.refresh.value.Fetched? || r.refresh.value.Unrefreshed?)
  }

  /** The actions one beat goes through. */
  function BatchesOf(r: Reply): seq<Batch> {
    if ReachesActions(r) then [Batch(r.actions[..WellFormed(r.actions)], r.now)] else []
  }

  function BatchesAfter(script: seq<Beat>, n: nat): seq<Batch>
    requires n <= |script|
  {
    if n == 0 then [] else BatchesAfter(script, n - 1) + BatchesOf(script[n - 1].reply)
  }

  predicate Refreshes(r: Reply) {
    r.Response? && r.refresh.Some? && r.refresh.value.Fetched?
  }

  function Refreshed(c: Config, r: Reply): Config {
    if Refreshes(r) then r.refresh.value.config else c
  }

  function ConfigAfter(c: Config, script: seq<Beat>, n: nat): Config
    requires n <= |script|
  {
    if n == 0 then c else Refreshed(ConfigAfter(c, script, n - 1), script[n - 1].reply)
  }

  /** A 401 anywhere stops the world; an unexpected exception, a malformed action's included,
      stops it too, without an auth error. */
  function ReplyEnd(r: Reply): BeatEnd {
    if r.Reply401? || (r.Response? && r.refresh == Some(Refresh401)) then AuthStop
    else if r.ReplyRaises? || (r.Response? && (r.refresh == Some(RefreshRaises) || Malformed in r.actions)) then CrashStop
    else GoesOn
  }

  /** How a round ends before its wait, `c` being the configuration after its reply. */
  function RoundEnd(c: Config, r: Reply): BeatEnd {
    if ReplyEnd(r) != GoesOn then ReplyEnd(r)
    else if c.heartbeatSeconds.None? then CrashStop
    else GoesOn
  }

  function EndOf(c: Config, script: seq<Beat>, n: nat): BeatEnd
    requires 0 < n <= |script|
  {
    RoundEnd(ConfigAfter(c, script, n), script[n - 1].reply)
  }

  /** Why the n-th beat ended the loop, read off its reply and the configuration then current: a
      401 to the heartbeat or to the refresh; an unexpected exception, a malformed action that
      is reached or a missing interval. */
  ghost predicate BeatEnds(c: Config, script: seq<Beat>, n: nat, end: BeatEnd)
    requires 0 < n <= |script|
  {
    var r := script[n - 1].reply;
    var refresh401 := r.Response? && r.refresh == Some(Refresh401);
    var refreshRaises := r.Response? && r.refresh == Some(RefreshRaises);
    && (end == AuthStop <==> r == Reply401 || refresh401)
    && (end == CrashStop <==>
          || r == ReplyRaises || refreshRaises
          || (r.Response? && !refresh401 && exists i | 0 <= i < |r.actions| :: r.actions[i].Malformed?)
          || (r != Reply401 && !refresh401 && ConfigAfter(c, script, n).heartbeatSeconds == None))
  }

  lemma EndOfMeans(c: Config, script: seq<Beat>, n: nat)
    requires 0 < n <= |script|
    ensures BeatEnds(c, script, n, EndOf(c, script, n))
  {
    hide ConfigAfter;
    var r := script[n - 1].reply;
    assert r.Response? && Malformed in r.actions ==> exists i | 0 <= i < |r.actions| :: r.actions[i] == Malformed;
  }

  /** The last beat made ended the loop, or its wait was woken. */
  ghost predicate LastEnds(script: seq<Beat>, n: nat, end: BeatEnd)
    requires n <= |script|
  {
    n > 0 && (end != GoesOn || script[n - 1].woke)
  }

  /** The k-th beat begins when the interval current at the end of the one before is over. */
  ghost predicate Follows(c: Config, script: seq<Beat>, log: seq<Span>, k: nat)
    requires 0 < k < |log| <= |script|
  {
    var interval := ConfigAfter(c, script, k).heartbeatSeconds;
    interval.Some? && log[k].startedAt == log[k - 1].endedAt + interval.value
  }

  ghost predicate SpansOk(c: Config, script: seq<Beat>, log: seq<Span>) {
    && |log| <= |script|
    && (forall k | 0 <= k < |log| :: log[k].endedAt == log[k].startedAt + script[k].duration)
    && forall k | 0 < k < |log| :: Follows(c, script, log, k)
  }

  lemma SpansStart(c: Config, script: seq<Beat>)
    ensures SpansOk(c, script, [])
  {
  }

  lemma SpansStep(c: Config, script: seq<Beat>, log: seq<Span>, span: Span)
    requires SpansOk(c, script, log) && |log| < |script| && span.endedAt == span.startedAt + script[|log|].duration
    requires log != [] ==>
      && ConfigAfter(c, script, |log|).heartbeatSeconds.Some?
      && span.startedAt == log[|log| - 1].endedAt + ConfigAfter(c, script, |log|).heartbeatSeconds.value
    ensures SpansOk(c, script, log + [span])
  {
    hide ConfigAfter;
    forall k | 0 < k < |log| + 1
      ensures Follows(c, script, log + [span], k)
    {
      if k < |log| {
        assert Follows(c, script, log, k);
      }
    }
  }

  // ---- what the specification means ----

  /** The configuration is that of the last refresh that succeeded, or the first one. */
  lemma {:induction false} ConfigIsLastRefresh(c: Config, script: seq<Beat>, n: nat, k: nat, latest: Config)
    requires k <= n <= |script|
    requires if k == 0 then latest == c
             else script[k - 1].reply.Response? && script[k - 1].reply.refresh == Some(Fetched(latest))
    requires forall i | k <= i < n :: !(script[i].reply.Response? && script[i].reply.refresh.Some? && script[i].reply.refresh.value.Fetched?)
    ensures ConfigAfter(c, script, n) == latest
  {
    if k < n {
      ConfigIsLastRefresh(c, script, n - 1, k, latest);
    }
  }

  /** The k-th beat went through a: its response had a, with no malformed action up to it, and if
      it asked for a refresh, that succeeded or failed in one of the ways that are tolerated. */
  ghost predicate GoneThrough(script: seq<Beat>, k: nat, a: Action)
    requires k < |script|
  {
    var r := script[k].reply;
    && r.Response?
    && (r.refresh == None || r.refresh == Some(Unrefreshed) || r.refresh.value.Fetched?)
    && exists i | 0 <= i < |r.actions| :: r.actions[i] == a && forall j | 0 <= j <= i :: r.actions[j].Action?
  }

  lemma GoneThroughIff(script: seq<Beat>, k: nat, a: Action)
    requires k < |script|
    ensures var r := script[k].reply;
      GoneThrough(script, k, a) <==> ReachesActions(r) && a in r.actions[..WellFormed(r.actions)]
  {
    var r := script[k].reply;
    if r.Response? {
      var n := WellFormed(r.actions);
      if a in r.actions[..n] {
        var i :| 0 <= i < n && r.actions[i] == a;
      }
      if i :| 0 <= i < |r.actions| && r.actions[i] == a && forall j | 0 <= j <= i :: r.actions[j].Action? {
        assert i < n;
        assert r.actions[..n][i] == a;
      }
    }
  }

  /** Exactly which actions are enqueued: those unexpired when a beat went through them. A
      failed refresh loses none, and nothing else is enqueued. */
  lemma {:induction false} EnqueuedIff(script: seq<Beat>, n: nat, a: Action)
    requires n <= |script|
    ensures a in Enqueued(BatchesAfter(script, n)) <==>
      exists k | 0 <= k < n :: GoneThrough(script, k, a) && Keeps(a, script[k].reply.now)
  {
    hide Keeps, WellFormed, Unexpired, Enqueued, GoneThrough;
    if n == 0 {
      NoBatch();
    } else {
      EnqueuedIff(script, n - 1, a);
      GoneThroughIff(script, n - 1, a);
      var r := script[n - 1].reply;
      EnqueuedConcat(BatchesAfter(script, n - 1), BatchesOf(r));
      if ReachesActions(r) {
        OneBatch(r.actions[..WellFormed(r.actions)], r.now);
        UnexpiredIff(r.actions[..WellFormed(r.actions)], r.now, a);
      } else {
        NoBatch();
      }
    }
  }

  lemma NoBatch()
    ensures Enqueued([]) == []
  {
  }

  lemma OneBatch(actions: seq<Action>, now: string)
    ensures Enqueued([Batch(actions, now)]) == Unexpired(actions, now)
  {
    assert [Batch(actions, now)][..0] == [];
  }

  /** No catch-up: no beat begins before the end of an earlier one plus the interval of the
      configuration current then. */
  lemma {:induction false} BeatsDoNotCatchUp(c: Config, script: seq<Beat>, log: seq<Span>, i: nat, j: nat)
    requires SpansOk(c, script, log) && i < j < |log|
    ensures ConfigAfter(c, script, i + 1).heartbeatSeconds.Some?
    ensures log[j].startedAt >= log[i].endedAt + ConfigAfter(c, script, i + 1).heartbeatSeconds.value
  {
    hide ConfigAfter;
    assert Follows(c, script, log, i + 1) && Follows(c, script, log, j);
    if i + 1 < j {
      BeatsDoNotCatchUp(c, script, log, i, j - 1);
    }
  }

  // ---- the thread ----

  class HeartbeatThread {
    var config: Config
    var queue: seq<Action>        // the queue and the events are shared with the other threads
    var unfinished: nat
    var shutdown: bool
    var auth: bool
    ghost var workerCount: nat
    ghost var states: seq<State>
    ghost var steps: seq<Step>

    ghost function World(): State
      requires |states| > 0
      reads this`states
    {
      states[|states| - 1]
    }

    /** The recorded history is a run of the machine and ends in the actual queue and events. */
    ghost predicate Valid()
      reads this
    {
      && |states| > 0 && IsRun(states, steps, workerCount)
      && World().board.queue == queue && World().board.unfinished == unfinished
      && World().flags.shutdown == shutdown && World().flags.auth == auth
    }

    /** A thread the runner has just started, in whatever state the others are. */
    constructor (config: Config, queue: seq<Action>, unfinished: nat, shutdown: bool, auth: bool,
                 ghost workerCount: nat, ghost states: seq<State>, ghost steps: seq<Step>)
      requires |states| > 0 && IsRun(states, steps, workerCount)
      requires var s := states[|states| - 1];
        s.hb.HbTop? && s.board.queue == queue && s.board.unfinished == unfinished && s.flags.shutdown == shutdown && s.flags.auth == auth
      ensures Valid() && this.config == config && this.states == states && this.steps == steps
    {
      this.config, this.queue, this.unfinished, this.shutdown, this.auth := config, queue, unfinished, shutdown, auth;
      this.workerCount, this.states, this.steps := workerCount, states, steps;
    }

    ghost method Record(step: Step, s': State)
      requires |states| > 0 && IsRun(states, steps, workerCount) && Next(World(), step, s')
      modifies this`states, this`steps
      ensures |states| > 0 && IsRun(states, steps, workerCount) && World() == s'
      ensures states == old(states) + [s'] && steps == old(steps) + [step]
    {
      hide Next, Init;
      states := states + [s'];
      steps := steps + [step];
    }

    /** Another thread or a signal sets the shutdown event. */
    method OthersShutDown()
      requires Valid()
      modifies this`shutdown, this`states, this`steps
      ensures Valid() && old(states) <= states && shutdown
      ensures World() == old(World()).(flags := Shut(old(World()).flags, BySignal))
    {
      hide IsRun;
      ghost var s := World();
      shutdown := true;
      Record(Signal, s.(flags := Shut(s.flags, BySignal)));
    }

    /** The two `set` calls after an auth error, in their order. */
    method Escalate()
      requires Valid() && World().hb == HbAuthSeen
      modifies this`auth, this`shutdown, this`states, this`steps
      ensures Valid() && old(states) <= states && auth && shutdown
      ensures World().hb == HbDone && World().board == old(World()).board
    {
      hide IsRun, EnqueueNext;
      ghost var s := World();
      auth := true;
      ghost var s1 := s.(hb := HbAuthSet, flags := s.flags.(auth := true));
      Record(Heartbeat(HbSetAuth), s1);
      shutdown := true;
      Record(Heartbeat(HbSetShutdown), s1.(hb := HbDone, flags := Shut(s1.flags, ByAuth)));
    }

    /** The catch-all of `run`. */
    method Crash()
      requires Valid() && World().hb == HbCrashed
      modifies this`shutdown, this`states, this`steps
      ensures Valid() && old(states) <= states && shutdown
      ensures World().hb == HbDone && World().board == old(World()).board
    {
      hide IsRun, EnqueueNext;
      ghost var s := World();
      shutdown := true;
      Record(Heartbeat(HbSetShutdown), s.(hb := HbDone, flags := Shut(s.flags, ByCrash)));
    }

    /** One round of the loop in `_enqueue_actions`. */
    method PutOrSkip(a: Action, ghost actions: seq<Action>, ghost i: nat, now: string)
      requires Valid() && World().hb == HbEnqueueing(actions, i, now)
      requires i < |actions| && actions[i] == a && a.Action?
      modifies this`queue, this`unfinished, this`states, this`steps
      ensures Valid() && old(states) <= states && World().flags == old(World()).flags
      ensures World().hb == HbEnqueueing(actions, i + 1, now) && World().board.batches == old(World()).board.batches
      ensures queue == old(queue) + (if Keeps(a, now) then [a] else [])
      ensures unfinished == old(unfinished) + (if Keeps(a, now) then 1 else 0)
    {
      hide IsRun;
      ghost var s := World();
      ghost var b := s.board;
      var keeps := Keeps(a, now);
      if keeps {
        queue, unfinished := queue + [a], unfinished + 1;
        b := b.(queue := queue, unfinished := unfinished, puts := b.puts + [a]);
      }
      Record(Heartbeat(HbNextAction), s.(board := b, hb := HbEnqueueing(actions, i + 1, now)));
    }

    /** The end of that loop, at the last action or at one that raises. */
    ghost method EndBatch(actions: seq<Action>, i: nat, now: string)
      requires Valid() && World().hb == HbEnqueueing(actions, i, now)
      requires i <= |actions| && (i < |actions| ==> actions[i].Malformed?)
      modifies this`states, this`steps
      ensures Valid() && old(states) <= states && World().flags == old(World()).flags
      ensures World().hb == (if i == |actions| then HbWaiting else HbCrashed)
      ensures World().board.batches == old(World()).board.batches + [Batch(actions[..i], now)]
    {
      hide IsRun;
      var s := World();
      Record(Heartbeat(HbNextAction), s.(board := s.board.(batches := s.board.batches + [Batch(actions[..i], now)]),
        hb := if i == |actions| then HbWaiting else HbCrashed));
    }

    /** `_enqueue_actions`: the unexpired actions go on the queue in order, up to the first that
        raises, and each put is one more unfinished task. */
    method EnqueueActions(actions: seq<Action>, now: string) returns (enqueued: nat, skippedExpired: nat, raised: bool)
      requires Valid() && World().hb == HbEnqueueing(actions, 0, now)
      modifies this`queue, this`unfinished, this`states, this`steps
      ensures Valid() && old(states) <= states && World().flags == old(World()).flags
      ensures queue == old(queue) + Unexpired(actions[..WellFormed(actions)], now)
      ensures unfinished == old(unfinished) + enqueued
      ensures enqueued == |Unexpired(actions[..WellFormed(actions)], now)|
      ensures raised <==> Malformed in actions
      ensures !raised ==> enqueued + skippedExpired == |actions|
      ensures World().hb == (if raised then HbCrashed else HbWaiting)
      ensures World().board.batches == old(World()).board.batches + [Batch(actions[..WellFormed(actions)], now)]
    {
      hide Keeps, IsRun, Valid;
      enqueued, skippedExpired, raised := 0, 0, false;
      var i := 0;
      ValidHasWorld();
      while i < |actions| && actions[i].Action?
        invariant i <= WellFormed(actions)
        invariant Valid() && old(states) <= states && World().flags == old(World()).flags
        invariant World().hb == HbEnqueueing(actions, i, now) && World().board.batches == old(World()).board.batches
        invariant queue == old(queue) + Unexpired(actions[..i], now)
        invariant unfinished == old(unfinished) + enqueued
        invariant enqueued == |Unexpired(actions[..i], now)|
        invariant enqueued + skippedExpired == i
      {
        assert actions[..i + 1][..i] == actions[..i];
        PutOrSkip(actions[i], actions, i, now);
        ValidHasWorld();
        if Keeps(actions[i], now) {
          enqueued := enqueued + 1;
        } else {
          skippedExpired := skippedExpired + 1;
        }
        i := i + 1;
      }
      raised := i < |actions|;
      EndBatch(actions, i, now);
      ValidHasWorld();
    }

    lemma ValidHasWorld()
      requires Valid()
      ensures |states| > 0
    {
    }

    /** `_refresh_config`. */
    method RefreshConfig(outcome: Refresh, ghost pending: seq<Action>, ghost now: string) returns (end: BeatEnd)
      requires Valid() && World().hb == HbRefreshing(pending)
      modifies this
      ensures Valid() && old(states) <= states && World().board == old(World()).board
      ensures queue == old(queue) && unfinished == old(unfinished)
      ensures config == if outcome.Fetched? then outcome.config else old(config)
      ensures end == if outcome.Refresh401? then AuthStop else if outcome.RefreshRaises? then CrashStop else GoesOn
      ensures auth == (old(auth) || end.AuthStop?) && shutdown == (old(shutdown) || end.AuthStop?)
      ensures World().hb == match end
        case GoesOn => HbEnqueueing(pending, 0, now)
        case AuthStop => HbDone
        case CrashStop => HbCrashed
    {
      hide IsRun, EnqueueNext;
      ghost var s := World();
      match outcome
      case Fetched(latest) =>
        config := latest;
        Record(Heartbeat(HbRefreshed(false)), s.(hb := HbEnqueueing(pending, 0, now)));
        end := GoesOn;
      case Refresh401 =>
        Record(Heartbeat(HbRefreshed(true)), s.(hb := HbAuthSeen, flags := s.flags.(authSeen := true)));
        Escalate();
        end := AuthStop;
      case Unrefreshed =>
        Record(Heartbeat(HbRefreshed(false)), s.(hb := HbEnqueueing(pending, 0, now)));
        end := GoesOn;
      case RefreshRaises =>
        Record(Heartbeat(HbRaise), s.(hb := HbCrashed));
        end := CrashStop;
    }

    /** `_process_response`: refresh first, then the actions. */
    method ProcessResponse(r: Reply) returns (end: BeatEnd)
      requires Valid() && World().hb == HbCalling && r.Response?
      modifies this
      ensures Valid() && old(states) <= states
      ensures config == Refreshed(old(config), r)
      ensures queue == old(queue) + Enqueued(BatchesOf(r))
      ensures World().board.batches == old(World()).board.batches + BatchesOf(r)
      ensures end == ReplyEnd(r)
      ensures auth == (old(auth) || end.AuthStop?) && shutdown == (old(shutdown) || end.AuthStop?)
      ensures World().hb == match end
        case GoesOn => HbWaiting
        case AuthStop => HbDone
        case CrashStop => HbCrashed
    {
      hide Unexpired, IsRun, EnqueueNext, Enqueued;
      NoBatch();
      OneBatch(r.actions[..WellFormed(r.actions)], r.now);
      ghost var s := World();
      if r.refresh.Some? {
        Record(Heartbeat(HbAnswer(HbRefreshing(r.actions))), s.(hb := HbRefreshing(r.actions)));
        end := RefreshConfig(r.refresh.value, r.actions, r.now);
        if end != GoesOn {
          return;
        }
      } else {
        Record(Heartbeat(HbAnswer(HbEnqueueing(r.actions, 0, r.now))), s.(hb := HbEnqueueing(r.actions, 0, r.now)));
      }
      var enqueued, skipped, raised := EnqueueActions(r.actions, r.now);
      end := if raised then CrashStop else GoesOn;
    }

    /** `_do_heartbeat`. */
    method DoHeartbeat(r: Reply) returns (end: BeatEnd)
      requires Valid() && World().hb == HbCalling
      modifies this
      ensures Valid() && old(states) <= states
      ensures config == Refreshed(old(config), r)
      ensures queue == old(queue) + Enqueued(BatchesOf(r))
      ensures World().board.batches == old(World()).board.batches + BatchesOf(r)
      ensures end == ReplyEnd(r)
      ensures auth == (old(auth) || end.AuthStop?) && shutdown == (old(shutdown) || end.AuthStop?)
      ensures World().hb == match end
        case GoesOn => HbWaiting
        case AuthStop => HbDone
        case CrashStop => HbCrashed
    {
      hide IsRun, EnqueueNext, Enqueued;
      NoBatch();
      ghost var s := World();
      match r {
        case Reply401 =>
          Record(Heartbeat(HbAnswer(HbAuthSeen)), s.(hb := HbAuthSeen, flags := s.flags.(authSeen := true)));
          Escalate();
          end := AuthStop;
        case Unavailable =>
          Record(Heartbeat(HbAnswer(HbWaiting)), s.(hb := HbWaiting));
          end := GoesOn;
        case ReplyRaises =>
          Record(Heartbeat(HbRaise), s.(hb := HbCrashed));
          end := CrashStop;
        case Response(_, _, _) =>
          end := ProcessResponse(r);
      }
    }

    /** The head of the loop. */
    method BeginBeat(othersShutDown: bool) returns (goesOn: bool)
      requires Valid() && World().hb == HbTop
      modifies this`shutdown, this`states, this`steps
      ensures Valid() && old(states) <= states && World().board == old(World()).board
      ensures shutdown == (old(shutdown) || othersShutDown) && goesOn == !shutdown
      ensures World().hb == (if goesOn then HbCalling else HbDone)
    {
      hide IsRun, EnqueueNext;
      if othersShutDown {
        OthersShutDown();
      }
      ghost var s := World();
      Record(Heartbeat(HbLoop), s.(hb := if shutdown then HbDone else HbCalling));
      goesOn := !shutdown;
    }

    /** The end of a beat that raised nothing: the wait by the configuration current now, which a
        missing interval turns into a crash. */
    method EndBeat(woke: bool, clock: FakeClock) returns (end: BeatEnd, goesOn: bool)
      requires Valid() && World().hb == HbWaiting
      modifies this`shutdown, this`states, this`steps, clock
      ensures Valid() && old(states) <= states && World().board == old(World()).board
      ensures end == if config.heartbeatSeconds.Some? then GoesOn else CrashStop
      ensures goesOn == (end.GoesOn? && !woke) && shutdown == (old(shutdown) || !goesOn)
      ensures World().hb == (if goesOn then HbTop else HbDone)
      ensures clock.sleeps == old(clock.sleeps) + (if end.GoesOn? then [config.heartbeatSeconds.value] else [])
      ensures goesOn ==> clock.t == old(clock.t) + config.heartbeatSeconds.value
    {
      hide IsRun, EnqueueNext;
      ghost var s := World();
      if config.heartbeatSeconds.None? {
        Record(Heartbeat(HbRaise), s.(hb := HbCrashed));
        Crash();
        return CrashStop, false;
      }
      var ended := clock.WaitFor(config.heartbeatSeconds.value, woke);
      if ended {
        OthersShutDown();
        Record(Heartbeat(HbWoken), World().(hb := HbDone));
      } else {
        Record(Heartbeat(HbTimeout), s.(hb := HbTop));
      }
      return GoesOn, !ended;
    }

    /** One round of the loop. */
    method OneBeat(b: Beat, clock: FakeClock) returns (called: bool, span: Span, end: BeatEnd, goesOn: bool)
      requires Valid() && World().hb == HbTop
      modifies this, clock
      ensures Valid() && old(states) <= states
      ensures World().hb == (if goesOn then HbTop else HbDone) && (!goesOn ==> shutdown)
      ensures called == !(old(shutdown) || b.shutdown)
      ensures !called ==>
        && !goesOn && end == GoesOn && config == old(config) && queue == old(queue) && auth == old(auth)
        && World().board == old(World()).board
      ensures called ==>
        && config == Refreshed(old(config), b.reply)
        && queue == old(queue) + Enqueued(BatchesOf(b.reply))
        && World().board.batches == old(World()).board.batches + BatchesOf(b.reply)
        && span == Span(old(clock.t), old(clock.t) + b.duration)
        && end == RoundEnd(config, b.reply) && auth == (old(auth) || end.AuthStop?)
        && goesOn == (end.GoesOn? && !b.woke)
      ensures goesOn ==> !shutdown && config.heartbeatSeconds.Some? && clock.t == span.endedAt + config.heartbeatSeconds.value
    {
      hide IsRun, Refreshed, ReplyEnd, BatchesOf, Enqueued;
      called := BeginBeat(b.shutdown);
      span, end, goesOn := Span(clock.t, clock.t + b.duration), GoesOn, false;
      if !called {
        return;
      }
      clock.Advance(b.duration);
      end := DoHeartbeat(b.reply);
      if end == CrashStop {
        Crash();
      } else if end == GoesOn {
        end, goesOn := EndBeat(b.woke, clock);
      }
    }

    /** `run` over the beats given, from the moment the runner starts the thread. Its steps are
        a run of the machine. The queue gains what the beats' batches enqueue, the
        configuration is that of the last refresh, beats follow each other by the interval then
        current, and both events are set exactly when a 401 ended the loop, shutdown alone when
        a crash did. */
    method Run(script: seq<Beat>, clock: FakeClock) returns (n: nat, end: BeatEnd, log: seq<Span>)
      requires Valid() && World().hb == HbTop
      modifies this, clock
      ensures Valid() && old(states) <= states
      ensures n == |log| <= |script| && SpansOk(old(config), script, log)
      ensures log != [] ==> log[0].startedAt == old(clock.t)
      ensures config == ConfigAfter(old(config), script, n)
      ensures queue == old(queue) + Enqueued(BatchesAfter(script, n))
      ensures World().board.batches == old(World()).board.batches + BatchesAfter(script, n)
      ensures forall k | 0 < k < n :: BeatEnds(old(config), script, k, GoesOn)
      ensures forall k | 0 <= k < n :: !script[k].shutdown && (k < n - 1 ==> !script[k].woke)
      ensures if n > 0 then BeatEnds(old(config), script, n, end) else end == GoesOn
      ensures n < |script| ==> (n == 0 && old(shutdown)) || script[n].shutdown || LastEnds(script, n, end)
      ensures shutdown <==> old(shutdown) || (n < |script| && script[n].shutdown) || LastEnds(script, n, end)
      ensures World().hb == if n == |script| && !LastEnds(script, n, end) then HbTop else HbDone
      ensures auth <==> old(auth) || end == AuthStop
    {
      hide IsRun, Refreshed, ReplyEnd, BatchesOf, Enqueued, SpansOk, RoundEnd, BeatEnds;
      ghost var c0, q0, b0 := config, queue, World().board.batches;
      n, end, log := 0, GoesOn, [];
      NoBatch();
      SpansStart(c0, script);
      while n < |script|
        invariant n == |log| <= |script| && end == GoesOn
        invariant Valid() && old(states) <= states && World().hb == HbTop
        invariant config == ConfigAfter(c0, script, n)
        invariant queue == q0 + Enqueued(BatchesAfter(script, n))
        invariant World().board.batches == b0 + BatchesAfter(script, n)
        invariant forall k | 0 < k <= n :: BeatEnds(c0, script, k, GoesOn)
        invariant forall k | 0 <= k < n :: !script[k].shutdown && !script[k].woke
        invariant shutdown == old(shutdown) && (n > 0 ==> !shutdown)
        invariant SpansOk(c0, script, log)
        invariant log == [] ==> clock.t == old(clock.t)
        invariant log != [] ==> log[0].startedAt == old(clock.t)
        invariant log != [] ==> config.heartbeatSeconds.Some? && clock.t == log[n - 1].endedAt + config.heartbeatSeconds.value
        invariant auth == old(auth)
      {
        var called, span, goesOn;
        called, span, end, goesOn := OneBeat(script[n], clock);
        if called {
          EnqueuedConcat(BatchesAfter(script, n), BatchesOf(script[n].reply));
          SpansStep(c0, script, log, span);
          log := log + [span];
          n := n + 1;
          EndOfMeans(c0, script, n);
        }
        if !goesOn {
          return;
        }
      }
    }
  }

  /** The theorems about the machine hold of the thread's own queue and events: tasks unfinished
      are those queued and those in some worker's hands, and its auth event without shutdown
      means some thread stands between its two `set` calls. */
  lemma HeartbeatInherits(h: HeartbeatThread)
    requires h.Valid()
    ensures h.World().board.puts == h.World().board.taken + h.queue
    ensures h.unfinished == |h.queue| + RuntimeSafety.Busy(h.World().workers)
    ensures h.auth && !h.shutdown ==> RuntimeSafety.SomeAuthSet(h.World())
  {
    hide Next, Init, RuntimeSafety.Busy, RuntimeSafety.SomeAuthSet;
    RuntimeSafety.QueueAccounts(h.states, h.steps, h.workerCount, |h.steps|);
    RuntimeSafety.AuthWindow(h.states, h.steps, h.workerCount, |h.steps|);
  }
}
