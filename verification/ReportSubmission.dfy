/** certwatch/report_submission.py as imperative code over a directory, a dashboard and a
    clock. Every file operation and every message is recorded as a step of `Delivery`, and
    each method's steps are proved to be a run of that machine. */
module ReportSubmission {
  import opened Wrappers
  import opened JsonValues
  import opened Files
  import opened PendingReports
  import opened Delivery
  import opened Clock
  import opened RetrySpec
  import opened Replay
  import opened ReplayLedger
  import Backoff

  class Agent {
    var disk: Directory
    var corrupt: map<(Name, string), Content>
    var now: nat
    var remote: Remote          // the other party: its answers depend on what it has seen
    ghost var states: seq<State>
    ghost var steps: seq<Step>

    /** An agent that has not run yet. Whatever is in its pending directory, no `.json` file
        of it is a report; the dashboard knows none either. */
    constructor (disk: Directory, corrupt: map<(Name, string), Content>, now: nat)
      requires forall n | n in disk :: disk[n].mtime <= now && (IsJson(n) ==> Load(disk[n].content).None?)
      ensures Valid() && Init(states[0]) && World() == states[0]
      ensures this.disk == disk && this.corrupt == corrupt && this.now == now
    {
      this.disk, this.corrupt, this.now := disk, corrupt, now;
      remote := Remote({}, [], [], {});
      states, steps := [State(disk, corrupt, now, Down, map[], Remote({}, [], [], {}), History(map[], {}, {}, {}), map[])], [];
    }

    ghost function World(): State
      requires |states| > 0
      reads this`states
    {
      states[|states| - 1]
    }

    ghost function Snap(clock: FakeClock): Snapshot
      reads this, clock
    {
      Snapshot(disk, now, remote, clock.sleeps, clock.t)
    }

    /** The recorded history is a run and ends in the actual directory and dashboard. */
    ghost predicate Valid()
      reads this
    {
      && |states| > 0 && IsRun(states, steps)
      && World().disk == disk && World().corrupt == corrupt
      && World().now == now && World().remote == remote
    }

    ghost predicate AtPc(name: Name, wire: Object, pc: Pc)
      requires |states| > 0
      reads this`states
    {
      name in World().procs && World().procs[name] == Proc(wire, pc)
    }

    /** `n` more steps are on record than before. */
    ghost predicate Extended(states0: seq<State>, steps0: seq<Step>, n: nat)
      reads this`states, this`steps
    {
      states0 <= states && steps0 <= steps && |states| == |states0| + n && |steps| == |steps0| + n
    }

    /** Since `s`, only the submitter `name` has moved, to `p`. */
    ghost predicate Moved(s: State, name: Name, p: Proc)
      requires |states| > 0
      reads this`states
    {
      World().procs == s.procs[name := p] && World().phase == s.phase
    }

    /** Append one step of the machine to the recorded run. */
    ghost method Record(step: Step, s': State)
      requires IsRun(states, steps) && Next(World(), step, s')
      modifies this`states, this`steps
      ensures IsRun(states, steps) && World() == s'
      ensures states == old(states) + [s'] && steps == old(steps) + [step]
    {
      states := states + [s'];
      steps := steps + [step];
    }

    // ---- single file operations ----

    /** `os.open(tmp, O_CREAT | O_TRUNC)`. */
    method CreateTmp(name: Name, ghost wire: Object, ghost record: Object, ghost initial: bool)
      requires Valid() && AtPc(name, wire, Opening(record, initial))
      modifies this`disk, this`now, this`states, this`steps
      ensures Valid() && Extended(old(states), old(steps), 1)
      ensures disk == Tear(old(disk), name, "", old(now) + 1) && now == old(now) + 1
      ensures Moved(old(World()), name, Proc(wire, Writing(record, initial)))
      ensures World().history == old(World()).history
    {
      ghost var s := World();
      disk, now := Tear(disk, name, "", now + 1), now + 1;
      Record(Open(name), s.(disk := disk, now := now, procs := s.procs[name := Proc(wire, Writing(record, initial))]));
    }

    /** `json.dump`, flush and fsync of the whole text. */
    method WriteTmp(name: Name, ghost wire: Object, record: Object, ghost initial: bool)
      requires Valid() && AtPc(name, wire, Writing(record, initial))
      modifies this`disk, this`now, this`states, this`steps
      ensures Valid() && Extended(old(states), old(steps), 1)
      ensures disk == Fill(old(disk), name, Obj(record), old(now) + 1) && now == old(now) + 1
      ensures Moved(old(World()), name, Proc(wire, Replacing(record, initial)))
      ensures World().history == old(World()).history
    {
      ghost var s := World();
      disk, now := Fill(disk, name, Obj(record), now + 1), now + 1;
      Record(WriteAll(name), s.(disk := disk, now := now, procs := s.procs[name := Proc(wire, Replacing(record, initial))]));
    }

    /** `os.replace(tmp, path)`, at the end of the first save or of an increment. */
    method RenameTmp(name: Name, ghost wire: Object, ghost record: Object, ghost initial: bool)
      requires Valid() && AtPc(name, wire, Replacing(record, initial)) && TmpName(name) in disk
      requires !initial ==> Attempts(record).Some?
      modifies this`disk, this`states, this`steps
      ensures Valid() && Extended(old(states), old(steps), 1)
      ensures disk == Commit(old(disk), name)
      ensures Moved(old(World()), name, Proc(wire, if initial then Loading else Ready(Attempts(record).value)))
      ensures World().history == if initial
        then old(World()).history.(saved := old(World()).history.saved + {name}) else old(World()).history
    {
      hide Attempts;
      ghost var s := World();
      disk := Commit(disk, name);
      if initial {
        Record(Replace(name), s.(disk := disk, procs := s.procs[name := Proc(wire, Loading)],
          history := s.history.(saved := s.history.saved + {name}),
          tally := s.tally[name := Tally(0, 0, [])]));
      } else {
        Record(Replace(name), s.(disk := disk, procs := s.procs[name := Proc(wire, Ready(Attempts(record).value))]));
      }
    }

    /** The load and the bump of `increment_attempts`; None for the exception that an
        unreadable file or a counter that is no integer raises. */
    method LoadBumped(name: Name, ghost wire: Object) returns (next: Option<Object>)
      requires Valid() && AtPc(name, wire, Loading)
      modifies this`states, this`steps
      ensures Valid() && Extended(old(states), old(steps), 1)
      ensures World().history == old(World()).history
      ensures match Countable(disk, name)
        case Some(m) => next == Some(Bump(m)) && Moved(old(World()), name, Proc(wire, Opening(Bump(m), false)))
        case None => next == None && Aborts(old(World()), name, false, World())
    {
      hide Bump, Attempts, Load;
      var found := Countable(disk, name);
      ghost var s := World();
      match found {
        case None =>
          Record(LoadBump(name), Aborted(s, name, false));
          next := None;
        case Some(m) =>
          next := Some(Bump(m));
          Record(LoadBump(name), s.(procs := s.procs[name := Proc(wire, Opening(Bump(m), false))]));
      }
    }

    /** A write that fails: part of the text is in the temporary file and the file is removed,
        the temporary file is left behind, or there was none. */
    method AbandonWrite(name: Name, ghost wire: Object, ghost record: Object, ghost initial: bool, fault: Fault)
      requires Valid() && !Renamed(fault)
      requires AtPc(name, wire, if fault.OnOpen? then Opening(record, initial)
                                else if fault.OnWrite? then Writing(record, initial) else Replacing(record, initial))
      modifies this`disk, this`now, this`states, this`steps
      ensures Valid() && old(states) <= states && old(steps) <= steps
      ensures disk == (if fault.OnWrite? then Tear(old(disk), name, fault.bytes, old(now) + 1) - {TmpName(name)} else old(disk))
      ensures now == old(now) + (if fault.OnWrite? then 1 else 0)
      ensures Aborts(old(World()), name, false, World()) && World().history == old(World()).history
    {
      hide ReplaysHead, Loads, Renames, Sends, Answers, Halts;
      hide IsRun;
      ghost var s := World();
      if fault.OnWrite? {
        disk, now := Tear(disk, name, fault.bytes, now + 1), now + 1;
        ghost var s1 := s.(disk := disk, now := now);
        Record(WritePart(name, fault.bytes), s1);
        disk := disk - {TmpName(name)};
        Record(WriteFails(name, true), Aborted(s1, name, false).(disk := disk));
      } else {
        Record(WriteFails(name, false), Aborted(s, name, false));
      }
    }

    /** `os.chmod` raises after the rename. */
    ghost method ChmodRaises(name: Name, wire: Object, pc: Pc)
      requires Valid() && AtPc(name, wire, pc) && (pc.Loading? || pc.Ready?)
      modifies this`states, this`steps
      ensures Valid() && Extended(old(states), old(steps), 1)
      ensures Aborts(old(World()), name, false, World()) && World().history == old(World()).history
    {
      hide ReplaysHead, Loads, Renames, Sends, Answers, Halts;
      var s := World();
      Record(ChmodFails(name), Aborted(s, name, false).(tally :=
        if pc.Ready? then s.tally[name := TallyOf(s, name).(wasted := TallyOf(s, name).wasted + 1)] else s.tally));
    }

    /** `_atomic_write_json`: whatever happens, a reader sees the old file or the new one. */
    method AtomicWrite(name: Name, ghost wire: Object, record: Object, ghost initial: bool, fault: Fault) returns (ok: bool)
      requires Valid() && AtPc(name, wire, Opening(record, initial)) && (!initial ==> Attempts(record).Some?)
      modifies this`disk, this`now, this`states, this`steps
      ensures Valid() && old(states) <= states && old(steps) <= steps
      ensures ok == fault.NoFault?
      ensures disk == WrittenUpTo(old(disk), name, record, old(now), fault) && now == old(now) + TicksOf(fault)
      ensures ok ==> Moved(old(World()), name, Proc(wire, if initial then Loading else Ready(Attempts(record).value)))
      ensures !ok ==> Aborts(old(World()), name, false, World())
      ensures World().history == if initial && Renamed(fault)
        then old(World()).history.(saved := old(World()).history.saved + {name}) else old(World()).history
    {
      hide IsRun, Attempts, Tear, Fill, Commit, Rewritten;
      ghost var s := World();
      ok := fault.NoFault?;
      WriteIsRewrite(disk, name, record, if fault.OnWrite? then fault.bytes else "", now);
      if fault.OnOpen? {
        AbandonWrite(name, wire, record, initial, fault);
        return;
      }
      CreateTmp(name, wire, record, initial);
      ghost var s1 := World();
      if fault.OnWrite? {
        AbandonWrite(name, wire, record, initial, fault);
        AbortsAfterMoves(s, s1, name, Proc(wire, Writing(record, initial)), World());
        return;
      }
      WriteTmp(name, wire, record, initial);
      ghost var s2 := World();
      if fault.OnReplace? {
        AbandonWrite(name, wire, record, initial, fault);
        AbortsAfterMoves(s, s2, name, Proc(wire, Replacing(record, initial)), World());
        return;
      }
      ghost var pc := if initial then Loading else Ready(Attempts(record).value);
      RenameTmp(name, wire, record, initial);
      if fault.OnChmod? {
        ghost var s3 := World();
        ChmodRaises(name, wire, pc);
        AbortsAfterMoves(s, s3, name, Proc(wire, pc), World());
      }
    }

    /** `increment_attempts`: the new counter, or None when it raises, in which case no call is
        made: the dashboard and the network are as before. */
    method IncrementAttempts(name: Name, ghost wire: Object, fault: Fault) returns (count: Option<int>)
      requires Valid() && AtPc(name, wire, Loading)
      modifies this`disk, this`now, this`states, this`steps
      ensures Valid() && old(states) <= states && old(steps) <= steps
      ensures World().history == old(World()).history
      ensures match Countable(old(disk), name)
        case Some(m) =>
          && disk == WrittenUpTo(old(disk), name, Bump(m), old(now), fault) && now == old(now) + TicksOf(fault)
          && (if fault.NoFault? then
                count == Some(Attempts(m).value + 1) && Moved(old(World()), name, Proc(wire, Ready(Attempts(m).value + 1)))
              else count == None && Aborts(old(World()), name, false, World()))
        case None =>
          && count == None && disk == old(disk) && now == old(now)
          && Aborts(old(World()), name, false, World())
    {
      hide Bump, Attempts, Load, IsRun, Countable, WirePayload, WrittenUpTo;
      CountableHasCounter(disk, name);
      ghost var s := World();
      var next := LoadBumped(name, wire);
      if next == None {
        return None;
      }
      BumpKeepsWire(Countable(disk, name).value);
      ghost var s1 := World();
      var ok := AtomicWrite(name, wire, next.value, false, fault);
      if ok {
        count := Attempts(next.value);
      } else {
        AbortsAfterMoves(s, s1, name, Proc(wire, Opening(next.value, false)), World());
        count := None;
      }
    }

    // ---- one call ----

    /** The request leaves the agent and, if it arrives, the dashboard answers it. */
    method Transmit(name: Name, wire: Object, ghost count: int, fate: Fate) returns (ghost k: nat)
      requires Valid() && AtPc(name, wire, Ready(count)) && HasRequired(wire)
      modifies this`remote, this`states, this`steps
      ensures Valid() && old(states) <= states && old(steps) <= steps
      ensures Moved(old(World()), name, Proc(wire, Waiting(k, count)))
      ensures SameReports(old(World()).history, World().history)
      ensures Received(old(remote), remote, Body(wire), fate)
      ensures fate.Arrives? ==> (k, AnswerTo(old(remote).seen, Body(wire), fate.policy)) in remote.answers
    {
      hide ReplaysHead, Loads, Renames, Answers, Halts;
      hide HasRequired, Body, ReportId;
      k := |remote.requests|;
      ghost var s := World();
      remote := remote.(requests := remote.requests + [Request(name, Body(wire))]);
      Record(Send(name), s.(
        procs := s.procs[name := Proc(wire, Waiting(k, count))], remote := remote,
        tally := s.tally[name := TallyOf(s, name).(sends := TallyOf(s, name).sends + 1)]));
      if fate.Arrives? {
        Dashboard(|remote.requests| - 1, fate.policy);
      }
    }

    /** The dashboard handles request k: `tests/e2e/mock_dashboard.py` for the normal path. */
    method Dashboard(k: nat, policy: Policy)
      requires Valid() && k < |remote.requests|
      modifies this`remote, this`states, this`steps
      ensures Valid() && Extended(old(states), old(steps), 1)
      ensures World().procs == old(World()).procs && World().phase == old(World()).phase
      ensures SameReports(old(World()).history, World().history)
      ensures remote.requests == old(remote).requests
      ensures var body := old(remote).requests[k].body;
        && var answer := AnswerTo(old(remote).seen, body, policy);
           && (k, answer) in remote.answers
           && remote.seen == old(remote).seen + (if answer.Accepted? then {ReportId(body)} else {})
           && remote.accepted == old(remote).accepted + (if answer.Accepted? then [body] else [])
    {
      hide ReplaysHead, Loads, Renames, Sends, Halts;
      hide HasRequired, Body, ReportId;
      var request := remote.requests[k];
      var answer := AnswerTo(remote.seen, request.body, policy);
      ghost var s := World();
      remote := remote.(answers := remote.answers + {(k, answer)});
      if answer.Accepted? {
        remote := remote.(seen := remote.seen + {ReportId(request.body)}, accepted := remote.accepted + [request.body]);
      }
      ghost var h := s.history.(settled := s.history.settled + {request.name});
      Record(Process(k, answer), s.(remote := remote,
        history := if answer.Invalid? || answer.TooLarge? then h.(rejected := h.rejected + {request.name}) else h));
    }

    // ---- what follows the call ----

    /** A final answer is heard and the file is deleted. */
    method HearAndDelete(name: Name, ghost wire: Object, ghost k: nat, ghost count: int, ghost answer: Answer)
      requires Valid() && AtPc(name, wire, Waiting(k, count)) && (k, answer) in remote.answers
      modifies this`disk, this`states, this`steps
      ensures Valid() && old(states) <= states && old(steps) <= steps
      ensures disk == old(disk) - {name}
      ensures World().procs == old(World()).procs - {name} && World().phase == old(World()).phase
      ensures World().history == old(World()).history
    {
      hide ReplaysHead, Loads, Renames, Sends, Answers, Halts;
      ghost var s := World();
      ghost var s1 := s.(procs := s.procs[name := Proc(wire, Deleting)]);
      Record(Receive(name, answer), s1);
      disk := disk - {name};
      Record(Unlink(name), s1.(disk := disk, procs := s.procs - {name}));
      assert s1.procs - {name} == s.procs - {name};
    }

    /** A final answer is heard and the unlink raises: the file stays. */
    ghost method HearAndRaise(name: Name, wire: Object, k: nat, count: int, answer: Answer)
      requires Valid() && AtPc(name, wire, Waiting(k, count)) && (k, answer) in remote.answers
      modifies this`states, this`steps
      ensures Valid() && old(states) <= states && old(steps) <= steps
      ensures Aborts(old(World()), name, false, World()) && World().history == old(World()).history
    {
      hide ReplaysHead, Loads, Renames, Sends, Answers, Halts;
      var s := World();
      var s1 := s.(procs := s.procs[name := Proc(wire, Deleting)]);
      Record(Receive(name, answer), s1);
      Record(UnlinkFails(name), Aborted(s1, name, false));
      AbortsAfterMoves(s, s1, name, Proc(wire, Deleting), World());
    }

    /** A retriable error: wait, and either go round again or give up on shutdown. */
    method BackOff(name: Name, ghost wire: Object, ghost k: nat, count: int, clock: FakeClock, shutdown: bool)
      returns (woke: bool)
      requires Valid() && AtPc(name, wire, Waiting(k, count))
      modifies this`states, this`steps, clock
      ensures Valid() && old(states) <= states && old(steps) <= steps
      ensures woke == shutdown
      ensures clock.sleeps == old(clock.sleeps) + [Backoff.Delay(count)]
      ensures clock.t == old(clock.t) + (if woke then 0 else Backoff.Delay(count))
      ensures World().history == old(World()).history
      ensures if woke then Aborts(old(World()), name, true, World())
              else Moved(old(World()), name, Proc(wire, Loading))
    {
      hide ReplaysHead, Loads, Renames, Sends, Answers, Halts;
      hide Backoff.Delay;
      ghost var s := World();
      ghost var t := TallyOf(s, name);
      ghost var s1 := s.(procs := s.procs[name := Proc(wire, Sleeping)],
        tally := s.tally[name := t.(waits := t.waits + [Backoff.Delay(count)])]);
      Record(GiveUp(name), s1);
      woke := clock.WaitFor(Backoff.Delay(count), shutdown);
      if woke {
        Record(Wake(name, true), Aborted(s1, name, true));
        assert s1.procs - {name} == s.procs - {name};
      } else {
        Record(Wake(name, false), s1.(procs := s1.procs[name := Proc(wire, Loading)]));
      }
    }

    /** An exception leaves the loop; the file stays. */
    method LeaveByException(name: Name, ghost wire: Object, ghost k: nat, ghost count: int, auth: bool)
      requires Valid() && AtPc(name, wire, Waiting(k, count))
      modifies this`states, this`steps
      ensures Valid() && Extended(old(states), old(steps), 1)
      ensures Aborts(old(World()), name, auth, World()) && World().history == old(World()).history
    {
      Record(Raise(name, auth), Aborted(World(), name, auth));
    }

    /** The `except` ladder around `submit_report`: act on what came of the call. */
    method Conclude(name: Name, ghost wire: Object, ghost k: nat, count: int, a: Attempt, sighted: bool, clock: FakeClock)
      returns (status: Status)
      requires Valid() && AtPc(name, wire, Waiting(k, count)) && a.fault.NoFault?
      requires a.fate.Arrives? ==> exists answer :: (k, answer) in remote.answers
      modifies this`disk, this`states, this`steps, clock
      ensures Valid() && old(states) <= states && old(steps) <= steps
      ensures World().history == old(World()).history
      ensures status == StatusOf(a, sighted)
      ensures disk == (if Finished(status) then old(disk) - {name} else old(disk))
      ensures clock.sleeps == old(clock.sleeps) + (if status.Retrying? || status.ShutDown? then [Backoff.Delay(count)] else [])
      ensures clock.t == old(clock.t) + (if status.Retrying? then Backoff.Delay(count) else 0)
      ensures Left(old(World()), name, wire, status, World())
    {
      hide Backoff.Delay, IsRun;
      if a.fate.Arrives? && a.fate.heard && a.stuck {
        ghost var answer :| (k, answer) in remote.answers;
        HearAndRaise(name, wire, k, count, answer);
        status := Raised(false);
      } else if a.fate.Arrives? && a.fate.heard {
        ghost var answer :| (k, answer) in remote.answers;
        HearAndDelete(name, wire, k, count, answer);
        if !a.fate.policy.Admit? {
          status := RejectedReport;
        } else if sighted {
          status := DuplicateReport;
        } else {
          status := Delivered;
        }
      } else if a.fate.AuthRejected? || a.fate.Fails? {
        LeaveByException(name, wire, k, count, a.fate.AuthRejected?);
        status := Raised(a.fate.AuthRejected?);
      } else {
        var woke := BackOff(name, wire, k, count, clock, a.woke);
        status := if woke then ShutDown else Retrying;
      }
    }

    // ---- the retry loop ----

    /** One `submit_report` call and the handling of its outcome. */
    method Call(name: Name, wire: Object, count: int, a: Attempt, clock: FakeClock) returns (status: Status)
      requires Valid() && AtPc(name, wire, Ready(count)) && HasRequired(wire) && a.fault.NoFault?
      modifies this`disk, this`remote, this`states, this`steps, clock
      ensures Valid() && old(states) <= states && old(steps) <= steps
      ensures SameReports(old(World()).history, World().history)
      ensures status == StatusOf(a, ReportId(Body(wire)) in old(remote).seen)
      ensures EndsBy([a], 1, ReportId(Body(wire)) in old(remote).seen, status)
      ensures Received(old(remote), remote, Body(wire), a.fate)
      ensures disk == (if Finished(status) then old(disk) - {name} else old(disk))
      ensures disk == (if a.fate.Arrives? && a.fate.heard && !a.stuck then old(disk) - {name} else old(disk))
      ensures clock.sleeps == old(clock.sleeps) + (if status.Retrying? || status.ShutDown? then [Backoff.Delay(count)] else [])
      ensures clock.t == old(clock.t) + (if status.Retrying? then Backoff.Delay(count) else 0)
      ensures Left(old(World()), name, wire, status, World())
    {
      hide Bump, Attempts, IsRun, HasRequired, Body, ReportId, Backoff.Delay, AnswerTo;
      var sighted := ReportId(Body(wire)) in remote.seen;
      ghost var k := Transmit(name, wire, count, a.fate);
      status := Conclude(name, wire, k, count, a, sighted, clock);
    }

    /** Indexing a wire field the record lacks raises KeyError after the bump. */
    method LeaveByKeyError(name: Name, ghost wire: Object, ghost count: int)
      requires Valid() && AtPc(name, wire, Ready(count)) && !HasRequired(wire)
      modifies this`states, this`steps
      ensures Valid() && Extended(old(states), old(steps), 1)
      ensures Aborts(old(World()), name, false, World()) && World().history == old(World()).history
    {
      hide HasRequired;
      Record(Send(name), Aborted(World(), name, false));
    }

    /** The body of the loop in `_retry_loop_for_path`: bump, call, act on the outcome. */
    method Round(name: Name, wire: Object, a: Attempt, clock: FakeClock)
      returns (status: Status, count: int, bumped: bool)
      requires Valid() && AtPc(name, wire, Loading)
      modifies this, clock
      ensures Valid() && old(states) <= states && old(steps) <= steps
      ensures SameReports(old(World()).history, World().history) && corrupt == old(corrupt)
      ensures RoundDone(name, wire, a, old(Snap(clock)), Snap(clock), status, bumped)
      ensures !status.Raised? ==> count == CountIn(old(disk), name) + 1
      ensures Left(old(World()), name, wire, status, World())
    {
      hide Bump, Attempts, Load, IsRun, HasRequired, Body, ReportId, Backoff.Delay, Countable, AnswerTo, AfterLoop, EndsBy, Aborts;
      CountableHasCounter(disk, name);
      ghost var s := World();
      bumped := Countable(disk, name).Some? && Renamed(a.fault);
      if !a.fault.NoFault? && Countable(disk, name).Some? {
        BrokenRound(disk, name, now, a.fault);
      }
      var next := IncrementAttempts(name, wire, a.fault);
      if next == None {
        return Raised(false), 0, bumped;
      }
      count := next.value;
      ghost var s1 := World();
      if !HasRequired(wire) {
        LeaveByKeyError(name, wire, count);
        status := Raised(false);
      } else {
        status := Call(name, wire, count, a, clock);
      }
      LeftAfterMoves(s, s1, name, wire, Proc(wire, Ready(count)), status, World());
    }

    /** `_retry_loop_for_path`; n counts the bumps, and `broken` is the write of the counter
        that ended the loop before its rename, if one did. */
    method RetryLoop(name: Name, wire: Object, rounds: seq<Attempt>, clock: FakeClock)
      returns (status: Status, count: int, elapsed: int, n: nat, broken: Fault)
      requires Valid() && AtPc(name, wire, Loading)
      modifies this, clock
      ensures Valid() && old(states) <= states && old(steps) <= steps
      ensures SameReports(old(World()).history, World().history) && corrupt == old(corrupt)
      ensures LoopDone(name, wire, rounds, old(Snap(clock)), Snap(clock), status, n, broken)
      ensures LoopEnds(wire, rounds, HasRequired(wire) && ReportId(Body(wire)) in old(remote).seen, status, n, broken)
      ensures rounds != [] && Countable(old(disk), name).Some? && Renamed(rounds[0].fault) ==> n > 0
      ensures n > 0 && !status.Raised? ==> count == CountIn(old(disk), name) + n
      ensures elapsed == clock.t - old(clock.t)
      ensures Left(old(World()), name, wire, status, World())
    {
      hide InProgress, LoopDone, LoopEnds, RoundDone, IsRun, CountIn;
      var startedAt := clock.t;
      n, count, status, broken := 0, 0, Retrying, NoFault;
      ghost var s0, world := Snap(clock), World();
      ProgressStart(name, wire, rounds, s0);
      while n < |rounds|
        invariant n <= |rounds| && status == Retrying && broken == NoFault
        invariant Valid() && old(states) <= states && old(steps) <= steps
        invariant SameReports(world.history, World().history) && corrupt == old(corrupt)
        invariant AtPc(name, wire, Loading)
        invariant World().procs == world.procs[name := Proc(wire, Loading)] && World().phase == world.phase
        invariant InProgress(name, wire, rounds, s0, n, Snap(clock))
        invariant !HasRequired(wire) ==> remote == s0.remote
        invariant n > 0 ==> count == CountIn(s0.disk, name) + n
        decreases |rounds| - n
      {
        hide Left, HasRequired;
        ghost var s, before := Snap(clock), World();
        var bumped: bool;
        var fault := BrokenBy(disk, name, rounds[n]);
        status, count, bumped := Round(name, wire, rounds[n], clock);
        ProgressStep(name, wire, rounds, s0, n, s, Snap(clock), status, bumped);
        LeftAfterMoves(world, before, name, wire, Proc(wire, Loading), status, World());
        if bumped {
          n := n + 1;
        }
        if !status.Retrying? {
          broken := fault;
          elapsed := clock.t - startedAt;
          LoopDoneEnds(name, wire, rounds, s0, Snap(clock), status, n, broken);
          return;
        }
      }
      ProgressEnd(name, wire, rounds, s0, Snap(clock));
      LoopDoneEnds(name, wire, rounds, s0, Snap(clock), status, n, broken);
      elapsed := clock.t - startedAt;
    }

    // ---- fresh submission ----

    /** `save_pending_report` for a fresh report id. */
    method Save(id: string, payload: Object, at: string, fault: Fault) returns (name: Name, ok: bool)
      requires Valid() && World().phase.Running? && IsPayload(payload, id)
      requires Report(id) !in World().history.origin && Report(id) !in disk && Report(id) !in World().procs
      modifies this`disk, this`now, this`states, this`steps
      ensures Valid() && old(states) <= states && old(steps) <= steps
      ensures name == Report(id) && ok == fault.NoFault? && now == old(now) + TicksOf(fault)
      ensures disk == WrittenUpTo(old(disk), name, Persisted(payload, at), old(now), fault)
      ensures ok ==> Moved(old(World()), name, Proc(payload, Loading))
      ensures !ok ==> World().procs == old(World()).procs && World().phase == old(World()).phase
      ensures World().history == old(World()).history.(
        origin := old(World()).history.origin[name := payload],
        saved := old(World()).history.saved + (if Renamed(fault) then {name} else {}))
    {
      hide IsPayload, Attempts, IsRun, Persisted, WrittenUpTo;
      name := Report(id);
      var record := Persisted(payload, at);
      ghost var s := World();
      Begin(id, payload, at);
      ok := AtomicWrite(name, payload, record, true, fault);
      assert !ok ==> World().procs == s.procs[name := Proc(payload, Opening(record, true))] - {name} == s.procs;
    }

    ghost method Begin(id: string, payload: Object, at: string)
      requires Valid() && World().phase.Running? && IsPayload(payload, id)
      requires Report(id) !in World().history.origin && Report(id) !in disk && Report(id) !in World().procs
      modifies this`states, this`steps
      ensures Valid() && Extended(old(states), old(steps), 1)
      ensures Moved(old(World()), Report(id), Proc(payload, Opening(Persisted(payload, at), true)))
      ensures World().history == old(World()).history.(origin := old(World()).history.origin[Report(id) := payload])
    {
      hide IsPayload, Persisted;
      var s := World();
      Record(BeginSave(id, payload, at), s.(
        procs := s.procs[Report(id) := Proc(payload, Opening(Persisted(payload, at), true))],
        history := s.history.(origin := s.history.origin[Report(id) := payload])));
    }

    /** `submit_report_with_retry`: the report is saved before the first call and stays saved
        until a final answer; then only its own file is gone. If the save fails no call is
        made. */
    method SubmitReportWithRetry(id: string, payload: Object, at: string, fault: Fault, rounds: seq<Attempt>, clock: FakeClock)
      returns (status: Status, count: int, elapsed: int, n: nat, broken: Fault)
      requires Valid() && World().phase.Running? && IsPayload(payload, id)
      requires Report(id) !in World().history.origin && Report(id) !in disk && Report(id) !in World().procs
      modifies this, clock
      ensures Valid() && old(states) <= states && old(steps) <= steps
      ensures Report(id) in World().history.origin && World().history.origin[Report(id)] == payload
      ensures Report(id) in World().history.saved <==> Renamed(fault) || Report(id) in old(World()).history.saved
      ensures fault.NoFault? ==> SubmitDone(id, payload, at, rounds, old(Snap(clock)), Snap(clock), status, n, broken)
      ensures !fault.NoFault? ==>
        && status == Raised(false) && n == 0 && remote == old(remote)
        && clock.sleeps == old(clock.sleeps) && clock.t == old(clock.t)
        && disk == WrittenUpTo(old(disk), Report(id), Persisted(payload, at), old(now), fault)
      ensures fault.NoFault? && (status.Delivered? || status.DuplicateReport? || status.RejectedReport?) ==> Report(id) !in disk
      ensures fault.NoFault? && !(status.Delivered? || status.DuplicateReport? || status.RejectedReport?) ==>
        HoldsReport(disk, id, payload, n)
      ensures fault.NoFault? ==> LoopEnds(payload, rounds, Str(id) in old(remote).seen, status, n, broken)
      ensures fault.NoFault? && rounds != [] && Renamed(rounds[0].fault) ==> n > 0
      ensures n > 0 && !status.Raised? ==> count == n
      ensures elapsed == clock.t - old(clock.t)
    {
      hide IsRun, IsPayload, LoopDone, LoopEnds, SubmitDone, HoldsReport, Rewritten, Persisted, CountIn;
      ghost var s0 := Snap(clock);
      var name, ok := Save(id, payload, at, fault);
      if !ok {
        return Raised(false), 0, 0, 0, fault;
      }
      ghost var s1 := Snap(clock);
      SavedRecord(s0.disk, id, payload, at, now);
      status, count, elapsed, n, broken := RetryLoop(name, payload, rounds, clock);
      SubmitFromLoop(id, payload, at, rounds, s0, s1, Snap(clock), status, n, broken);
      SubmitKeepsOrDeletes(id, payload, at, rounds, s0, Snap(clock), status, n, broken);
    }

    // ---- replay ----

    /** Process start, up to the replay. */
    ghost method BeginProcess(at: string)
      requires Valid() && World().phase.Down?
      modifies this`states, this`steps
      ensures Valid() && Extended(old(states), old(steps), 1)
      ensures World().phase == Cleaning(at) && World().procs == map[] && World().history == old(World()).history
    {
      Record(Start(at), World().(phase := Cleaning(at), procs := map[]));
    }

    method UnlinkStray(entry: Name)
      requires Valid() && World().phase.Cleaning? && World().procs == map[] && IsTmp(entry) && entry in disk
      modifies this`disk, this`states, this`steps
      ensures Valid() && Extended(old(states), old(steps), 1)
      ensures disk == old(disk) - {entry}
      ensures World().phase == old(World()).phase && World().procs == map[] && World().history == old(World()).history
    {
      hide ReplaysHead, Loads, Renames, Sends, Answers, Halts;
      ghost var s := World();
      disk := disk - {entry};
      Record(CleanTmp(entry), s.(disk := disk));
    }

    /** `cleanup_stray_tmp_files`, scanning the directory in the given order. */
    method CleanupStrayTmpFiles(order: seq<Name>) returns (deleted: seq<Name>)
      requires Valid() && World().phase.Cleaning? && World().procs == map[] && IsEnumeration(disk, order)
      modifies this`disk, this`states, this`steps
      ensures Valid() && old(states) <= states && old(steps) <= steps
      ensures disk == Visible(old(disk)) && forall n | n in disk :: !IsTmp(n)
      ensures forall n :: n in deleted <==> n in old(disk) && IsTmp(n)
      ensures World().phase == old(World()).phase && World().procs == map[]
      ensures World().history == old(World()).history
    {
      hide IsRun;
      deleted := [];
      var i := 0;
      while i < |order|
        invariant i <= |order|
        invariant Valid() && old(states) <= states && old(steps) <= steps
        invariant forall n :: n in deleted <==> n in order[..i] && IsTmp(n)
        invariant disk == old(disk) - (set n | n in deleted)
        invariant World().phase == old(World()).phase && World().procs == map[]
        invariant World().history == old(World()).history
      {
        var entry := order[i];
        assert order[..i + 1] == order[..i] + [entry];
        if IsTmp(entry) && entry in disk {
          UnlinkStray(entry);
          deleted := deleted + [entry];
        }
        i := i + 1;
      }
      assert order[..i] == order;
    }

    /** `list_pending_report_paths`, scanning the directory in the given order. */
    method ListPendingReportPaths(order: seq<Name>) returns (files: seq<Name>)
      requires IsEnumeration(disk, order)
      ensures files == Listing(disk, order)
    {
      files := [];
      var i := 0;
      while i < |order|
        invariant i <= |order|
        invariant files == OnlyJson(order[..i])
      {
        assert order[..i + 1][..i] == order[..i];
        if IsJson(order[i]) {
          files := files + [order[i]];
        }
        i := i + 1;
      }
      assert order[..i] == order;
      files := SortByMtime(disk, files);
    }

    /** The `ReplayResult` counters together with what replay reads and writes. */
    ghost function Now(r: ReplayResult, stop: Stop): Sweep
      reads this
    {
      Sweep(disk, corrupt, now, r, stop)
    }

    /** `quarantine_corrupt`: the file moves, under a timestamp, with its bytes. */
    method QuarantineCorrupt(name: Name, stamp: string, ghost at: string, ghost todo: seq<Name>)
      requires Valid() && World().phase == Replaying(at, [name] + todo) && World().procs == map[]
      requires Decide(disk, name, at).CorruptFile? && name in disk
      modifies this`disk, this`corrupt, this`states, this`steps
      ensures Valid() && Extended(old(states), old(steps), 1)
      ensures disk == old(disk) - {name} && corrupt == old(corrupt)[(name, stamp) := old(disk)[name].content]
      ensures World().phase == Replaying(at, todo) && World().procs == map[]
      ensures World().history == old(World()).history
    {
      hide Decide;
      ghost var s := World();
      assert ([name] + todo)[1..] == todo;
      disk, corrupt := disk - {name}, corrupt[(name, stamp) := disk[name].content];
      Record(ReplayNext(stamp), s.(disk := disk, corrupt := corrupt, phase := Replaying(at, todo)));
    }

    /** A round of the replay loop that leaves the directory alone: an orphan is skipped, and
        a file that cannot be read, decoded or compared raises. */
    ghost method PassOver(name: Name, at: string, todo: seq<Name>)
      requires Valid() && World().phase == Replaying(at, [name] + todo) && World().procs == map[]
      requires !Decide(disk, name, at).CorruptFile? && !Decide(disk, name, at).Resubmit?
      modifies this`states, this`steps
      ensures Valid() && Extended(old(states), old(steps), 1)
      ensures World().phase == (if Decide(disk, name, at).Orphan? then Replaying(at, todo) else Running)
      ensures World().procs == map[] && World().history == old(World()).history
    {
      hide Decide;
      assert ([name] + todo)[1..] == todo;
      Record(ReplayNext(""), World().(phase := if Decide(disk, name, at).Orphan? then Replaying(at, todo) else Running));
    }

    ghost method TakeUp(name: Name, at: string, todo: seq<Name>)
      requires Valid() && World().phase == Replaying(at, [name] + todo) && World().procs == map[]
      requires Decide(disk, name, at).Resubmit?
      modifies this`states, this`steps
      ensures Valid() && Extended(old(states), old(steps), 1)
      ensures World().phase == Replaying(at, todo) && World().history == old(World()).history
      ensures World().procs == map[name := Proc(WirePayload(Decide(disk, name, at).record), Loading)]
    {
      hide Decide, WirePayload;
      assert ([name] + todo)[1..] == todo;
      Record(ReplayNext(""), World().(phase := Replaying(at, todo),
        procs := map[name := Proc(WirePayload(Decide(disk, name, at).record), Loading)]));
    }

    ghost method ExitProcess()
      requires Valid() && !World().phase.Down? && World().procs == map[]
      modifies this`states, this`steps
      ensures Valid() && Extended(old(states), old(steps), 1)
      ensures World().phase == Down && World().procs == map[] && World().history == old(World()).history
    {
      Record(Halt, World().(phase := Down));
    }

    /** The retry loop over a file taken up by replay. */
    method ReplayReport(name: Name, record: Object, at: string, ghost todo: seq<Name>, rounds: seq<Attempt>, clock: FakeClock)
      returns (status: Status, n: nat, broken: Fault)
      requires Valid() && World().phase == Replaying(at, [name] + todo) && World().procs == map[]
      requires Decide(disk, name, at) == Resubmit(record)
      modifies this, clock
      ensures Valid() && old(states) <= states && old(steps) <= steps
      ensures SameReports(old(World()).history, World().history) && corrupt == old(corrupt)
      ensures exists seen :: StopsAt(old(disk), name, WirePayload(record), rounds, seen, status, n, broken)
      ensures disk == AfterLoop(old(disk), name, n, old(now) + 2 * n, Finished(status), broken)
      ensures now == old(now) + LoopTicks(n, broken)
      ensures World().phase == PhaseAfter(at, todo, StopOf(status))
      ensures StopOf(status).Cut? || World().procs == map[]
    {
      hide IsRun, WirePayload, StopsAt, AfterLoop, LoopTicks, Decide, Finished;
      TakeUp(name, at, todo);
      var count, elapsed;
      status, count, elapsed, n, broken := RetryLoop(name, WirePayload(record), rounds, clock);
    }

    /** The body of the loop in `replay_pending_reports`. */
    method ReplayFile(name: Name, at: string, ghost todo: seq<Name>, p: Plan, r: ReplayResult, clock: FakeClock)
      returns (r': ReplayResult, stop: Stop, v: Visit)
      requires Valid() && World().phase == Replaying(at, [name] + todo) && World().procs == map[]
      modifies this, clock
      ensures Valid() && old(states) <= states && old(steps) <= steps
      ensures SameReports(old(World()).history, World().history)
      ensures VisitFits(old(Now(r, Going)), at, name, p, v)
      ensures Now(r', stop) == VisitFile(old(Now(r, Going)), at, name, v)
      ensures World().phase == PhaseAfter(at, todo, stop)
      ensures stop.Cut? || World().procs == map[]
    {
      hide IsRun, WirePayload, StopsAt, AfterLoop, LoopTicks, Rewritten;
      r', stop, v := r, Going, Visit(p.shutdown, p.stamp, 0, NoFault, Retrying);
      if p.shutdown {
        stop := Interrupted;
        ExitProcess();
        return;
      }
      match Decide(disk, name, at) {
        case CorruptFile =>
          QuarantineCorrupt(name, p.stamp, at, todo);
          r' := r.(skippedCorrupt := r.skippedCorrupt + 1);
        case Orphan =>
          PassOver(name, at, todo);
          r' := r.(skippedOrphan := r.skippedOrphan + 1);
        case Missing =>
          PassOver(name, at, todo);
          stop := Errored(false);
        case Unhandled =>
          PassOver(name, at, todo);
          stop := Errored(false);
        case Resubmit(record) =>
          var status, n, broken := ReplayReport(name, record, at, todo, p.rounds, clock);
          v := v.(bumps := n, broken := broken, status := status);
          stop := StopOf(status);
          if Finished(status) {
            r' := r.(replayed := r.replayed + 1);
          }
      }
    }

    /** The loop of `replay_pending_reports` over the listed files. */
    method ReplayFiles(at: string, files: seq<Name>, plan: Name -> Plan, clock: FakeClock)
      returns (r: ReplayResult, stop: Stop, visits: seq<Visit>)
      requires Valid() && World().phase == Replaying(at, files) && World().procs == map[]
      modifies this, clock
      ensures Valid() && old(states) <= states && old(steps) <= steps
      ensures SameReports(old(World()).history, World().history)
      ensures Passed(old(Now(ReplayResult(0, 0, 0), Going)), at, files, plan, visits, Now(r, stop))
      ensures stop.Going? ==> |visits| == |files|
      ensures World().phase == (if stop.Going? then Replaying(at, []) else PhaseAfter(at, files[|visits|..], stop))
      ensures |visits| <= |files|
      ensures stop.Cut? || World().procs == map[]
    {
      hide IsRun, VisitFile, VisitFits, WirePayload, SweepOf, Passed;
      r, stop, visits := ReplayResult(0, 0, 0), Going, [];
      ghost var s0, h := Now(r, stop), World().history;
      PassedStart(s0, at, files, plan);
      while |visits| < |files|
        invariant |visits| <= |files| && stop == Going
        invariant Valid() && old(states) <= states && old(steps) <= steps
        invariant SameReports(h, World().history)
        invariant Passed(s0, at, files, plan, visits, Now(r, stop))
        invariant World().phase == Replaying(at, files[|visits|..]) && World().procs == map[]
      {
        var k := |visits|;
        var name := files[k];
        ghost var before := Now(r, Going);
        assert files[k..] == [name] + files[k + 1..];
        var v: Visit;
        r, stop, v := ReplayFile(name, at, files[k + 1..], plan(name), r, clock);
        PassedStep(s0, at, files, plan, visits, before, v);
        visits := visits + [v];
        if stop != Going {
          return;
        }
      }
    }

    /** `replay_pending_reports`, run once at process start. `order` and `order'` are the two
        directory scans. The pass handles the listed files oldest first, stops at the first
        that is interrupted or raises, and its outcome is `SweepOf` over the files handled. */
    method ReplayPendingReports(at: string, order: seq<Name>, order': seq<Name>, plan: Name -> Plan, clock: FakeClock)
      returns (r: ReplayResult, stop: Stop, files: seq<Name>, visits: seq<Visit>)
      requires Valid() && World().phase.Down?
      requires IsEnumeration(disk, order) && IsEnumeration(Visible(disk), order')
      modifies this, clock
      ensures Valid() && old(states) <= states && old(steps) <= steps
      ensures SameReports(old(World()).history, World().history)
      ensures files == Listing(Visible(old(disk)), order')
      ensures |visits| <= |files| && (stop.Going? ==> |visits| == |files|)
      ensures Passed(Sweep(Visible(old(disk)), old(corrupt), old(now), ReplayResult(0, 0, 0), Going),
                     at, files, plan, visits, Now(r, stop))
      ensures PassEnds(Visible(old(disk)), at, files, plan, visits, stop)
      ensures World().phase.Down? <==> stop == Errored(true) || stop == Interrupted
      ensures stop == Going || stop == Errored(false) ==> World().phase == Running
      ensures stop.Cut? || World().procs == map[]
    {
      hide IsRun, Passed, PassEnds, Fresh, IsEnumeration, Visible, Listing, IsTmp, Next;
      ghost var s0 := Sweep(Visible(disk), corrupt, now, ReplayResult(0, 0, 0), Going);
      PassIsFresh(disk, s0, order');
      BeginProcess(at);
      var stray := CleanupStrayTmpFiles(order);
      files := ListPendingReportPaths(order');
      StartReplay(at, order');
      r, stop, visits := ReplayFiles(at, files, plan, clock);
      WhyAPassEnds(s0, at, files, plan, visits, Now(r, stop));
      if stop.Going? {
        FinishReplay(at);
      }
    }

    lemma PassIsFresh(d: Directory, s: Sweep, order: seq<Name>)
      requires s.result == ReplayResult(0, 0, 0) && s.stop.Going? && s.disk == Visible(d) && IsEnumeration(s.disk, order)
      ensures Fresh(s, Listing(s.disk, order))
    {
      hide Listing;
      ListingSpec(s.disk, order);
    }

    ghost method FinishReplay(at: string)
      requires Valid() && World().phase == Replaying(at, []) && World().procs == map[]
      modifies this`states, this`steps
      ensures Valid() && Extended(old(states), old(steps), 1)
      ensures World().phase == Running && World().procs == map[] && World().history == old(World()).history
    {
      Record(ReplayDone, World().(phase := Running));
    }

    ghost method StartReplay(at: string, order: seq<Name>)
      requires Valid() && World().phase == Cleaning(at) && World().procs == map[]
      requires IsEnumeration(disk, order) && forall n | n in disk :: !IsTmp(n)
      modifies this`states, this`steps
      ensures Valid() && Extended(old(states), old(steps), 1)
      ensures World().phase == Replaying(at, Listing(disk, order)) && World().procs == map[]
      ensures World().history == old(World()).history
    {
      Record(ListPending(order), World().(phase := Replaying(at, Listing(disk, order))));
    }
  }
}
