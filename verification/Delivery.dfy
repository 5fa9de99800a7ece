/** Report delivery as a state machine: one agent process at a time with any number of
    concurrent submitters, a pending directory that outlives it, a network that loses,
    delays and repeats messages, and a dashboard that deduplicates by report id.
    Each file operation is one step and the process may die between any two of them. */
module Delivery {
  import opened Wrappers
  import opened JsonValues
  import opened Files
  import opened PendingReports
  import Backoff

  /** The answers after which the agent deletes the file: 200, 409, 400 and 413. */
  datatype Answer = Accepted | Duplicate | Invalid | TooLarge

  datatype Request = Request(name: Name, body: Object)

  /** The dashboard's ids and accepted bodies, every request ever made and every answer
      given. A request may be answered late, again, or never; so may an answer arrive. */
  datatype Remote = Remote(
    seen: set<Json>,
    accepted: seq<Object>,
    requests: seq<Request>,
    answers: set<(nat, Answer)>)

  datatype Phase =
    | Down
    | Cleaning(registeredAt: string)
    | Replaying(registeredAt: string, todo: seq<Name>)
    | Running

  /** Where a submitter stands. `initial` tells the first save from a rewrite of the counter. */
  datatype Pc =
    | Opening(record: Object, initial: bool)
    | Writing(record: Object, initial: bool)
    | Replacing(record: Object, initial: bool)
    | Loading
    | Ready(attempts: int)
    | Waiting(request: nat, attempts: int)
    | Sleeping
    | Deleting

  datatype Proc = Proc(wire: Object, pc: Pc)

  /** The payload first submitted under each file name; the names whose save returned;
      those the dashboard answered with 400 or 413, and with any final answer. */
  datatype History = History(
    origin: map<Name, Object>,
    saved: set<Name>,
    rejected: set<Name>,
    settled: set<Name>)

  /** Per name: the requests made, the bumps whose process died before the request, and the
      delays requested. */
  datatype Tally = Tally(sends: nat, wasted: nat, waits: seq<nat>)

  datatype State = State(
    disk: Directory,
    corrupt: map<(Name, string), Content>,   // quarantine: file name and timestamp
    now: nat,
    phase: Phase,
    procs: map<Name, Proc>,
    remote: Remote,
    history: History,
    tally: map<Name, Tally>)

  datatype Step =
    // the life of the process
    | Start(registeredAt: string)
    | CleanTmp(name: Name)
    | ListPending(order: seq<Name>)
    | ReplayNext(stamp: string)
    | ReplayFails
    | ReplayDone
    | Halt
    // a submitter
    | BeginSave(id: string, payload: Object, at: string)
    | Open(name: Name)
    | WritePart(name: Name, bytes: string)
    | WriteAll(name: Name)
    | WriteFails(name: Name, unlink: bool)
    | Replace(name: Name)
    | ChmodFails(name: Name)
    | LoadBump(name: Name)
    | Send(name: Name)
    | Receive(name: Name, answer: Answer)
    | GiveUp(name: Name)
    | Raise(name: Name, auth: bool)
    | Wake(name: Name, shutdown: bool)
    | Unlink(name: Name)
    | UnlinkFails(name: Name)
    // the dashboard
    | Process(k: nat, answer: Answer)

  function ReportId(body: Object): Json {
    Get(body, ReportIdKey, Str(""))
  }

  /** The directory a fresh installation finds: nothing written in the future, and no `.json`
      file that parses. */
  ghost predicate Init(s: State) {
    && s.phase.Down?
    && s.procs == map[]
    && s.remote == Remote({}, [], [], {})
    && s.history == History(map[], {}, {}, {})
    && s.tally == map[]
    && (forall n | n in s.disk :: s.disk[n].mtime <= s.now)
    && forall n | n in s.disk && IsJson(n) :: Load(s.disk[n].content).None?
  }

  // ---- frames and moves ----

  ghost predicate SameDisk(s: State, s': State) {
    s'.disk == s.disk && s'.corrupt == s.corrupt && s'.now == s.now
  }

  /** The dashboard, the network and the history are as before. */
  ghost predicate SameWorld(s: State, s': State) {
    s'.remote == s.remote && s'.history == s.history && s'.tally == s.tally
  }

  /** Submitter `name` moves on to `pc`. */
  ghost predicate Moves(s: State, name: Name, pc: Pc, s': State) {
    && name in s.procs
    && s'.phase == s.phase
    && s'.procs == s.procs[name := Proc(s.procs[name].wire, pc)]
  }

  /** A submitter ends without deleting its file. During replay an auth error or a shutdown
      ends the process and any other exception ends the replay; later it ends only the
      submitter. */
  ghost predicate Aborts(s: State, name: Name, exits: bool, s': State) {
    && name in s.procs
    && if s.phase.Replaying? then
         s'.procs == map[] && s'.phase == (if exits then Down else Running)
       else
         s'.procs == s.procs - {name} && s'.phase == s.phase
  }

  /** `tally` changes at `name` only. */
  ghost predicate Tallies(s: State, name: Name, t: Tally, s': State) {
    s'.remote == s.remote && s'.history == s.history && s'.tally == s.tally[name := t]
  }

  function TallyOf(s: State, name: Name): Tally {
    if name in s.tally then s.tally[name] else Tally(0, 0, [])
  }

  // ---- the steps that need more than one line ----

  /** One round of the replay loop. */
  ghost predicate ReplaysHead(s: State, stamp: string, s': State)
    requires s.phase.Replaying? && s.phase.todo != []
  {
    var name, at, rest := s.phase.todo[0], s.phase.registeredAt, s.phase.todo[1..];
    match Decide(s.disk, name, at)
    case CorruptFile =>
      && name in s.disk
      && s'.disk == s.disk - {name} && s'.now == s.now
      && s'.corrupt == s.corrupt[(name, stamp) := s.disk[name].content]
      && s'.phase == Replaying(at, rest) && s'.procs == s.procs
    case Orphan =>
      SameDisk(s, s') && s'.phase == Replaying(at, rest) && s'.procs == s.procs
    case Resubmit(record) =>
      && SameDisk(s, s') && s'.phase == Replaying(at, rest)
      && s'.procs == map[name := Proc(WirePayload(record), Loading)]
    case Missing =>
      SameDisk(s, s') && s'.phase == Running && s'.procs == s.procs
    case Unhandled =>
      SameDisk(s, s') && s'.phase == Running && s'.procs == s.procs
  }

  /** The first half of `increment_attempts`; an unreadable file or counter raises. */
  ghost predicate Loads(s: State, name: Name, s': State) {
    var record := if name in s.disk then Load(s.disk[name].content) else None;
    if record.Some? && Attempts(record.value).Some?
    then Moves(s, name, Opening(Bump(record.value), false), s')
    else Aborts(s, name, false, s')
  }

  /** The rename that ends a save or an increment. */
  ghost predicate Renames(s: State, name: Name, record: Object, initial: bool, s': State) {
    && TmpName(name) in s.disk
    && s'.disk == Commit(s.disk, name) && s'.corrupt == s.corrupt && s'.now == s.now
    && s'.remote == s.remote
    && if initial then
         && Moves(s, name, Loading, s')
         && s'.history == s.history.(saved := s.history.saved + {name})
         && s'.tally == s.tally[name := Tally(0, 0, [])]
       else
         && Attempts(record).Some?
         && Moves(s, name, Ready(Attempts(record).value), s')
         && s'.history == s.history && s'.tally == s.tally
  }

  ghost predicate Sends(s: State, name: Name, s': State) {
    && name in s.procs && s.procs[name].pc.Ready?
    && var wire := s.procs[name].wire;
       if HasRequired(wire) then
         && Moves(s, name, Waiting(|s.remote.requests|, s.procs[name].pc.attempts), s')
         && s'.remote == s.remote.(requests := s.remote.requests + [Request(name, Body(wire))])
         && s'.history == s.history
         && s'.tally == s.tally[name := TallyOf(s, name).(sends := TallyOf(s, name).sends + 1)]
       else
         Aborts(s, name, false, s') && SameWorld(s, s')
  }

  /** The dashboard answers request k, on its first or any later arrival. */
  ghost predicate Answers(s: State, k: nat, answer: Answer, s': State) {
    && k < |s.remote.requests|
    && var request := s.remote.requests[k];
       var id := ReportId(request.body);
       && s'.tally == s.tally
       && s'.remote.requests == s.remote.requests
       && s'.remote.answers == s.remote.answers + {(k, answer)}
       && s'.history.origin == s.history.origin && s'.history.saved == s.history.saved
       && s'.history.settled == s.history.settled + {request.name}
       && match answer
          case Accepted =>
            && id !in s.remote.seen
            && s'.remote.seen == s.remote.seen + {id}
            && s'.remote.accepted == s.remote.accepted + [request.body]
            && s'.history.rejected == s.history.rejected
          case Duplicate =>
            && id in s.remote.seen
            && s'.remote.seen == s.remote.seen && s'.remote.accepted == s.remote.accepted
            && s'.history.rejected == s.history.rejected
          case _ =>
            && s'.remote.seen == s.remote.seen && s'.remote.accepted == s.remote.accepted
            && s'.history.rejected == s.history.rejected + {request.name}
  }

  /** The process dies or exits; a bump not yet followed by its request is wasted. */
  ghost predicate Halts(s: State, s': State) {
    && SameDisk(s, s') && s'.phase == Down && s'.procs == map[]
    && s'.remote == s.remote && s'.history == s.history
    && s'.tally.Keys == s.tally.Keys
    && forall n | n in s.tally ::
         s'.tally[n] == if n in s.procs && s.procs[n].pc.Ready?
                        then s.tally[n].(wasted := s.tally[n].wasted + 1) else s.tally[n]
  }

  ghost predicate Next(s: State, step: Step, s': State) {
    match step
    case Start(registeredAt) =>
      && s.phase.Down? && SameDisk(s, s') && SameWorld(s, s')
      && s'.phase == Cleaning(registeredAt) && s'.procs == map[]
    case CleanTmp(name) =>
      && s.phase.Cleaning? && name in s.disk && IsTmp(name)
      && s'.disk == s.disk - {name} && s'.corrupt == s.corrupt && s'.now == s.now
      && s'.phase == s.phase && s'.procs == s.procs && SameWorld(s, s')
    case ListPending(order) =>
      && s.phase.Cleaning? && IsEnumeration(s.disk, order) && (forall n | n in s.disk :: !IsTmp(n))
      && SameDisk(s, s') && SameWorld(s, s') && s'.procs == s.procs
      && s'.phase == Replaying(s.phase.registeredAt, Listing(s.disk, order))
    case ReplayNext(stamp) =>
      && s.phase.Replaying? && s.phase.todo != [] && s.procs == map[]
      && ReplaysHead(s, stamp, s') && SameWorld(s, s')
    case ReplayFails =>
      // an exception of the scan, of the unlink of a temporary file or of the rename into
      // quarantine ends the replay and not the process
      && (s.phase.Cleaning? || s.phase.Replaying?) && s.procs == map[]
      && SameDisk(s, s') && SameWorld(s, s') && s'.phase == Running && s'.procs == map[]
    case ReplayDone =>
      && s.phase.Replaying? && s.phase.todo == [] && s.procs == map[]
      && SameDisk(s, s') && SameWorld(s, s') && s'.phase == Running && s'.procs == map[]
    case Halt => !s.phase.Down? && Halts(s, s')
    case BeginSave(id, payload, at) =>
      // a fresh report id: no file and no earlier report carries it
      && s.phase.Running? && IsPayload(payload, id)
      && Report(id) !in s.history.origin && Report(id) !in s.disk && Report(id) !in s.procs
      && SameDisk(s, s') && s'.phase == s.phase && s'.remote == s.remote && s'.tally == s.tally
      && s'.procs == s.procs[Report(id) := Proc(payload, Opening(Persisted(payload, at), true))]
      && s'.history == s.history.(origin := s.history.origin[Report(id) := payload])
    case Open(name) =>
      && name in s.procs && s.procs[name].pc.Opening?
      && Moves(s, name, Writing(s.procs[name].pc.record, s.procs[name].pc.initial), s')
      && s'.disk == Tear(s.disk, name, "", s.now + 1) && s'.now == s.now + 1
      && s'.corrupt == s.corrupt && SameWorld(s, s')
    case WritePart(name, bytes) =>
      && name in s.procs && s.procs[name].pc.Writing?
      && s'.procs == s.procs && s'.phase == s.phase
      && s'.disk == Tear(s.disk, name, bytes, s.now + 1) && s'.now == s.now + 1
      && s'.corrupt == s.corrupt && SameWorld(s, s')
    case WriteAll(name) =>
      && name in s.procs && s.procs[name].pc.Writing?
      && Moves(s, name, Replacing(s.procs[name].pc.record, s.procs[name].pc.initial), s')
      && s'.disk == Fill(s.disk, name, Obj(s.procs[name].pc.record), s.now + 1) && s'.now == s.now + 1
      && s'.corrupt == s.corrupt && SameWorld(s, s')
    case WriteFails(name, unlink) =>
      && name in s.procs
      && (if unlink then s.procs[name].pc.Writing? || s.procs[name].pc.Replacing?
          else s.procs[name].pc.Opening? || s.procs[name].pc.Replacing?)
      && s'.disk == (if unlink then s.disk - {TmpName(name)} else s.disk)
      && s'.corrupt == s.corrupt && s'.now == s.now
      && Aborts(s, name, false, s') && SameWorld(s, s')
    case Replace(name) =>
      && name in s.procs && s.procs[name].pc.Replacing?
      && Renames(s, name, s.procs[name].pc.record, s.procs[name].pc.initial, s')
    case ChmodFails(name) =>
      // the exception after the rename; the bump it ends is never followed by its request
      && name in s.procs && (s.procs[name].pc.Loading? || s.procs[name].pc.Ready?)
      && Aborts(s, name, false, s') && SameDisk(s, s') && s'.remote == s.remote && s'.history == s.history
      && s'.tally == (if s.procs[name].pc.Ready?
                      then s.tally[name := TallyOf(s, name).(wasted := TallyOf(s, name).wasted + 1)] else s.tally)
    case LoadBump(name) =>
      && name in s.procs && s.procs[name].pc.Loading?
      && Loads(s, name, s') && SameDisk(s, s') && SameWorld(s, s')
    case Send(name) => Sends(s, name, s') && SameDisk(s, s')
    case Receive(name, answer) =>
      && name in s.procs && s.procs[name].pc.Waiting? && (s.procs[name].pc.request, answer) in s.remote.answers
      && Moves(s, name, Deleting, s') && SameDisk(s, s') && SameWorld(s, s')
    case GiveUp(name) =>
      && name in s.procs && s.procs[name].pc.Waiting?
      && Moves(s, name, Sleeping, s') && SameDisk(s, s')
      && var t := TallyOf(s, name);
         Tallies(s, name, t.(waits := t.waits + [Backoff.Delay(s.procs[name].pc.attempts)]), s')
    case Raise(name, auth) =>
      && name in s.procs && s.procs[name].pc.Waiting?
      && Aborts(s, name, auth, s') && SameDisk(s, s') && SameWorld(s, s')
    case Wake(name, shutdown) =>
      && name in s.procs && s.procs[name].pc.Sleeping?
      && (if shutdown then Aborts(s, name, true, s') else Moves(s, name, Loading, s'))
      && SameDisk(s, s') && SameWorld(s, s')
    case Unlink(name) =>
      && name in s.procs && s.procs[name].pc.Deleting?
      && s'.disk == s.disk - {name} && s'.corrupt == s.corrupt && s'.now == s.now
      && s'.procs == s.procs - {name} && s'.phase == s.phase && SameWorld(s, s')
    case UnlinkFails(name) =>
      && name in s.procs && s.procs[name].pc.Deleting?
      && Aborts(s, name, false, s') && SameDisk(s, s') && SameWorld(s, s')
    case Process(k, answer) =>
      Answers(s, k, answer, s') && SameDisk(s, s') && s'.phase == s.phase && s'.procs == s.procs
  }

  // ---- runs ----

  /** A finite run: each state follows from the one before by the step between them. */
  ghost predicate IsRun(states: seq<State>, steps: seq<Step>) {
    && |states| == |steps| + 1
    && forall i | 0 <= i < |steps| :: Next(states[i], steps[i], states[i + 1])
  }
}
