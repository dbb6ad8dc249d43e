/**
 * Starting and stopping a detached process: any number of concurrent `start` and `stop`
 * calls, a file lock that is released while the child loads, children that die at any
 * moment, and pids that the system reuses.  `gateway/process.py` runs the same protocol.
 *
 * A run is a list of events.  An event that is not enabled changes nothing, so every list
 * of events is a run and every statement is about every interleaving.
 */
module ProcessProtocol {
  import opened Wrappers

  type Pid = nat
  /** One call of `start` or `stop`. */
  type Call = nat

  /** The fields of the record that matter; no two starts share `startedAt`. */
  datatype Record = Record(pid: Pid, startedAt: nat)

  /** The state file, and which call wrote it (which the code cannot see). */
  datatype StateFile = StateFile(record: Record, writer: Call)

  /** The ready file names a pid; `startedAt` is the child that wrote it. */
  datatype ReadyFile = ReadyFile(pid: Pid, startedAt: nat)

  /** Who has a pid: a child spawned by a start (dead until it is reaped), or anything else. */
  datatype Process = Child(parent: Call, startedAt: nat, alive: bool) | Unrelated

  datatype Result = AlreadyRunning(record: Record) | Started(record: Record) | Stopped | Raised

  /** Where a call stands.  `reaped`: its `Popen` object has seen the child exit. */
  datatype Phase =
    | Idle
    | Looking                                  // start: lock held, about to read the status
    | Cleared                                  // start: lock held, old files deleted
    | Spawned(record: Record)                  // start: lock held, child not yet recorded
    | Unsaved(record: Record, reaped: bool)    // start: lock held, saving failed, ending the child
    | Waiting(record: Record)                  // start: lock released, waiting for the child
    | Failing(record: Record, reaped: bool)    // start: gave up waiting, wants the lock
    | Ending(record: Record, reaped: bool)     // start: lock held, ending the child
    | Stopping                                 // stop: lock held, about to read the record
    | Killing(record: Record)                  // stop: lock held, signal sent
    | Finished(result: Result)

  /** `starts` lists the spawns so far, by start time; `signalled` whoever got a signal. */
  datatype State = State(
    lock: Option<Call>,
    file: Option<StateFile>,
    ready: Option<ReadyFile>,
    processes: map<Pid, Process>,
    phases: map<Call, Phase>,
    starts: seq<(Call, Pid)>,
    signalled: seq<Process>)

  datatype Event =
    | BeginStart(c: Call)
    | FindRunning(c: Call)
    | ClearFiles(c: Call)
    | Spawn(c: Call, pid: Pid)
    | Save(c: Call)
    | SaveFails(c: Call, written: bool)
    | SeeReady(c: Call)
    | SeeExit(c: Call)
    | StopWaiting(c: Call)
    | LockAgain(c: Call)
    | Reaped(c: Call)
    | SignalChild(c: Call)
    | EndStart(c: Call)
    | BeginStop(c: Call)
    | StopNothing(c: Call)
    | SignalRecorded(c: Call)
    | StopDone(c: Call)
    | Abort(c: Call)
    | AbortClearing(c: Call, both: bool)
    | Die(pid: Pid)
    | Vanish(pid: Pid)
    | Appear(pid: Pid)
    | WriteReady(pid: Pid)

  function PhaseOf(s: State, c: Call): Phase {
    if c in s.phases then s.phases[c] else Idle
  }

  /** `is_backend`: a live process whose command line names the module. */
  predicate IsLive(s: State, pid: Pid) {
    pid in s.processes && s.processes[pid].Child? && s.processes[pid].alive
  }

  /** The status is RUNNING, LOADING or UNHEALTHY. */
  predicate Running(s: State) {
    s.file.Some? && IsLive(s, s.file.value.record.pid)
  }

  function Goto(s: State, c: Call, p: Phase): State {
    s.(phases := s.phases[c := p])
  }

  function Unlock(s: State, c: Call, result: Result): State {
    Goto(s, c, Finished(result)).(lock := None)
  }

  function WithoutFiles(s: State): State {
    s.(file := None, ready := None)
  }

  /** The call still has a `Popen` object whose child has not been reaped. */
  predicate Holds(p: Phase) {
    p.Spawned? || p.Waiting? || ((p.Unsaved? || p.Failing? || p.Ending?) && !p.reaped)
  }

  predicate DeadChild(s: State, pid: Pid) {
    pid in s.processes && s.processes[pid].Child? && !s.processes[pid].alive
  }

  function Reap(s: State, pid: Pid): State {
    s.(processes := s.processes - {pid})
  }

  function Signal(s: State, pid: Pid): State
    requires pid in s.processes
  {
    s.(signalled := s.signalled + [s.processes[pid]])
  }

  /** What the call does next, or None if the event is not enabled. */
  function StartStep(s: State, e: Event): Option<State> {
    match e
    case BeginStart(c) =>
      if PhaseOf(s, c).Idle? && s.lock.None? then Some(Goto(s, c, Looking).(lock := Some(c))) else None
    case FindRunning(c) =>
      if PhaseOf(s, c).Looking? && Running(s) then Some(Unlock(s, c, AlreadyRunning(s.file.value.record))) else None
    case ClearFiles(c) =>
      if PhaseOf(s, c).Looking? && !Running(s) then Some(Goto(WithoutFiles(s), c, Cleared)) else None
    case Spawn(c, pid) =>
      if PhaseOf(s, c).Cleared? && pid !in s.processes then
        Some(Goto(s, c, Spawned(Record(pid, |s.starts|))).(
          processes := s.processes[pid := Child(c, |s.starts|, true)], starts := s.starts + [(c, pid)]))
      else None
    case Save(c) =>
      if PhaseOf(s, c).Spawned? then
        var r := PhaseOf(s, c).record;
        Some(Goto(s, c, Waiting(r)).(lock := None, file := Some(StateFile(r, c))))
      else None
    case SaveFails(c, written) =>
      if PhaseOf(s, c).Spawned? then
        var r := PhaseOf(s, c).record;
        Some(Goto(s, c, Unsaved(r, false)).(file := if written then Some(StateFile(r, c)) else s.file))
      else None
    case _ => None
  }

  function WaitStep(s: State, e: Event): Option<State> {
    match e
    case SeeReady(c) =>
      if PhaseOf(s, c).Waiting? && s.ready.Some? && s.ready.value.pid == PhaseOf(s, c).record.pid
      then Some(Goto(s, c, Finished(Started(PhaseOf(s, c).record)))) else None
    case SeeExit(c) =>
      if PhaseOf(s, c).Waiting? && DeadChild(s, PhaseOf(s, c).record.pid) then
        Some(Goto(Reap(s, PhaseOf(s, c).record.pid), c, Failing(PhaseOf(s, c).record, true)))
      else None
    case StopWaiting(c) =>
      if PhaseOf(s, c).Waiting? then Some(Goto(s, c, Failing(PhaseOf(s, c).record, false))) else None
    case LockAgain(c) =>
      if PhaseOf(s, c).Failing? && s.lock.None? then
        Some(Goto(s, c, Ending(PhaseOf(s, c).record, PhaseOf(s, c).reaped)).(lock := Some(c)))
      else None
    case Reaped(c) =>
      var p := PhaseOf(s, c);
      if (p.Ending? || p.Unsaved?) && !p.reaped && DeadChild(s, p.record.pid) then
        Some(Goto(Reap(s, p.record.pid), c, p.(reaped := true)))
      else None
    case SignalChild(c) => // os.kill with the Popen object's pid: nothing checks who has it
      var p := PhaseOf(s, c);
      if (p.Ending? || p.Unsaved?) && !p.reaped && p.record.pid in s.processes
      then Some(Signal(s, p.record.pid)) else None
    case EndStart(c) =>
      var p := PhaseOf(s, c);
      if p.Unsaved? && p.reaped then Some(Unlock(s, c, Raised))
      else if p.Ending? && p.reaped then
        var mine := s.file.Some? && s.file.value.record == p.record;
        Some(Unlock(if mine then WithoutFiles(s) else s, c, Raised))
      else None
    case _ => None
  }

  function StopStep(s: State, e: Event): Option<State> {
    match e
    case BeginStop(c) =>
      if PhaseOf(s, c).Idle? && s.lock.None? then Some(Goto(s, c, Stopping).(lock := Some(c))) else None
    case StopNothing(c) =>
      if PhaseOf(s, c).Stopping? && !Running(s) then Some(Unlock(WithoutFiles(s), c, Stopped)) else None
    case SignalRecorded(c) =>
      var p := PhaseOf(s, c);
      if (p.Stopping? || p.Killing?) && Running(s) then
        Some(Goto(Signal(s, s.file.value.record.pid), c, Killing(s.file.value.record)))
      else None
    case StopDone(c) =>
      if PhaseOf(s, c).Killing? && !IsLive(s, PhaseOf(s, c).record.pid)
      then Some(Unlock(WithoutFiles(s), c, Stopped)) else None
    case _ => None
  }

  /** The call is about to delete the state file. */
  predicate AboutToClear(s: State, c: Call) {
    var p := PhaseOf(s, c);
    || ((p.Looking? || p.Stopping?) && !Running(s))
    || (p.Killing? && !IsLive(s, p.record.pid))
    || (p.Ending? && p.reaped && s.file.Some? && s.file.value.record == p.record)
  }

  /**
   * A call can end with an error wherever it stands: by an exception that nothing handles, an
   * interrupt, a child that survives SIGKILL, or by being killed itself.  The system then
   * frees the lock.  Of the files the state goes first, so an interrupt can leave the other.
   */
  function AbortStep(s: State, e: Event): Option<State> {
    match e
    case Abort(c) =>
      var p := PhaseOf(s, c);
      if p.Idle? || p.Finished? then None
      else Some(Goto(s, c, Finished(Raised)).(lock := if HoldsLock(p) then None else s.lock))
    case AbortClearing(c, both) =>
      if AboutToClear(s, c) then
        Some(Unlock(if both then WithoutFiles(s) else s.(file := None), c, Raised))
      else None
    case _ => None
  }

  /** What happens outside the calls. */
  function OutsideStep(s: State, e: Event): Option<State> {
    match e
    case Die(pid) =>
      if IsLive(s, pid) then Some(s.(processes := s.processes[pid := s.processes[pid].(alive := false)])) else None
    case Vanish(pid) => // an unrelated process exits, or a dead child nobody waits for is reaped
      if pid in s.processes && (s.processes[pid].Unrelated? ||
           (DeadChild(s, pid) && !Holds(PhaseOf(s, s.processes[pid].parent)))) then Some(Reap(s, pid))
      else None
    case Appear(pid) =>
      if pid !in s.processes then Some(s.(processes := s.processes[pid := Unrelated])) else None
    case WriteReady(pid) =>
      if IsLive(s, pid) then Some(s.(ready := Some(ReadyFile(pid, s.processes[pid].startedAt)))) else None
    case _ => None
  }

  function OrElse(a: Option<State>, b: Option<State>): Option<State> {
    if a.Some? then a else b
  }

  function Next(s: State, e: Event): Option<State> {
    OrElse(StartStep(s, e), OrElse(WaitStep(s, e), OrElse(StopStep(s, e), OrElse(AbortStep(s, e), OutsideStep(s, e)))))
  }

  function Do(s: State, e: Event): State {
    if Next(s, e).Some? then Next(s, e).value else s
  }

  function Run(s: State, events: seq<Event>): State
    decreases |events|
  {
    if events == [] then s else Run(Do(s, events[0]), events[1..])
  }

  /** Nothing started yet; other processes may have pids. */
  ghost predicate Initial(s: State) {
    && s.lock.None? && s.file.None? && s.ready.None? && s.phases == map[] && s.starts == [] && s.signalled == []
    && forall pid :: pid in s.processes ==> s.processes[pid].Unrelated?
  }

  // --- the invariant ---

  predicate HoldsLock(p: Phase) {
    p.Looking? || p.Cleared? || p.Spawned? || p.Unsaved? || p.Ending? || p.Stopping? || p.Killing?
  }

  /** The call has spawned a child. */
  predicate HasRecord(p: Phase) {
    p.Spawned? || p.Unsaved? || p.Waiting? || p.Failing? || p.Ending?
  }

  ghost predicate LockHeld(s: State) {
    forall c :: c in s.phases ==> (HoldsLock(s.phases[c]) <==> s.lock == Some(c))
  }

  ghost predicate LockKnown(s: State) {
    s.lock.Some? ==> s.lock.value in s.phases
  }

  /** The record is that of one of the spawns so far, by this call. */
  ghost predicate IsStart(s: State, c: Call, r: Record) {
    r.startedAt < |s.starts| && s.starts[r.startedAt] == (c, r.pid)
  }

  ghost predicate ChildrenStarted(s: State) {
    forall p :: p in s.processes && s.processes[p].Child? ==>
      IsStart(s, s.processes[p].parent, Record(p, s.processes[p].startedAt))
  }

  /** Every record, in a call or in the file, is that of the call's own spawn. */
  ghost predicate RecordsOwn(s: State) {
    && (forall c :: c in s.phases && HasRecord(s.phases[c]) ==> IsStart(s, c, s.phases[c].record))
    && (s.file.Some? ==> IsStart(s, s.file.value.writer, s.file.value.record))
  }

  ghost predicate IsChild(s: State, r: Record) {
    r.pid in s.processes && s.processes[r.pid].Child? && s.processes[r.pid].startedAt == r.startedAt
  }

  /** A child that a call still holds has its pid; one that it has reaped is gone. */
  ghost predicate HandlesMatch(s: State) {
    forall c :: c in s.phases && HasRecord(s.phases[c]) ==>
      (Holds(s.phases[c]) <==> IsChild(s, s.phases[c].record))
  }

  /** While a start has cleared the files, nothing is recorded but its own child. */
  ghost predicate FilesCleared(s: State) {
    forall c :: c in s.phases ==>
      && (s.phases[c].Cleared? ==> s.file.None? && s.ready.None?)
      && (s.phases[c].Spawned? ==> s.file.None?)
      && (s.phases[c].Unsaved? ==> s.file.None? || s.file.value.record == s.phases[c].record)
      && (s.phases[c].Killing? ==> s.file.Some? && s.file.value.record == s.phases[c].record)
  }

  /** The record describes this process. */
  ghost predicate RecordedAs(s: State, pid: Pid)
    requires IsLive(s, pid)
  {
    s.file.Some? && s.file.value.record == Record(pid, s.processes[pid].startedAt)
  }

  /** The lock is held by the start that has just spawned this process. */
  ghost predicate BeingStarted(s: State, pid: Pid)
    requires IsLive(s, pid)
  {
    s.lock.Some? && s.lock.value in s.phases &&
    var p := s.phases[s.lock.value];
    (p.Spawned? || (p.Unsaved? && !p.reaped)) && p.record == Record(pid, s.processes[pid].startedAt)
  }

  ghost predicate LiveIsKnown(s: State) {
    forall pid :: IsLive(s, pid) ==> RecordedAs(s, pid) || BeingStarted(s, pid)
  }

  ghost predicate OnlyChildrenSignalled(s: State) {
    forall x :: x in s.signalled ==>
      x.Child? && x.startedAt < |s.starts| && s.starts[x.startedAt].0 == x.parent
  }

  /** A ready file that names a waiting call's pid was written by that call's child. */
  ghost predicate ReadyIsOwn(s: State) {
    forall c :: (c in s.phases && Holds(s.phases[c]) && s.ready.Some?
      && s.ready.value.pid == s.phases[c].record.pid) ==> s.ready.value.startedAt == s.phases[c].record.startedAt
  }

  ghost predicate Inv(s: State) {
    && LockHeld(s) && LockKnown(s) && ChildrenStarted(s) && RecordsOwn(s) && HandlesMatch(s)
    && FilesCleared(s) && LiveIsKnown(s) && OnlyChildrenSignalled(s) && ReadyIsOwn(s)
  }

  /**
   * The one event that can break the invariant: a start ends after it has spawned its child
   * and before a record says so, and the child stays alive.  Either the start itself was
   * killed in between, or saving failed and the child survived SIGKILL.
   */
  ghost predicate LeavesStray(s: State, e: Event) {
    e.Abort? &&
    var p := PhaseOf(s, e.c);
    (p.Spawned? || (p.Unsaved? && !p.reaped)) && IsLive(s, p.record.pid) && !RecordedAs(s, p.record.pid)
  }

  // --- every event keeps it ---

  lemma LockKept(s: State, e: Event)
    requires LockHeld(s) && LockKnown(s)
    ensures LockHeld(Do(s, e)) && LockKnown(Do(s, e))
  {
  }

  lemma ChildrenKept(s: State, e: Event)
    requires ChildrenStarted(s)
    ensures ChildrenStarted(Do(s, e))
  {
  }

  lemma RecordsKeptByStart(s: State, e: Event)
    requires RecordsOwn(s) && StartStep(s, e).Some?
    ensures RecordsOwn(StartStep(s, e).value)
  {
  }

  lemma RecordsKeptByWait(s: State, e: Event)
    requires RecordsOwn(s) && WaitStep(s, e).Some?
    ensures RecordsOwn(WaitStep(s, e).value)
  {
  }

  lemma RecordsKeptByStop(s: State, e: Event)
    requires RecordsOwn(s) && StopStep(s, e).Some?
    ensures RecordsOwn(StopStep(s, e).value)
  {
  }

  lemma RecordsKeptByAbort(s: State, e: Event)
    requires RecordsOwn(s) && AbortStep(s, e).Some?
    ensures RecordsOwn(AbortStep(s, e).value)
  {
  }

  lemma RecordsKeptByOutside(s: State, e: Event)
    requires RecordsOwn(s) && OutsideStep(s, e).Some?
    ensures RecordsOwn(OutsideStep(s, e).value)
  {
  }

  lemma RecordsKept(s: State, e: Event)
    requires RecordsOwn(s)
    ensures RecordsOwn(Do(s, e))
  {
    hide RecordsOwn, StartStep, WaitStep, StopStep, AbortStep, OutsideStep;
    if StartStep(s, e).Some? {
      RecordsKeptByStart(s, e);
    } else if WaitStep(s, e).Some? {
      RecordsKeptByWait(s, e);
    } else if StopStep(s, e).Some? {
      RecordsKeptByStop(s, e);
    } else if AbortStep(s, e).Some? {
      RecordsKeptByAbort(s, e);
    } else if OutsideStep(s, e).Some? {
      RecordsKeptByOutside(s, e);
    }
  }

  lemma HandlesKeptByStart(s: State, e: Event)
    requires HandlesMatch(s) && RecordsOwn(s) && ChildrenStarted(s) && StartStep(s, e).Some?
    ensures HandlesMatch(StartStep(s, e).value)
  {
  }

  lemma HandlesKeptByWait(s: State, e: Event)
    requires HandlesMatch(s) && RecordsOwn(s) && ChildrenStarted(s) && WaitStep(s, e).Some?
    ensures HandlesMatch(WaitStep(s, e).value)
  {
    if e.Reaped? || e.SeeExit? {
      HandlesKeptByReaping(s, e);
    } else {
      HandlesKeptByOtherWaits(s, e);
    }
  }

  lemma HandlesKeptByReaping(s: State, e: Event)
    requires HandlesMatch(s) && RecordsOwn(s) && (e.Reaped? || e.SeeExit?) && WaitStep(s, e).Some?
    ensures HandlesMatch(WaitStep(s, e).value)
  {
    var t := WaitStep(s, e).value;
    forall c | c in t.phases && HasRecord(t.phases[c])
      ensures Holds(t.phases[c]) <==> IsChild(t, t.phases[c].record)
    {
      assert c in s.phases && s.phases[c].record == t.phases[c].record;
      assert IsStart(s, c, s.phases[c].record) && IsStart(s, e.c, s.phases[e.c].record);
    }
  }

  lemma HandlesKeptByOtherWaits(s: State, e: Event)
    requires HandlesMatch(s) && !e.Reaped? && !e.SeeExit? && WaitStep(s, e).Some?
    ensures HandlesMatch(WaitStep(s, e).value)
  {
    var t := WaitStep(s, e).value;
    assert t.processes == s.processes;
    forall c | c in t.phases && HasRecord(t.phases[c])
      ensures Holds(t.phases[c]) <==> IsChild(t, t.phases[c].record)
    {
      assert c in s.phases && HasRecord(s.phases[c]) && s.phases[c].record == t.phases[c].record;
    }
  }

  lemma HandlesKeptByStop(s: State, e: Event)
    requires HandlesMatch(s) && RecordsOwn(s) && ChildrenStarted(s) && StopStep(s, e).Some?
    ensures HandlesMatch(StopStep(s, e).value)
  {
  }

  lemma HandlesKeptByAbort(s: State, e: Event)
    requires HandlesMatch(s) && RecordsOwn(s) && ChildrenStarted(s) && AbortStep(s, e).Some?
    ensures HandlesMatch(AbortStep(s, e).value)
  {
  }

  lemma HandlesKeptByOutside(s: State, e: Event)
    requires HandlesMatch(s) && RecordsOwn(s) && ChildrenStarted(s) && OutsideStep(s, e).Some?
    ensures HandlesMatch(OutsideStep(s, e).value)
  {
  }

  lemma HandlesKept(s: State, e: Event)
    requires HandlesMatch(s) && RecordsOwn(s) && ChildrenStarted(s)
    ensures HandlesMatch(Do(s, e))
  {
    hide HandlesMatch, RecordsOwn, ChildrenStarted, StartStep, WaitStep, StopStep, AbortStep, OutsideStep;
    if StartStep(s, e).Some? {
      HandlesKeptByStart(s, e);
    } else if WaitStep(s, e).Some? {
      HandlesKeptByWait(s, e);
    } else if StopStep(s, e).Some? {
      HandlesKeptByStop(s, e);
    } else if AbortStep(s, e).Some? {
      HandlesKeptByAbort(s, e);
    } else if OutsideStep(s, e).Some? {
      HandlesKeptByOutside(s, e);
    }
  }

  lemma ClearedKeptByStart(s: State, e: Event)
    requires LockHeld(s) && LockKnown(s) && FilesCleared(s) && LiveIsKnown(s) && StartStep(s, e).Some?
    ensures FilesCleared(StartStep(s, e).value)
  {
  }

  lemma ClearedKeptByWait(s: State, e: Event)
    requires LockHeld(s) && LockKnown(s) && FilesCleared(s) && LiveIsKnown(s) && WaitStep(s, e).Some?
    ensures FilesCleared(WaitStep(s, e).value)
  {
  }

  lemma ClearedKeptByStop(s: State, e: Event)
    requires LockHeld(s) && LockKnown(s) && FilesCleared(s) && LiveIsKnown(s) && StopStep(s, e).Some?
    ensures FilesCleared(StopStep(s, e).value)
  {
  }

  lemma ClearedKeptByAbort(s: State, e: Event)
    requires LockHeld(s) && LockKnown(s) && FilesCleared(s) && LiveIsKnown(s) && AbortStep(s, e).Some?
    ensures FilesCleared(AbortStep(s, e).value)
  {
  }

  lemma ClearedKeptByOutside(s: State, e: Event)
    requires LockHeld(s) && LockKnown(s) && FilesCleared(s) && LiveIsKnown(s) && OutsideStep(s, e).Some?
    ensures FilesCleared(OutsideStep(s, e).value)
  {
  }

  lemma ClearedKept(s: State, e: Event)
    requires LockHeld(s) && LockKnown(s) && FilesCleared(s) && LiveIsKnown(s)
    ensures FilesCleared(Do(s, e))
  {
    hide LockHeld, LockKnown, FilesCleared, LiveIsKnown, StartStep, WaitStep, StopStep, AbortStep, OutsideStep;
    if StartStep(s, e).Some? {
      ClearedKeptByStart(s, e);
    } else if WaitStep(s, e).Some? {
      ClearedKeptByWait(s, e);
    } else if StopStep(s, e).Some? {
      ClearedKeptByStop(s, e);
    } else if AbortStep(s, e).Some? {
      ClearedKeptByAbort(s, e);
    } else if OutsideStep(s, e).Some? {
      ClearedKeptByOutside(s, e);
    }
  }

  lemma SignalsKept(s: State, e: Event)
    requires HandlesMatch(s) && ChildrenStarted(s) && OnlyChildrenSignalled(s)
    ensures OnlyChildrenSignalled(Do(s, e))
  {
  }

  lemma ReadyKept(s: State, e: Event)
    requires HandlesMatch(s) && FilesCleared(s) && ReadyIsOwn(s)
    ensures ReadyIsOwn(Do(s, e))
  {
  }

  lemma LiveKept(s: State, e: Event)
    requires LockHeld(s) && LockKnown(s) && FilesCleared(s) && HandlesMatch(s) && LiveIsKnown(s)
    requires !LeavesStray(s, e)
    ensures LiveIsKnown(Do(s, e))
  {
    var t := Do(s, e);
    forall pid | IsLive(t, pid)
      ensures RecordedAs(t, pid) || BeingStarted(t, pid)
    {
      assert IsLive(s, pid) || e.Spawn?;
    }
  }

  lemma StepKeeps(s: State, e: Event)
    requires Inv(s) && !LeavesStray(s, e)
    ensures Inv(Do(s, e))
  {
    hide LockHeld, LockKnown, ChildrenStarted, HandlesMatch, RecordsOwn, FilesCleared, LiveIsKnown, OnlyChildrenSignalled, ReadyIsOwn, Do;
    LockKept(s, e);
    ChildrenKept(s, e);
    RecordsKept(s, e);
    HandlesKept(s, e);
    ClearedKept(s, e);
    SignalsKept(s, e);
    ReadyKept(s, e);
    LiveKept(s, e);
  }

  // --- whole runs ---

  ghost predicate InvThroughout(s: State, events: seq<Event>)
    decreases |events|
  {
    Inv(s) && (events != [] ==> InvThroughout(Do(s, events[0]), events[1..]))
  }

  ghost predicate NeverStrays(s: State, events: seq<Event>)
    decreases |events|
  {
    events != [] ==> !LeavesStray(s, events[0]) && NeverStrays(Do(s, events[0]), events[1..])
  }

  /** Over every interleaving: the invariant holds throughout if and only if no start strays. */
  lemma {:induction false} RunsKeepInvariant(s: State, events: seq<Event>)
    requires Inv(s)
    ensures InvThroughout(s, events) <==> NeverStrays(s, events)
    decreases |events|
  {
    if events != [] {
      if LeavesStray(s, events[0]) {
        StrayBreaks(s, events[0]);
      } else {
        StepKeeps(s, events[0]);
        RunsKeepInvariant(Do(s, events[0]), events[1..]);
      }
    }
  }

  lemma StrayBreaks(s: State, e: Event)
    requires Inv(s) && LeavesStray(s, e)
    ensures !LiveIsKnown(Do(s, e))
  {
    var r := PhaseOf(s, e.c).record;
    assert IsLive(Do(s, e), r.pid);
  }

  lemma InitialIsFine(s: State)
    requires Initial(s)
    ensures Inv(s)
  {
  }

  /** What the invariant means to a user of the command line. */
  ghost predicate Orderly(s: State) {
    // at most one process is live,
    && (forall p, q :: IsLive(s, p) && IsLive(s, q) ==> p == q)
    // it is the recorded one whenever the lock is free,
    && (s.lock.None? ==> forall p :: IsLive(s, p) ==> RecordedAs(s, p))
    // and nothing was ever signalled but what a start spawned.
    && OnlyChildrenSignalled(s)
  }

  lemma InvIsOrderly(s: State)
    requires Inv(s)
    ensures Orderly(s)
  {
    forall p, q | IsLive(s, p) && IsLive(s, q)
      ensures p == q
    {
      assert RecordedAs(s, p) || BeingStarted(s, p);
      assert RecordedAs(s, q) || BeingStarted(s, q);
    }
  }

  ghost predicate OrderlyThroughout(s: State, events: seq<Event>)
    decreases |events|
  {
    Orderly(s) && (events != [] ==> OrderlyThroughout(Do(s, events[0]), events[1..]))
  }

  lemma StrayIsDisorder(s: State, e: Event)
    requires Inv(s) && LeavesStray(s, e)
    ensures !Orderly(Do(s, e))
  {
    var r := PhaseOf(s, e.c).record;
    assert IsLive(Do(s, e), r.pid) && Do(s, e).lock.None?;
  }

  lemma {:induction false} OrderlyIffNeverStrays(s: State, events: seq<Event>)
    requires Inv(s)
    ensures OrderlyThroughout(s, events) <==> NeverStrays(s, events)
    decreases |events|
  {
    hide Inv, Orderly, Do, LeavesStray;
    InvIsOrderly(s);
    if events != [] {
      if LeavesStray(s, events[0]) {
        StrayIsDisorder(s, events[0]);
      } else {
        StepKeeps(s, events[0]);
        OrderlyIffNeverStrays(Do(s, events[0]), events[1..]);
      }
    }
  }

  /**
   * Whatever calls, deaths and reused pids there are: a run is orderly at every moment if and
   * only if no start strays in it.
   */
  lemma RunsAreOrderly(s: State, events: seq<Event>)
    requires Initial(s)
    ensures OrderlyThroughout(s, events) <==> NeverStrays(s, events)
  {
    InitialIsFine(s);
    OrderlyIffNeverStrays(s, events);
  }

  lemma RunOne(s: State, e: Event, rest: seq<Event>)
    ensures Run(s, [e] + rest) == Run(Do(s, e), rest)
  {
    assert ([e] + rest)[1..] == rest;
  }

  /** After a start strays, one more start is enough to have two live processes. */
  lemma StrayMeansTwo(s: State, c: Call, d: Call, pid: Pid)
    requires Inv(s) && LeavesStray(s, Abort(c))
    requires PhaseOf(s, d).Idle? && d != c && pid !in s.processes
    ensures var t := Run(s, [Abort(c)] + ([BeginStart(d)] + ([ClearFiles(d)] + ([Spawn(d, pid)] + ([Save(d)] + [])))));
      exists p :: p != pid && IsLive(t, p) && IsLive(t, pid)
  {
    var s1 := Do(s, Abort(c));
    var s2 := Do(s1, BeginStart(d));
    var s3 := Do(s2, ClearFiles(d));
    var s4 := Do(s3, Spawn(d, pid));
    var s5 := Do(s4, Save(d));
    RunOne(s, Abort(c), [BeginStart(d)] + ([ClearFiles(d)] + ([Spawn(d, pid)] + ([Save(d)] + []))));
    RunOne(s1, BeginStart(d), [ClearFiles(d)] + ([Spawn(d, pid)] + ([Save(d)] + [])));
    RunOne(s2, ClearFiles(d), [Spawn(d, pid)] + ([Save(d)] + []));
    RunOne(s3, Spawn(d, pid), [Save(d)] + []);
    RunOne(s4, Save(d), []);
    StrayThenStart(s, c, d, pid);
  }

  lemma StrayThenStart(s: State, c: Call, d: Call, pid: Pid)
    requires Inv(s) && LeavesStray(s, Abort(c))
    requires PhaseOf(s, d).Idle? && d != c && pid !in s.processes
    ensures var s3 := Do(Do(Do(s, Abort(c)), BeginStart(d)), ClearFiles(d));
      var t := Do(Do(s3, Spawn(d, pid)), Save(d));
      exists p :: p != pid && IsLive(t, p) && IsLive(t, pid)
  {
    var r := PhaseOf(s, c).record;
    var s1 := Do(s, Abort(c));
    assert s.file.None? && s1 == Unlock(s, c, Raised);
    var s2 := Do(s1, BeginStart(d));
    assert s2.file.None? && s2.processes == s.processes && PhaseOf(s2, d).Looking?;
    var s3 := Do(s2, ClearFiles(d));
    assert s3.processes == s.processes && PhaseOf(s3, d).Cleared?;
    var s4 := Do(s3, Spawn(d, pid));
    assert s4.processes == s.processes[pid := Child(d, |s3.starts|, true)] && PhaseOf(s4, d).Spawned?;
    var s5 := Do(s4, Save(d));
    assert s5.processes == s4.processes;
    assert IsLive(s5, r.pid) && IsLive(s5, pid);
  }

  // --- what single events guarantee ---

  /** A start only spawns when nothing is live. */
  lemma SpawnsAlone(s: State, c: Call, pid: Pid)
    requires Inv(s) && StartStep(s, Spawn(c, pid)).Some?
    ensures forall p :: !IsLive(s, p)
  {
  }

  /** A start reports success only on a ready file that its own child wrote. */
  lemma SuccessIsOwn(s: State, c: Call)
    requires Inv(s) && WaitStep(s, SeeReady(c)).Some?
    ensures var r := PhaseOf(s, c).record;
      s.ready == Some(ReadyFile(r.pid, r.startedAt)) && IsChild(s, r)
  {
  }

  /** When a stop returns, nothing is live and nothing is recorded. */
  lemma StopStops(s: State, e: Event)
    requires Inv(s) && (e.StopNothing? || e.StopDone?) && StopStep(s, e).Some?
    ensures var t := StopStep(s, e).value;
      t.file.None? && forall p :: !IsLive(t, p)
  {
    var t := StopStep(s, e).value;
    forall p | IsLive(t, p)
      ensures false
    {
      assert IsLive(s, p);
    }
  }
}
