/**
 * What a call finally answers, over every run: a start that reports success has spawned what it
 * reports, one that found a process names a live and recorded one of another start, and a stop
 * is the only call that reports to have stopped.  And that they do get there.
 */
module ProcessAnswers {
  import opened Wrappers
  import opened ProcessProtocol
  import opened ProcessOutcomes

  lemma RunSnoc(s: State, events: seq<Event>, e: Event)
    ensures Run(s, events + [e]) == Do(Run(s, events), e)
  {
    RunAppend(s, events, [e]);
    assert [e][1..] == [];
    hide Do;
    assert Run(Run(s, events), [e]) == Run(Do(Run(s, events), e), []);
  }

  /** The state before the event at this place. */
  function At(s: State, events: seq<Event>, i: nat): State
    requires i <= |events|
  {
    Run(s, events[..i])
  }

  /** At this place of the run the call takes this step. */
  ghost predicate Took(s: State, events: seq<Event>, i: nat, e: Event) {
    i < |events| && events[i] == e && Next(At(s, events, i), e).Some?
  }

  // --- one step ---

  predicate HasSpawned(p: Phase) {
    HasRecord(p) || p.Finished?
  }

  /** No call has spawned before it comes to its spawn. */
  lemma SpawnsOnceKept(s: State, e: Event)
    requires RecordsOwn(s) && (forall c :: !HasSpawned(PhaseOf(s, c)) ==> NoStartsBy(s, c))
    ensures forall c :: !HasSpawned(PhaseOf(Do(s, e), c)) ==> NoStartsBy(Do(s, e), c)
  {
    forall c | !HasSpawned(PhaseOf(Do(s, e), c)) ensures NoStartsBy(Do(s, e), c) {
      if By(e, c) {
        OwnStarts(s, e, c);
      } else {
        OthersMoveOthers(s, e, c);
      }
    }
  }

  lemma OwnStarts(s: State, e: Event, c: Call)
    requires By(e, c) && !HasSpawned(PhaseOf(Do(s, e), c))
    ensures !HasSpawned(PhaseOf(s, c)) && Do(s, e).starts == s.starts
  {
  }

  /** How a call can come to its answer. */
  lemma AnswerStep(s: State, e: Event, c: Call)
    requires !PhaseOf(s, c).Finished? && PhaseOf(Do(s, e), c).Finished?
    ensures By(e, c) && Next(s, e).Some?
    ensures match PhaseOf(Do(s, e), c).result
      case Started(r) => e == SeeReady(c) && PhaseOf(s, c) == Waiting(r)
      case AlreadyRunning(r) =>
        e == FindRunning(c) && PhaseOf(s, c).Looking? && s.file.Some? && s.file.value.record == r && IsLive(s, r.pid)
      case Stopped => (e == StopNothing(c) && PhaseOf(s, c).Stopping?) || (e == StopDone(c) && PhaseOf(s, c).Killing?)
      case Raised => true
  {
    if !By(e, c) { OthersMoveOthers(s, e, c); }
  }

  /** Which kind of call it is shows in every phase. */
  predicate Starting(p: Phase) {
    p.Looking? || p.Cleared? || HasRecord(p)
  }

  predicate StoppingPhase(p: Phase) {
    p.Stopping? || p.Killing?
  }

  lemma KindStep(s: State, e: Event, c: Call)
    ensures Starting(PhaseOf(Do(s, e), c)) ==> Starting(PhaseOf(s, c)) || (e == BeginStart(c) && Next(s, e).Some?)
    ensures StoppingPhase(PhaseOf(Do(s, e), c)) ==> StoppingPhase(PhaseOf(s, c)) || (e == BeginStop(c) && Next(s, e).Some?)
  {
    if !By(e, c) { OthersMoveOthers(s, e, c); }
  }

  lemma StartsGrow(s: State, e: Event)
    ensures s.starts <= Do(s, e).starts
  {
  }

  // --- whole runs ---

  lemma TookEarlier(s: State, events: seq<Event>, last: Event, i: nat, e: Event)
    requires Took(s, events, i, e)
    ensures Took(s, events + [last], i, e)
  {
    assert (events + [last])[..i] == events[..i];
  }

  lemma TookLast(s: State, events: seq<Event>, last: Event)
    requires Next(Run(s, events), last).Some?
    ensures Took(s, events + [last], |events|, last)
  {
    assert (events + [last])[..|events|] == events;
  }

  /** Somewhere in the run the call took this step. */
  ghost predicate Once(s: State, events: seq<Event>, e: Event) {
    exists i :: Took(s, events, i, e)
  }

  lemma OnceMore(s: State, events: seq<Event>, last: Event, e: Event)
    ensures Once(s, events, e) ==> Once(s, events + [last], e)
    ensures Next(Run(s, events), last).Some? ==> Once(s, events + [last], last)
  {
    hide Took;
    if Once(s, events, e) {
      var i :| Took(s, events, i, e);
      TookEarlier(s, events, last, i, e);
    }
    if Next(Run(s, events), last).Some? { TookLast(s, events, last); }
  }

  /** Calls that start have begun a start, calls that stop a stop. */
  lemma {:induction false} KindsBegan(s: State, events: seq<Event>, c: Call)
    requires Initial(s)
    ensures Starting(PhaseOf(Run(s, events), c)) ==> Once(s, events, BeginStart(c))
    ensures StoppingPhase(PhaseOf(Run(s, events), c)) ==> Once(s, events, BeginStop(c))
    decreases |events|
  {
    if events != [] {
      var before, last := events[..|events| - 1], events[|events| - 1];
      assert events == before + [last];
      hide Once, Do, Starting, StoppingPhase;
      KindsBegan(s, before, c);
      RunSnoc(s, before, last);
      KindStep(Run(s, before), last, c);
      OnceMore(s, before, last, BeginStart(c));
      OnceMore(s, before, last, BeginStop(c));
    }
  }

  lemma {:induction false} OwnRecords(s: State, events: seq<Event>)
    requires Initial(s)
    ensures var t := Run(s, events);
      RecordsOwn(t) && forall c :: !HasSpawned(PhaseOf(t, c)) ==> NoStartsBy(t, c)
    decreases |events|
  {
    if events == [] {
      assert Run(s, events) == s;
    } else {
      var before, last := events[..|events| - 1], events[|events| - 1];
      assert events == before + [last];
      hide RecordsOwn, Do, NoStartsBy;
      OwnRecords(s, before);
      RunSnoc(s, before, last);
      RecordsKept(Run(s, before), last);
      SpawnsOnceKept(Run(s, before), last);
    }
  }

  /** The call found this record, of a live process that another call had spawned. */
  ghost predicate Found(s: State, events: seq<Event>, i: nat, c: Call, r: Record) {
    Took(s, events, i, FindRunning(c)) &&
    var t := At(s, events, i);
    && t.file.Some? && t.file.value.record == r && IsLive(t, r.pid)
    && t.file.value.writer != c && IsStart(t, t.file.value.writer, r)
  }

  /** What the answer of a call promises. */
  ghost predicate Honours(s: State, events: seq<Event>, c: Call, result: ProcessProtocol.Result) {
    match result
    case Started(r) => Once(s, events, BeginStart(c)) && Once(s, events, SeeReady(c)) && IsStart(Run(s, events), c, r)
    case AlreadyRunning(r) => Once(s, events, BeginStart(c)) && exists i :: Found(s, events, i, c, r)
    case Stopped => Once(s, events, BeginStop(c)) && (Once(s, events, StopNothing(c)) || Once(s, events, StopDone(c)))
    case Raised => true
  }

  lemma HonoursMore(s: State, events: seq<Event>, last: Event, c: Call, result: ProcessProtocol.Result)
    requires Honours(s, events, c, result)
    ensures Honours(s, events + [last], c, result)
  {
    hide Once, Took;
    RunSnoc(s, events, last);
    StartsGrow(Run(s, events), last);
    OnceMore(s, events, last, BeginStart(c));
    OnceMore(s, events, last, BeginStop(c));
    OnceMore(s, events, last, SeeReady(c));
    OnceMore(s, events, last, StopNothing(c));
    OnceMore(s, events, last, StopDone(c));
    if result.AlreadyRunning? {
      var i :| Found(s, events, i, c, result.record);
      FoundEarlier(s, events, last, i, c, result.record);
    }
    hide Do;
  }

  lemma FoundEarlier(s: State, events: seq<Event>, last: Event, i: nat, c: Call, r: Record)
    requires Found(s, events, i, c, r)
    ensures Found(s, events + [last], i, c, r)
  {
    assert (events + [last])[..i] == events[..i];
  }

  lemma Answers(s: State, events: seq<Event>, last: Event, c: Call)
    requires Initial(s) && !PhaseOf(Run(s, events), c).Finished? && PhaseOf(Run(s, events + [last]), c).Finished?
    ensures Honours(s, events + [last], c, PhaseOf(Run(s, events + [last]), c).result)
  {
    var t := Run(s, events);
    RunSnoc(s, events, last);
    OwnRecords(s, events);
    KindsBegan(s, events, c);
    AnswerStep(t, last, c);
    OnceMore(s, events, last, BeginStart(c));
    OnceMore(s, events, last, BeginStop(c));
    hide Once, Do;
    var result := PhaseOf(Run(s, events + [last]), c).result;
    match result
    case Started(r) =>
      StartedByItself(t, c, r);
      StartsGrow(t, last);
    case AlreadyRunning(r) => FoundNow(s, events, c, r);
    case _ =>
  }

  lemma StartedByItself(s: State, c: Call, r: Record)
    requires RecordsOwn(s) && PhaseOf(s, c) == Waiting(r)
    ensures IsStart(s, c, r)
  {
  }

  lemma FoundNow(s: State, events: seq<Event>, c: Call, r: Record)
    requires var t := Run(s, events);
      && RecordsOwn(t) && (forall d :: !HasSpawned(PhaseOf(t, d)) ==> NoStartsBy(t, d))
      && Next(t, FindRunning(c)).Some? && PhaseOf(t, c).Looking?
      && t.file.Some? && t.file.value.record == r && IsLive(t, r.pid)
    ensures Found(s, events + [FindRunning(c)], |events|, c, r)
  {
    var t := Run(s, events);
    TookLast(s, events, FindRunning(c));
    assert (events + [FindRunning(c)])[..|events|] == events;
    assert NoStartsBy(t, c) && IsStart(t, t.file.value.writer, r);
    assert t.starts[r.startedAt] in t.starts;
  }

  /**
   * Over every run from nothing, whatever strays: a call that answers Started has spawned that
   * very process, seen its ready file, and was a start; one that answers AlreadyRunning was a
   * start that found the record of a live process which another call had spawned; one that
   * answers Stopped was a stop.
   */
  lemma {:induction false} AnswersAreTrue(s: State, events: seq<Event>, c: Call)
    requires Initial(s) && PhaseOf(Run(s, events), c).Finished?
    ensures Honours(s, events, c, PhaseOf(Run(s, events), c).result)
    decreases |events|
  {
    hide Honours, Do;
    if events != [] {
      var before, last := events[..|events| - 1], events[|events| - 1];
      assert events == before + [last];
      RunSnoc(s, before, last);
      if PhaseOf(Run(s, before), c).Finished? {
        AnswersAreTrue(s, before, c);
        FinishedStays(Run(s, before), last, c);
        HonoursMore(s, before, last, c, PhaseOf(Run(s, before), c).result);
      } else {
        Answers(s, before, last, c);
      }
    }
  }

  lemma FinishedStays(s: State, e: Event, c: Call)
    requires PhaseOf(s, c).Finished?
    ensures PhaseOf(Do(s, e), c) == PhaseOf(s, c)
  {
    if !By(e, c) { OthersMoveOthers(s, e, c); }
  }

  // --- what a call can come to ---

  /** With the lock free and nothing running, a start spawns its child and records it. */
  lemma StartCanSpawn(s: State, c: Call, pid: Pid)
    requires s.lock.None? && PhaseOf(s, c).Idle? && !Running(s) && pid !in s.processes
    ensures var t := Do(Do(Do(Do(s, BeginStart(c)), ClearFiles(c)), Spawn(c, pid)), Save(c));
      var r := Record(pid, |s.starts|);
      && t.lock.None? && PhaseOf(t, c) == Waiting(r) && t.file == Some(StateFile(r, c)) && IsLive(t, pid) && IsChild(t, r)
  {
    var a := Do(s, BeginStart(c));
    assert PhaseOf(a, c).Looking? && a.lock == Some(c) && a.file == s.file && a.processes == s.processes && a.starts == s.starts;
    var b := Do(a, ClearFiles(c));
    assert PhaseOf(b, c).Cleared? && b.processes == s.processes && b.starts == s.starts;
    var d := Do(b, Spawn(c, pid));
    assert PhaseOf(d, c) == Spawned(Record(pid, |s.starts|)) && d.processes[pid] == Child(c, |s.starts|, true);
  }

  /** If the child becomes ready, the start reports success, and the process goes on running. */
  lemma StartCanSucceed(s: State, c: Call)
    requires s.lock.None? && PhaseOf(s, c).Waiting? && IsLive(s, PhaseOf(s, c).record.pid)
    requires s.file == Some(StateFile(PhaseOf(s, c).record, c))
    ensures var r := PhaseOf(s, c).record;
      var t := Do(Do(s, WriteReady(r.pid)), SeeReady(c));
      && t.lock.None? && PhaseOf(t, c) == Finished(Started(r)) && Running(t) && t.file == s.file
  {
    var r := PhaseOf(s, c).record;
    var ready := Do(s, WriteReady(r.pid));
    assert PhaseOf(ready, c) == Waiting(r) && ready.ready.Some? && ready.ready.value.pid == r.pid;
  }

  /** One that finds a live process reports it, and changes nothing. */
  lemma StartCanFindRunning(s: State, c: Call)
    requires s.lock.None? && PhaseOf(s, c).Idle? && Running(s)
    ensures var t := Do(Do(s, BeginStart(c)), FindRunning(c));
      && t.lock.None? && PhaseOf(t, c) == Finished(AlreadyRunning(s.file.value.record))
      && t.file == s.file && t.processes == s.processes && t.starts == s.starts && t.signalled == s.signalled
  {
    var a := Do(s, BeginStart(c));
    assert PhaseOf(a, c).Looking? && a.file == s.file && a.processes == s.processes;
  }

  /** If the child of a waiting start dies, the start ends with an error and leaves no trace. */
  lemma StartCanFail(s: State, c: Call)
    requires s.lock.None? && PhaseOf(s, c).Waiting? && DeadChild(s, PhaseOf(s, c).record.pid)
    requires s.file == Some(StateFile(PhaseOf(s, c).record, c))
    ensures var t := Do(Do(Do(s, SeeExit(c)), LockAgain(c)), EndStart(c));
      && t.lock.None? && PhaseOf(t, c) == Finished(Raised) && t.file.None? && t.ready.None?
      && t.processes == s.processes - {PhaseOf(s, c).record.pid}
  {
    var r := PhaseOf(s, c).record;
    var a := Do(s, SeeExit(c));
    assert PhaseOf(a, c) == Failing(r, true) && a.lock.None? && a.file == s.file;
    var b := Do(a, LockAgain(c));
    assert PhaseOf(b, c) == Ending(r, true) && b.file == s.file;
  }

  /** A stop ends the recorded process, if that dies of the signal, and clears the files. */
  lemma StopCanSucceed(s: State, c: Call)
    requires s.lock.None? && PhaseOf(s, c).Idle? && Running(s)
    ensures var pid := s.file.value.record.pid;
      var t := Do(Do(Do(Do(s, BeginStop(c)), SignalRecorded(c)), Die(pid)), StopDone(c));
      && t.lock.None? && PhaseOf(t, c) == Finished(Stopped) && t.file.None? && t.ready.None? && !IsLive(t, pid)
      && t.signalled == s.signalled + [s.processes[pid]]
  {
    var pid := s.file.value.record.pid;
    var a := Do(s, BeginStop(c));
    assert PhaseOf(a, c).Stopping? && a.file == s.file && a.processes == s.processes;
    var b := Do(a, SignalRecorded(c));
    assert PhaseOf(b, c) == Killing(s.file.value.record) && b.processes == s.processes;
    var d := Do(b, Die(pid));
    assert PhaseOf(d, c) == Killing(s.file.value.record) && !IsLive(d, pid);
  }
}
