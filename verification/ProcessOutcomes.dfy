/**
 * What a start does to the record of another one, and runs that show what can go wrong: the
 * failing starts of the protocol, step by step.
 */
module ProcessOutcomes {
  import opened Wrappers
  import opened ProcessProtocol

  /** The event is the next step of this call. */
  predicate By(e: Event, c: Call) {
    !e.Die? && !e.Vanish? && !e.Appear? && !e.WriteReady? && e.c == c
  }

  /** The event is an enabled step of a start. */
  predicate OfStart(s: State, e: Event) {
    StartStep(s, e).Some? || WaitStep(s, e).Some? ||
    (AbortStep(s, e).Some? && !PhaseOf(s, e.c).Stopping? && !PhaseOf(s, e.c).Killing?)
  }

  /** The start deletes the state file it may have found, completely or up to an interrupt. */
  predicate ClearsNow(s: State, e: Event, c: Call) {
    PhaseOf(s, c).Looking? && (e.ClearFiles? || e.AbortClearing?) && e.c == c && Next(s, e).Some?
  }

  /** A start takes away the record that another start wrote. */
  predicate Takes(s: State, e: Event, c: Call) {
    OfStart(s, e) && By(e, c) && s.file.Some? && s.file.value.writer != c && Do(s, e).file.None?
  }

  /**
   * The only step at which a start changes the record of another is clearing the old files
   * before it spawns, completed or interrupted, and then the process on record is gone. All
   * later steps, failures included, touch no record but its own.
   */
  lemma StartTakesOnlyDeadRecords(s: State, e: Event, c: Call)
    requires Inv(s) && OfStart(s, e) && By(e, c)
    requires s.file.Some? && s.file.value.writer != c && Do(s, e).file != s.file
    ensures ClearsNow(s, e, c) && !IsLive(s, s.file.value.record.pid) && Takes(s, e, c)
  {
    hide LockHeld, LockKnown, ChildrenStarted, HandlesMatch, LiveIsKnown, OnlyChildrenSignalled, ReadyIsOwn;
    if StartStep(s, e).Some? {
      OnlyClearingTakes(s, e, c);
    } else if AbortStep(s, e).Some? {
      AbortingTakesNoOther(s, e, c);
    } else {
      WaitingTakesNothing(s, e, c);
    }
  }

  lemma OnlyClearingTakes(s: State, e: Event, c: Call)
    requires FilesCleared(s) && StartStep(s, e).Some? && By(e, c)
    requires s.file.Some? && s.file.value.writer != c && StartStep(s, e).value.file != s.file && RecordsOwn(s)
    ensures e == ClearFiles(c) && !IsLive(s, s.file.value.record.pid) && StartStep(s, e).value.file.None?
  {
  }

  lemma AbortingTakesNoOther(s: State, e: Event, c: Call)
    requires FilesCleared(s) && RecordsOwn(s) && OfStart(s, e) && AbortStep(s, e).Some? && By(e, c)
    requires s.file.Some? && s.file.value.writer != c && AbortStep(s, e).value.file != s.file
    ensures PhaseOf(s, c).Looking? && e.AbortClearing? && !IsLive(s, s.file.value.record.pid) && AbortStep(s, e).value.file.None?
  {
    assert e.AbortClearing? && AboutToClear(s, c);
    assert IsStart(s, s.file.value.writer, s.file.value.record);
  }

  lemma WaitingTakesNothing(s: State, e: Event, c: Call)
    requires RecordsOwn(s) && WaitStep(s, e).Some? && By(e, c) && s.file.Some? && s.file.value.writer != c
    ensures WaitStep(s, e).value.file == s.file
  {
  }

  // --- over a whole start ---

  ghost predicate TakesSome(s: State, events: seq<Event>, c: Call)
    decreases |events|
  {
    events != [] && (Takes(s, events[0], c) || TakesSome(Do(s, events[0]), events[1..], c))
  }

  /** When the start got the lock there was a record. */
  ghost predicate FoundRecord(s: State, events: seq<Event>, c: Call)
    decreases |events|
  {
    events != [] &&
    ((events[0] == BeginStart(c) && StartStep(s, events[0]).Some? && s.file.Some?)
     || FoundRecord(Do(s, events[0]), events[1..], c))
  }

  /** The start gets as far as deleting the old files. */
  ghost predicate Clears(s: State, events: seq<Event>, c: Call)
    decreases |events|
  {
    events != [] && (ClearsNow(s, events[0], c) || Clears(Do(s, events[0]), events[1..], c))
  }

  ghost predicate NoStartsBy(s: State, c: Call) {
    forall x :: x in s.starts ==> x.0 != c
  }

  predicate Early(p: Phase) {
    p.Idle? || p.Looking?
  }

  lemma OthersMoveOthers(s: State, e: Event, c: Call)
    requires !By(e, c)
    ensures PhaseOf(Do(s, e), c) == PhaseOf(s, c)
    ensures NoStartsBy(s, c) ==> NoStartsBy(Do(s, e), c)
  {
    OthersStartOthers(s, e, c);
    StartsMoveThemselves(s, e, c);
    WaitsMoveThemselves(s, e, c);
    StopsMoveThemselves(s, e, c);
    hide NoStartsBy, StartStep, WaitStep, StopStep, AbortStep, OutsideStep, PhaseOf;
  }

  lemma StartsMoveThemselves(s: State, e: Event, c: Call)
    requires !By(e, c)
    ensures StartStep(s, e).Some? ==> PhaseOf(StartStep(s, e).value, c) == PhaseOf(s, c)
  {
  }

  lemma WaitsMoveThemselves(s: State, e: Event, c: Call)
    requires !By(e, c)
    ensures WaitStep(s, e).Some? ==> PhaseOf(WaitStep(s, e).value, c) == PhaseOf(s, c)
  {
  }

  lemma StopsMoveThemselves(s: State, e: Event, c: Call)
    requires !By(e, c)
    ensures StopStep(s, e).Some? ==> PhaseOf(StopStep(s, e).value, c) == PhaseOf(s, c)
    ensures AbortStep(s, e).Some? ==> PhaseOf(AbortStep(s, e).value, c) == PhaseOf(s, c)
    ensures OutsideStep(s, e).Some? ==> PhaseOf(OutsideStep(s, e).value, c) == PhaseOf(s, c)
  {
  }

  lemma OthersStartOthers(s: State, e: Event, c: Call)
    requires !By(e, c)
    ensures NoStartsBy(s, c) ==> NoStartsBy(Do(s, e), c)
  {
    assert Do(s, e).starts == s.starts || (e.Spawn? && Do(s, e).starts == s.starts + [(e.c, e.pid)]);
  }

  /** Nobody else touches the record while the start holds the lock. */
  lemma OthersKeepTheFile(s: State, e: Event, c: Call)
    requires LockHeld(s) && PhaseOf(s, c).Looking? && !By(e, c)
    ensures Do(s, e).file == s.file
  {
  }

  lemma FromIdle(s: State, e: Event, c: Call)
    requires PhaseOf(s, c).Idle? && By(e, c) && NoStartsBy(s, c)
    ensures !Takes(s, e, c) && !ClearsNow(s, e, c)
    ensures var t := Do(s, e);
      if e == BeginStart(c) && StartStep(s, e).Some? then
        PhaseOf(t, c).Looking? && t.file == s.file && NoStartsBy(t, c)
      else t == s || PhaseOf(t, c).Stopping?
  {
  }

  lemma FromLooking(s: State, e: Event, c: Call)
    requires PhaseOf(s, c).Looking? && By(e, c) && NoStartsBy(s, c) && RecordsOwn(s)
    ensures var t := Do(s, e);
      if t == s then !Takes(s, e, c) && !ClearsNow(s, e, c)
      else !Early(PhaseOf(t, c)) && (Takes(s, e, c) <==> s.file.Some? && ClearsNow(s, e, c))
  {
    assert s.file.Some? ==> s.starts[s.file.value.record.startedAt] in s.starts;
  }

  lemma FromLater(s: State, e: Event, c: Call)
    requires !Early(PhaseOf(s, c)) && By(e, c) && RecordsOwn(s)
    ensures !Takes(s, e, c) && !ClearsNow(s, e, c) && !Early(PhaseOf(Do(s, e), c))
  {
  }

  lemma {:induction false} TakesIffFound(s: State, events: seq<Event>, c: Call)
    requires LockHeld(s) && LockKnown(s) && RecordsOwn(s)
    requires Early(PhaseOf(s, c)) ==> NoStartsBy(s, c)
    ensures PhaseOf(s, c).Idle? ==> (TakesSome(s, events, c) <==> FoundRecord(s, events, c) && Clears(s, events, c))
    ensures PhaseOf(s, c).Looking? ==> (TakesSome(s, events, c) <==> s.file.Some? && Clears(s, events, c))
    ensures !PhaseOf(s, c).Idle? && !PhaseOf(s, c).Looking? ==> !TakesSome(s, events, c) && !Clears(s, events, c)
    ensures !PhaseOf(s, c).Idle? ==> !FoundRecord(s, events, c)
    decreases |events|
  {
    hide PhaseOf, Do, RecordsOwn, LockHeld, LockKnown, NoStartsBy, StartStep, Takes, ClearsNow;
    if events != [] {
      var e, t := events[0], Do(s, events[0]);
      LockKept(s, e);
      RecordsKept(s, e);
      BeginsIdle(s, c);
      if !By(e, c) {
        OthersMoveOthers(s, e, c);
        NotTheirs(s, e, c);
        if PhaseOf(s, c).Looking? { OthersKeepTheFile(s, e, c); }
      } else if PhaseOf(s, c).Idle? {
        FromIdle(s, e, c);
      } else if PhaseOf(s, c).Looking? {
        FromLooking(s, e, c);
      } else {
        FromLater(s, e, c);
      }
      TakesIffFound(t, events[1..], c);
    }
  }

  lemma BeginsIdle(s: State, c: Call)
    ensures StartStep(s, BeginStart(c)).Some? ==> PhaseOf(s, c).Idle?
  {
  }

  lemma NotTheirs(s: State, e: Event, c: Call)
    requires !By(e, c)
    ensures !Takes(s, e, c) && !ClearsNow(s, e, c)
  {
  }

  /**
   * However a start ends, it has taken away another start's record if and only if there was
   * one when it got the lock and it came to delete the old files: nobody else touches the
   * record in between, and no later step takes any.
   */
  lemma StartTakesWhatItFound(s: State, events: seq<Event>, c: Call)
    requires Initial(s)
    ensures TakesSome(s, events, c) <==> FoundRecord(s, events, c) && Clears(s, events, c)
  {
    TakesIffFound(s, events, c);
  }

  // --- runs ---

  function Empty(): State {
    State(None, None, None, map[], map[], [], [])
  }

  lemma RunAppend(s: State, a: seq<Event>, b: seq<Event>)
    ensures Run(s, a + b) == Run(Run(s, a), b)
    decreases |a|
  {
    hide Do;
    if a == [] {
      assert a + b == b;
    } else {
      assert (a + b)[1..] == a[1..] + b;
      RunAppend(Do(s, a[0]), a[1..], b);
    }
  }

  lemma RunFour(s: State, a: Event, b: Event, c: Event, d: Event)
    ensures Run(s, [a, b, c, d]) == Do(Do(Do(Do(s, a), b), c), d)
  {
    hide Do;
    RunOne(s, a, [b, c, d]);
    RunOne(Do(s, a), b, [c, d]);
    RunOne(Do(Do(s, a), b), c, [d]);
    RunOne(Do(Do(Do(s, a), b), c), d, []);
    assert [a] + [b, c, d] == [a, b, c, d] && [b] + [c, d] == [b, c, d] && [c] + [d] == [c, d] && [d] + [] == [d];
  }

  /** The first start spawns process 7 and records it. */
  const RECORDED := [BeginStart(0), ClearFiles(0), Spawn(0, 7), Save(0)]

  /** The process dies, and a second start fails before it has spawned anything. */
  const FAILING := [Die(7), BeginStart(1), ClearFiles(1), Abort(1)]

  lemma FirstIsRecorded() returns (s: State)
    ensures s == Run(Empty(), RECORDED) && s.lock.None? && s.file == Some(StateFile(Record(7, 0), 0))
    ensures s.processes == map[7 := Child(0, 0, true)] && s.phases == map[0 := Waiting(Record(7, 0))]
    ensures s.starts == [(0, 7)] && s.ready.None?
  {
    RunFour(Empty(), BeginStart(0), ClearFiles(0), Spawn(0, 7), Save(0));
    var a := Do(Empty(), BeginStart(0));
    assert a == Empty().(lock := Some(0), phases := map[0 := Looking]);
    var b := Do(a, ClearFiles(0));
    assert b == a.(phases := map[0 := Cleared]);
    var c := Do(b, Spawn(0, 7));
    assert c == b.(phases := map[0 := Spawned(Record(7, 0))], processes := map[7 := Child(0, 0, true)], starts := [(0, 7)]);
    s := Do(c, Save(0));
  }

  /** What RECORDED leaves, as far as the next start is concerned. */
  ghost predicate OneRecorded(s: State) {
    && s.lock.None? && s.file == Some(StateFile(Record(7, 0), 0)) && PhaseOf(s, 1).Idle?
    && s.processes == map[7 := Child(0, 0, true)]
  }

  lemma FailingEnds(s: State)
    requires OneRecorded(s)
    ensures var a := Do(s, Die(7));
      var b := Do(a, BeginStart(1));
      var c := Do(b, ClearFiles(1));
      var t := Do(c, Abort(1));
      && StartStep(a, BeginStart(1)).Some? && a.file.Some? && ClearsNow(b, ClearFiles(1), 1)
      && PhaseOf(t, 1) == Finished(Raised) && t.file.None?
  {
    var a := Do(s, Die(7));
    assert a == s.(processes := map[7 := Child(0, 0, false)]);
    var b := Do(a, BeginStart(1));
    assert b.file == s.file && PhaseOf(b, 1).Looking? && !Running(b);
    var c := Do(b, ClearFiles(1));
    assert PhaseOf(c, 1).Cleared? && c.file.None?;
  }

  lemma FailingTakes(s: State)
    requires OneRecorded(s)
    ensures FoundRecord(s, FAILING, 1) && Clears(s, FAILING, 1)
  {
    FailingEnds(s);
    hide Do, Takes, ClearsNow, StartStep, PhaseOf, OneRecorded;
    var a := Do(s, Die(7));
    var b := Do(a, BeginStart(1));
    assert FAILING[1..] == [BeginStart(1), ClearFiles(1), Abort(1)] && FAILING[1..][1..] == [ClearFiles(1), Abort(1)];
    assert FoundRecord(a, FAILING[1..], 1) && Clears(b, FAILING[1..][1..], 1);
    assert Clears(a, FAILING[1..], 1);
  }

  /** A start that fails can take away another start's record: there is such a run. */
  lemma FailedStartCanTakeARecord()
    ensures var s := Run(Empty(), RECORDED + FAILING);
      && PhaseOf(s, 1) == Finished(Raised) && s.file.None?
      && Run(Empty(), RECORDED).file == Some(StateFile(Record(7, 0), 0))
      && TakesSome(Empty(), RECORDED + FAILING, 1)
  {
    var s := FirstIsRecorded();
    FailingEnds(s);
    FailingTakes(s);
    hide Do, Takes, ClearsNow, StartStep, Run, FoundRecord, Clears, TakesSome, PhaseOf;
    RunAppend(Empty(), RECORDED, FAILING);
    RunFour(s, Die(7), BeginStart(1), ClearFiles(1), Abort(1));
    OnlyLater(Empty(), RECORDED, FAILING, 1);
    StartTakesWhatItFound(Empty(), RECORDED + FAILING, 1);
  }

  lemma InterruptedEnds(s: State)
    requires OneRecorded(s)
    ensures var a := Do(s, BeginStart(1));
      var t := Do(a, Abort(1));
      && StartStep(s, BeginStart(1)).Some? && !ClearsNow(s, BeginStart(1), 1) && !ClearsNow(a, Abort(1), 1)
      && PhaseOf(t, 1) == Finished(Raised) && t.file == s.file && t.lock.None?
  {
    var a := Do(s, BeginStart(1));
    assert PhaseOf(a, 1).Looking? && a.file == s.file;
  }

  /** And it can fail without that: a second start is interrupted while it reads the status. */
  lemma FailedStartCanLeaveTheRecord()
    ensures var events := RECORDED + [BeginStart(1), Abort(1)];
      var s := Run(Empty(), events);
      && PhaseOf(s, 1) == Finished(Raised) && s.file == Some(StateFile(Record(7, 0), 0)) && s.lock.None?
      && FoundRecord(Empty(), events, 1) && !TakesSome(Empty(), events, 1)
  {
    var s := FirstIsRecorded();
    InterruptedEnds(s);
    hide Do, Takes, ClearsNow, StartStep;
    var last := [BeginStart(1), Abort(1)];
    RunAppend(Empty(), RECORDED, last);
    RunOne(s, BeginStart(1), [Abort(1)]);
    RunOne(Do(s, BeginStart(1)), Abort(1), []);
    assert [BeginStart(1)] + [Abort(1)] == last && [Abort(1)] + [] == [Abort(1)] && last[1..] == [Abort(1)];
    assert FoundRecord(s, last, 1);
    assert !Clears(Do(s, BeginStart(1)), [Abort(1)], 1) && !Clears(s, last, 1);
    OnlyLater(Empty(), RECORDED, last, 1);
    StartTakesWhatItFound(Empty(), RECORDED + last, 1);
  }

  /** Steps of other calls before the start do not matter. */
  lemma {:induction false} OnlyLater(s: State, a: seq<Event>, b: seq<Event>, c: Call)
    requires forall e | e in a :: !By(e, c)
    ensures FoundRecord(s, a + b, c) <==> FoundRecord(Run(s, a), b, c)
    ensures Clears(s, a + b, c) <==> Clears(Run(s, a), b, c)
    ensures TakesSome(s, a + b, c) <==> TakesSome(Run(s, a), b, c)
    decreases |a|
  {
    hide Do, StartStep, Takes, ClearsNow;
    if a == [] {
      assert a + b == b;
    } else {
      assert (a + b)[1..] == a[1..] + b && a[0] in a;
      NotTheirs(s, a[0], c);
      OnlyLater(Do(s, a[0]), a[1..], b, c);
    }
  }

  /** The record cannot be saved. */
  const UNSAVED := [BeginStart(0), ClearFiles(0), Spawn(0, 7), SaveFails(0, false)]

  lemma SecondIsUnsaved() returns (s: State)
    ensures s == Run(Empty(), UNSAVED) && s.lock == Some(0) && s.file.None?
    ensures s.processes == map[7 := Child(0, 0, true)] && s.phases == map[0 := Unsaved(Record(7, 0), false)]
  {
    RunFour(Empty(), BeginStart(0), ClearFiles(0), Spawn(0, 7), SaveFails(0, false));
    var a := Do(Empty(), BeginStart(0));
    assert a == Empty().(lock := Some(0), phases := map[0 := Looking]);
    var b := Do(a, ClearFiles(0));
    assert b == a.(phases := map[0 := Cleared]);
    var c := Do(b, Spawn(0, 7));
    assert c == b.(phases := map[0 := Spawned(Record(7, 0))], processes := map[7 := Child(0, 0, true)], starts := [(0, 7)]);
    s := Do(c, SaveFails(0, false));
  }

  /** A start that is killed right after it has spawned its child leaves it with no record. */
  lemma KilledStartStrays()
    ensures LeavesStray(Run(Empty(), [BeginStart(0)] + ([ClearFiles(0)] + ([Spawn(0, 7)] + []))), Abort(0))
  {
    var a := Do(Empty(), BeginStart(0));
    assert a == Empty().(lock := Some(0), phases := map[0 := Looking]);
    var b := Do(a, ClearFiles(0));
    assert b == a.(phases := map[0 := Cleared]);
    var c := Do(b, Spawn(0, 7));
    assert c == b.(phases := map[0 := Spawned(Record(7, 0))], processes := map[7 := Child(0, 0, true)], starts := [(0, 7)]);
    assert LeavesStray(c, Abort(0));
    hide Do, LeavesStray;
    RunOne(Empty(), BeginStart(0), [ClearFiles(0)] + ([Spawn(0, 7)] + []));
    RunOne(a, ClearFiles(0), [Spawn(0, 7)] + []);
    RunOne(b, Spawn(0, 7), []);
  }

  lemma UnsavedKeepsInvariant()
    ensures Initial(Empty()) && Inv(Run(Empty(), UNSAVED))
  {
    InitialIsFine(Empty());
    hide Inv, Do, StartStep;
    var a := Do(Empty(), BeginStart(0));
    var b := Do(a, ClearFiles(0));
    var c := Do(b, Spawn(0, 7));
    StepKeeps(Empty(), BeginStart(0));
    StepKeeps(a, ClearFiles(0));
    StepKeeps(b, Spawn(0, 7));
    StepKeeps(c, SaveFails(0, false));
    RunFour(Empty(), BeginStart(0), ClearFiles(0), Spawn(0, 7), SaveFails(0, false));
  }

  /** A start can stray: from nothing at all, four steps lead there, and five more to two live processes. */
  lemma StartsCanStray()
    ensures Initial(Empty()) && LeavesStray(Run(Empty(), UNSAVED), Abort(0))
    ensures exists events, p, q :: p != q && IsLive(Run(Empty(), events), p) && IsLive(Run(Empty(), events), q)
  {
    var s := SecondIsUnsaved();
    UnsavedKeepsInvariant();
    assert LeavesStray(s, Abort(0));
    assert PhaseOf(s, 1).Idle? && 8 !in s.processes;
    TwoFollow(UNSAVED);
  }

  lemma TwoFollow(before: seq<Event>)
    requires var s := Run(Empty(), before);
      && Inv(s) && LeavesStray(s, Abort(0)) && PhaseOf(s, 1).Idle? && 8 !in s.processes
    ensures exists events, p, q :: p != q && IsLive(Run(Empty(), events), p) && IsLive(Run(Empty(), events), q)
  {
    hide Inv, LeavesStray, PhaseOf, Run;
    var more := [Abort(0)] + ([BeginStart(1)] + ([ClearFiles(1)] + ([Spawn(1, 8)] + ([Save(1)] + []))));
    StrayMeansTwo(Run(Empty(), before), 0, 1, 8);
    RunAppend(Empty(), before, more);
    var t := Run(Empty(), before + more);
    var p :| p != 8 && IsLive(t, p) && IsLive(t, 8);
  }
}
