/**
 * How chat requests end: left to themselves the tasks stop after finitely many steps, without
 * a deadlock, and which places are then still counted.
 */
module ResponseEnds {
  import opened Wrappers
  import opened ResponseTasks
  import Q = QueueProtocol
  import Sums
  import Queues = RequestQueue

  // --- the way to the end ---

  function ResponseRank(r: Response): nat {
    match r
    case Waiting => 2
    case Gathering => 1
    case Doomed => 1
    case _ => 0
  }

  function AnswerRank(a: Answer): nat {
    match a
    case Created => 5
    case Opening => 4
    case Sending => 4
    case Getting => 3
    case Collecting(_) => 3
    case Closing(_) => 2
    case LastSend => 1
    case Answered => 0
  }

  function ProducerRank(p: Producer, chunks: nat): nat {
    match p
    case Absent => 6 + 4 * chunks
    case New => 5 + 4 * chunks
    case InLock => 4 + 4 * chunks
    case Reading => 3 + 4 * chunks
    case Putting => 6 + 4 * chunks
    case Leaving(_) => 2
    case PuttingEnd => 1
    case Stopped => 0
  }

  /** How many steps the tasks of one request have left at most. */
  function Rank(t: Tasks): nat {
    ResponseRank(t.response) + AnswerRank(t.answer) + (if t.answerCancelled then 1 else 0)
      + ProducerRank(t.producer, t.chunks) + 2 * t.buffer
  }

  function Ranks(w: World): map<Id, nat> {
    map id | id in w.tasks :: Rank(w.tasks[id])
  }

  ghost function Left(w: World): nat {
    Sums.Total(Ranks(w), w.tasks.Keys)
  }

  lemma MoveUsesUp(w: World, id: Id, t: Tasks, s: Q.System)
    requires id in w.tasks && Rank(t) < Rank(w.tasks[id])
    ensures Left(World(s, w.tasks[id := t])) < Left(w)
  {
    hide Rank;
    var after := World(s, w.tasks[id := t]);
    assert Ranks(w).Keys == w.tasks.Keys && after.tasks.Keys == w.tasks.Keys && Ranks(after).Keys == w.tasks.Keys;
    assert Ranks(after)[id] < Ranks(w)[id];
    Sums.TotalFalls(Ranks(w), Ranks(after), id);
  }

  lemma AnswerUsesUp(t: Tasks, ok: bool)
    requires TasksFit(t) && AnswerNext(t, ok).Some?
    ensures Rank(AnswerNext(t, ok).value) < Rank(t)
  {
  }

  lemma ProducerUsesUp(t: Tasks, more: bool, running: bool)
    requires TasksFit(t) && ProducerNext(t, more, running).Some?
    ensures Rank(ProducerNext(t, more, running).value) < Rank(t)
  {
  }

  /** Every own step of a task brings the end closer. */
  lemma StepsUseUp(w: World, e: Event)
    requires Inv(w) && Own(e) && Next(w, e).Some?
    ensures Left(Do(w, e)) < Left(w)
  {
    hide TasksFit, Rank, ResponseNext, AnswerNext, ProducerNext, Q.Inv, FlagsAgree;
    match e
    case ResponseStep(id) =>
      assert Rank(ResponseNext(w.tasks[id]).value) < Rank(w.tasks[id]) by { ResponseUsesUp(w.tasks[id]); }
      MoveUsesUp(w, id, ResponseNext(w.tasks[id]).value, Do(w, e).system);
    case AnswerStep(id, ok) =>
      AnswerUsesUp(w.tasks[id], ok);
      MoveUsesUp(w, id, AnswerNext(w.tasks[id], ok).value, Do(w, e).system);
    case ProducerStep(id, more) =>
      var running := !w.system.queue.locked && w.system.queue.waiters == [];
      ProducerUsesUp(w.tasks[id], more, running);
      MoveUsesUp(w, id, ProducerNext(w.tasks[id], more, running).value, Do(w, e).system);
    case TakeLock =>
      var id := w.system.queue.waiters[0];
      FirstIsInLock(w);
      assert Rank(w.tasks[id].(producer := Reading)) < Rank(w.tasks[id]) by { TakingUsesUp(w.tasks[id]); }
      MoveUsesUp(w, id, w.tasks[id].(producer := Reading), Do(w, e).system);
    case _ =>
  }

  lemma ResponseUsesUp(t: Tasks)
    requires ResponseNext(t).Some?
    ensures Rank(ResponseNext(t).value) < Rank(t)
  {
  }

  lemma TakingUsesUp(t: Tasks)
    requires t.producer.InLock?
    ensures Rank(t.(producer := Reading)) < Rank(t)
  {
  }

  lemma FirstIsInLock(w: World)
    requires Inv(w) && w.system.queue.waiters != []
    ensures var id := w.system.queue.waiters[0]; id in w.tasks && w.tasks[id].producer.InLock?
  {
    var id := w.system.queue.waiters[0];
    assert Q.In(w.system, id, Q.Queued);
  }

  predicate Over(t: Tasks) {
    t.response.Finished? || t.response.Abandoned?
  }

  /** A request whose producer does not wait for the lock always has a step of its own. */
  lemma TasksGoOn(w: World, id: Id)
    requires Linked(w) && id in w.tasks && !Over(w.tasks[id]) && (w.tasks[id].producer.InLock? ==> w.tasks[id].producerCancelled)
    ensures exists e :: Own(e) && Next(w, e).Some?
  {
    var t := w.tasks[id];
    var running := !w.system.queue.locked && w.system.queue.waiters == [];
    OneGoesOn(t, running);
    hide TasksFit, ResponseNext, AnswerNext, ProducerNext;
    if ResponseNext(t).Some? {
      assert Next(w, ResponseStep(id)).Some?;
    } else if AnswerNext(t, true).Some? {
      assert Next(w, AnswerStep(id, true)).Some?;
    } else {
      assert Next(w, ProducerStep(id, true)).Some?;
    }
  }

  lemma OneGoesOn(t: Tasks, running: bool)
    requires TasksFit(t) && !Over(t) && (t.producer.InLock? ==> t.producerCancelled)
    ensures ResponseNext(t).Some? || AnswerNext(t, true).Some? || ProducerNext(t, true, running).Some?
  {
  }

  /** Until all requests are over, some task can go on by itself: there is no deadlock. */
  lemma SomeTaskGoesOn(w: World, id: Id)
    requires Inv(w) && id in w.tasks && !Over(w.tasks[id])
    ensures exists e :: Own(e) && Next(w, e).Some?
  {
    var t := w.tasks[id];
    if !t.producer.InLock? || t.producerCancelled {
      TasksGoOn(w, id);
    } else if w.system.queue.locked {
      var other :| Q.In(w.system, other, Q.Running);
      RunnerIsNotOver(w, other);
      TasksGoOn(w, other);
    } else {
      assert Q.In(w.system, id, Q.Queued);
      FirstIsInLock(w);
      var first := w.system.queue.waiters[0];
      if w.tasks[first].producerCancelled {
        assert !Over(w.tasks[first]);
        TasksGoOn(w, first);
      } else {
        assert Next(w, TakeLock).Some?;
      }
    }
  }

  lemma RunnerIsNotOver(w: World, id: Id)
    requires Linked(w) && Q.In(w.system, id, Q.Running)
    ensures id in w.tasks && !Over(w.tasks[id]) && !w.tasks[id].producer.InLock?
  {
  }

  ghost predicate AllOwn(w: World, events: seq<Event>)
    decreases |events|
  {
    events != [] ==> Own(events[0]) && Next(w, events[0]).Some? && AllOwn(Do(w, events[0]), events[1..])
  }

  lemma {:induction false} OwnRunsAreBounded(w: World, events: seq<Event>)
    requires Inv(w) && AllOwn(w, events)
    ensures Inv(Run(w, events)) && |events| + Left(Run(w, events)) <= Left(w)
    decreases |events|
  {
    hide Inv, Next, Left;
    if events != [] {
      StepsUseUp(w, events[0]);
      StepKeeps(w, events[0]);
      OwnRunsAreBounded(Do(w, events[0]), events[1..]);
    }
  }

  /** Requests whose response was cancelled again while it gathered, before they reached the slot. */
  ghost predicate Stranded(w: World, id: Id) {
    id in w.tasks && w.tasks[id].response.Abandoned? && id !in w.system.joined
  }

  predicate IsCut(w: World, id: Id) {
    id in w.tasks && (w.tasks[id].response.Doomed? || w.tasks[id].response.Abandoned?)
  }

  /** This response is cancelled while it gathers. */
  predicate CutsNow(w: World, e: Event, id: Id) {
    e == Cancel(id) && id in w.tasks && w.tasks[id].response.Gathering?
  }

  ghost predicate Cut(w: World, events: seq<Event>, id: Id)
    decreases |events|
  {
    events != [] && (CutsNow(w, events[0], id) || Cut(Do(w, events[0]), events[1..], id))
  }

  lemma TaskIsCut(w: World, e: Event, id: Id)
    requires Inv(w)
    ensures IsCut(Do(w, e), id) <==> IsCut(w, id) || CutsNow(w, e, id)
  {
    if Own(e) {
      OwnStepsCutNothing(w, e, id);
    } else {
      OutsideCuts(w, e, id);
    }
  }

  lemma OutsideCuts(w: World, e: Event, id: Id)
    requires Linked(w) && !Own(e)
    ensures IsCut(Do(w, e), id) <==> IsCut(w, id) || CutsNow(w, e, id)
  {
    if e.Arrive? && id in w.tasks { assert Q.In(w.system, id, PhaseOf(w.tasks[id])); }
    hide TasksFit, PhaseOf, Q.Do;
  }

  lemma OwnStepsCutNothing(w: World, e: Event, id: Id)
    requires Own(e)
    ensures IsCut(Do(w, e), id) <==> IsCut(w, id)
  {
    hide Q.Do, AnswerNext, ProducerNext, WithAnswer, WithProducer, WithResponse, Q.Next;
    if e.AnswerStep? && e.id in w.tasks { AnswersKeepResponses(w.tasks[e.id], e.ok); }
    if e.ProducerStep? && e.id in w.tasks {
      ProducersKeepResponses(w.tasks[e.id], e.more, !w.system.queue.locked && w.system.queue.waiters == []);
    }
  }

  lemma AnswersKeepResponses(t: Tasks, ok: bool)
    ensures AnswerNext(t, ok).Some? ==> AnswerNext(t, ok).value.response == t.response
  {
  }

  lemma ProducersKeepResponses(t: Tasks, more: bool, running: bool)
    ensures ProducerNext(t, more, running).Some? ==> ProducerNext(t, more, running).value.response == t.response
  {
  }

  /** A response is lost exactly if it was cancelled while it gathered. */
  lemma {:induction false} CutResponses(w: World, events: seq<Event>, id: Id)
    requires Inv(w)
    ensures IsCut(Run(w, events), id) <==> IsCut(w, id) || Cut(w, events, id)
    decreases |events|
  {
    hide Inv, Do, IsCut, CutsNow;
    if events != [] {
      TaskIsCut(w, events[0], id);
      StepKeeps(w, events[0]);
      CutResponses(Do(w, events[0]), events[1..], id);
    }
  }

  /**
   * Whatever comes, leaves or is cancelled before: left to themselves the tasks stop after
   * finitely many steps, and then every response is over and nobody holds or awaits the lock.
   * The places that are still counted are exactly those of the stranded requests.
   */
  lemma EveryRequestEnds(size: nat, before: seq<Event>, after: seq<Event>)
    requires AllOwn(Run(Start(size), before), after)
    ensures var w := Run(Start(size), before);
      var v := Run(w, after);
      && |after| <= Left(w)
      && ((forall e :: Own(e) ==> Next(v, e).None?) ==>
            && (forall id :: id in v.tasks ==> Over(v.tasks[id]))
            && !v.system.queue.locked && v.system.queue.waiters == [] && v.system.queue.active == 0
            && (forall id :: id in v.system.queue.flagged <==> Stranded(v, id))
            && (v.system.queue.waiting == 0 <==> forall id :: !Stranded(v, id)))
  {
    hide Inv, Next, Left, Stranded, AllOwn;
    StartIsFine(size);
    var w := Run(Start(size), before);
    var steps := RunsAreQueueRuns(Start(size), before);
    OwnRunsAreBounded(w, after);
    var v := Run(w, after);
    if forall e :: Own(e) ==> Next(v, e).None? {
      forall id | id in v.tasks ensures Over(v.tasks[id]) {
        if !Over(v.tasks[id]) { SomeTaskGoesOn(v, id); }
      }
      OnlyTheStrandedStay(v);
    }
  }

  lemma FirstIsIn(ids: seq<Id>)
    ensures ids != [] ==> exists id :: id in ids
  {
    if ids != [] { assert ids[0] in ids; }
  }

  lemma OnlyTheStrandedStay(w: World)
    requires Inv(w) && forall id :: id in w.tasks ==> Over(w.tasks[id])
    ensures !w.system.queue.locked && w.system.queue.waiters == [] && w.system.queue.active == 0
    ensures forall id :: id in w.system.queue.flagged <==> Stranded(w, id)
    ensures w.system.queue.waiting == 0 <==> forall id :: !Stranded(w, id)
  {
    var s := w.system;
    hide Q.InOrder, Queues.NoRepeats;
    forall id ensures !Q.In(s, id, Q.Running) && !Q.In(s, id, Q.Queued) && !Q.In(s, id, Q.Preparing) {
      if id in w.tasks { assert PhaseOf(w.tasks[id]) in {Q.Answered, Q.Closed}; }
    }
    assert forall id :: id !in s.queue.waiters;
    FirstIsIn(s.queue.waiters);
    forall id ensures id in s.queue.flagged <==> Stranded(w, id) {
      if id in s.queue.flagged { assert Q.In(s, id, Q.Answered); }
      if Stranded(w, id) { assert Q.In(s, id, Q.Answered); }
    }
    assert s.queue.waiting == |s.queue.flagged|;
    if s.queue.waiting == 0 { assert s.queue.flagged == {}; }
    if s.queue.flagged != {} { var id :| id in s.queue.flagged; }
  }

  /** With an empty queue at the end if no response was ever cancelled while it gathered. */
  lemma UncutRequestsLeaveNothing(size: nat, before: seq<Event>, after: seq<Event>)
    requires AllOwn(Run(Start(size), before), after)
    requires forall id :: !Cut(Start(size), before + after, id)
    requires forall e :: Own(e) ==> Next(Run(Run(Start(size), before), after), e).None?
    ensures var v := Run(Run(Start(size), before), after);
      && v.system.queue.active == 0 && v.system.queue.waiting == 0
      && forall id :: id in v.tasks ==> v.tasks[id].response.Finished? && Q.In(v.system, id, Q.Closed)
  {
    hide Inv, Next, Left, AllOwn, Cut, Run, TasksFit;
    EveryRequestEnds(size, before, after);
    StartIsFine(size);
    RunAppend(Start(size), before, after);
    var v := Run(Run(Start(size), before), after);
    var steps := RunsAreQueueRuns(Start(size), before + after);
    assert Linked(v) by { InvIsLinked(v); }
    forall id | id in v.tasks ensures v.tasks[id].response.Finished? {
      assert !Cut(Start(size), before + after, id);
      CutResponses(Start(size), before + after, id);
    }
    forall id ensures !Stranded(v, id) {
    }
    forall id | id in v.tasks ensures Q.In(v.system, id, Q.Closed) {
      FinishedIsClosed(v.tasks[id]);
    }
  }

  lemma FinishedIsClosed(t: Tasks)
    requires TasksFit(t) && t.response.Finished?
    ensures PhaseOf(t) == Q.Closed
  {
  }

  lemma InvIsLinked(w: World)
    requires Inv(w)
    ensures Linked(w)
  {
  }

  lemma RunAppend(w: World, a: seq<Event>, b: seq<Event>)
    ensures Run(w, a + b) == Run(Run(w, a), b)
    decreases |a|
  {
    hide Do;
    if a == [] {
      assert a + b == b;
    } else {
      assert (a + b)[1..] == a[1..] + b;
      RunAppend(Do(w, a[0]), a[1..], b);
    }
  }

  /** The client leaves before the answer has begun, and the server cancels the response as well. */
  const STRANDING := [Arrive(0, true, 0), ClientLeaves(0), Cancel(0)]
  const STRANDED := [AnswerStep(0, true), ResponseStep(0)]

  function StrandedTasks(response: Response, cancelled: bool): Tasks {
    NewTasks(true, 0).(response := response, answerCancelled := cancelled)
  }

  lemma FirstArrives() returns (w: World)
    ensures w == Do(Start(0), STRANDING[0]) && w.tasks == map[0 := NewTasks(true, 0)]
    ensures w.system.queue.waiting == 1 && w.system.queue.waiters == [] && w.system.joined == []
  {
    w := Do(Start(0), Arrive(0, true, 0));
  }

  lemma ThenIsCancelledTwice(w: World)
    requires w.tasks == map[0 := NewTasks(true, 0)]
    ensures Do(Do(w, STRANDING[1]), STRANDING[2]) == w.(tasks := map[0 := StrandedTasks(Doomed, true)])
  {
    assert Do(w, ClientLeaves(0)) == w.(tasks := map[0 := StrandedTasks(Gathering, true)]);
  }

  lemma ThenEnds(w: World)
    requires w.tasks == map[0 := StrandedTasks(Doomed, true)]
    ensures var v := Do(Do(w, STRANDED[0]), STRANDED[1]);
      && v.tasks == map[0 := EndEarly(StrandedTasks(Abandoned, false))]
      && v.system.queue == w.system.queue && v.system.joined == w.system.joined
  {
    var next := Do(w, AnswerStep(0, true));
    assert next.tasks == map[0 := EndEarly(StrandedTasks(Doomed, true))];
    assert next.system.queue == w.system.queue && next.system.joined == w.system.joined;
    hide Q.Do, AnswerNext;
  }

  lemma RunTwo(w: World, events: seq<Event>)
    requires |events| == 2
    ensures Run(w, events) == Do(Do(w, events[0]), events[1])
  {
    hide Do;
    var rest, next := events[1..], Do(w, events[0]);
    assert rest[0] == events[1] && rest[1..] == [];
    assert Run(next, rest) == Run(Do(next, events[1]), []);
  }

  lemma RunThree(w: World, events: seq<Event>)
    requires |events| == 3
    ensures Run(w, events) == Do(Do(Do(w, events[0]), events[1]), events[2])
  {
    hide Do;
    RunTwo(Do(w, events[0]), events[1..]);
    assert events[1..][0] == events[1] && events[1..][1] == events[2];
  }

  /** It happens: the request is over, and its place is still counted. */
  lemma RequestsCanStrand()
    ensures var v := Run(Run(Start(0), STRANDING), STRANDED);
      && Stranded(v, 0) && v.tasks.Keys == {0} && v.system.queue.waiting == 1
      && (forall e :: Own(e) ==> Next(v, e).None?)
  {
    var w := FirstArrives();
    ThenIsCancelledTwice(w);
    ThenEnds(Do(Do(w, STRANDING[1]), STRANDING[2]));
    hide Do;
    RunThree(Start(0), STRANDING);
    var v := Run(Run(Start(0), STRANDING), STRANDED);
    RunTwo(Run(Start(0), STRANDING), STRANDED);
    OverIsOver(v);
  }

  lemma OverIsOver(v: World)
    requires v.tasks == map[0 := EndEarly(StrandedTasks(Abandoned, false))] && v.system.queue.waiters == []
    ensures forall e :: Own(e) ==> Next(v, e).None?
  {
  }

  // --- an undisturbed request ---

  /** Nothing is cancelled, and the answer waits for what the producer reads. */
  predicate Flowing(t: Tasks) {
    && t.stream && t.response.Waiting? && t.answer.Getting? && !t.answerCancelled
    && t.producer.Reading? && !t.producerCancelled && t.buffer == 0 && !t.ended
  }

  function Produced(t: Tasks, more: bool): Tasks {
    var next := ProducerNext(t, more, true);
    if next.Some? then next.value else t
  }

  function Answering(t: Tasks): Tasks {
    var next := AnswerNext(t, true);
    if next.Some? then next.value else t
  }

  function Responding(t: Tasks): Tasks {
    var next := ResponseNext(t);
    if next.Some? then next.value else t
  }

  /** A request to stream begins by itself, and reads as soon as the slot is free. */
  lemma StreamsBegin(chunks: nat)
    ensures var t := Produced(Answering(Answering(NewTasks(true, chunks))), true);
      Flowing(t) && t.chunks == chunks
  {
  }

  /** A chunk is read, put, taken and sent; then everything is as before, with one chunk less to come. */
  lemma ChunksPass(t: Tasks)
    requires Flowing(t) && t.chunks > 0
    ensures var put := Produced(Produced(t, true), true);
      && put.buffer == 1 && Answering(put).answer.Sending?
      && Answering(Answering(put)) == t.(chunks := t.chunks - 1)
  {
    var read := Produced(t, true);
    assert read == t.(chunks := t.chunks - 1, producer := Putting);
    assert Produced(read, true) == t.(chunks := t.chunks - 1, buffer := 1);
  }

  /** The end comes through as well: the slot is left, the end sent, and the place given up. */
  lemma EndsPass(t: Tasks)
    requires Flowing(t)
    ensures var left := Produced(Produced(Produced(t, false), true), true);
      && left.producer.Stopped? && left.ended
      && var sent := Answering(Answering(Answering(left)));
        sent.answer.Answered? && Responding(Responding(sent)).response.Finished?
  {
    var a := Produced(t, false);
    assert a == t.(producer := Leaving(true));
    var b := Produced(a, true);
    assert b == t.(producer := PuttingEnd);
    var left := Produced(b, true);
    assert left == t.(producer := Stopped, ended := true);
    var closing := Answering(left);
    assert closing == left.(answer := Closing(true));
  }

  /** A request that is not streamed collects all chunks and then sends its answer. */
  lemma CollectingEnds(chunks: nat)
    ensures var t := Produced(Answering(NewTasks(false, chunks)), true);
      && t == NewTasks(false, chunks).(answer := Collecting(true), producer := Reading)
      && (chunks > 0 ==> Produced(t, true) == t.(chunks := chunks - 1))
      && var done := Produced(Produced(t, false), true);
        && done.producer.Stopped? && Answering(done).answer.LastSend?
        && Responding(Responding(Answering(Answering(done)))).response.Finished?
  {
    var t := Produced(Answering(NewTasks(false, chunks)), true);
    var done := Produced(Produced(t, false), true);
    assert done == t.(producer := Stopped);
    assert Answering(done) == done.(answer := LastSend);
    assert Answering(Answering(done)) == done.(answer := Answered);
  }
}
