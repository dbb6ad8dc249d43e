/**
 * The tasks behind one chat request, and how they end: the response that watches for the
 * client to leave, the answer, and the producer that holds the slot and hands chunks over in a
 * buffer.  A cancellation reaches a task at the await where it stands.  The steps of
 * `QueueProtocol` that free the slot and give up the place are derived here.
 */
module ResponseTasks {
  import opened Wrappers
  import Q = QueueProtocol
  import Queues = RequestQueue
  import Heartbeats

  type Id = Q.Id

  /**
   * `ChatResponse.__call__`.  `Doomed`: cancelled again while it gathers, so that it will not
   * come to giving up its place; `Abandoned`: it has ended that way.
   */
  datatype Response = Waiting | Gathering | Doomed | Finished | Abandoned

  /**
   * `_stream` or `_complete`.  `Collecting`: drives the chunks itself, without a producer task;
   * `Closing`: has cancelled the producer and waits for it.  `ok`: it goes on to a last send.
   */
  datatype Answer =
    Created | Opening | Getting | Sending | Collecting(ok: bool) | Closing(ok: bool) | LastSend | Answered

  /** `backend_chunks` and whoever drives it.  `Leaving`: closes the connection, then the slot. */
  datatype Producer = Absent | New | InLock | Reading | Putting | Leaving(ok: bool) | PuttingEnd | Stopped

  /** `chunks`: how many the backend will still send at most; `ended`: the end is in the buffer. */
  datatype Tasks = Tasks(
    stream: bool,
    chunks: nat,
    response: Response,
    answer: Answer,
    answerCancelled: bool,
    producer: Producer,
    producerCancelled: bool,
    buffer: nat,
    ended: bool)

  datatype World = World(system: Q.System, tasks: map<Id, Tasks>)

  /** `ok`, `more`: whether a send succeeds, a chunk is shown, the backend sends another chunk. */
  datatype Event =
    | Arrive(id: Id, stream: bool, chunks: nat)
    | ClientLeaves(id: Id)
    | Cancel(id: Id)
    | Beat(id: Id)
    | ResponseStep(id: Id)
    | AnswerStep(id: Id, ok: bool)
    | ProducerStep(id: Id, more: bool)
    | TakeLock

  /** The tasks' own steps, which nothing from outside has to bring about. */
  predicate Own(e: Event) {
    e.ResponseStep? || e.AnswerStep? || e.ProducerStep? || e.TakeLock?
  }

  // --- one task at a time ---

  function CancelAnswer(t: Tasks): Tasks {
    t.(answerCancelled := !t.answer.Answered?)
  }

  function CancelProducer(t: Tasks): Tasks {
    t.(producerCancelled := !t.producer.Stopped?)
  }

  function ResponseNext(t: Tasks): Option<Tasks> {
    if !t.answer.Answered? then None else
    match t.response
    case Waiting => Some(t.(response := Gathering))
    case Gathering => Some(t.(response := Finished))
    case Doomed => Some(t.(response := Abandoned))
    case _ => None
  }

  /** The answer ends before there is a producer. */
  function EndEarly(t: Tasks): Tasks {
    t.(answer := Answered, answerCancelled := false, producer := Stopped)
  }

  function Close(t: Tasks, ok: bool): Tasks {
    CancelProducer(t).(answer := Closing(ok), answerCancelled := false)
  }

  function AnswerCancelledNext(t: Tasks): Option<Tasks> {
    match t.answer
    case Created => Some(EndEarly(t))
    case Opening => Some(EndEarly(t))
    case Getting => Some(Close(t, false))
    case Sending => Some(Close(t, false))
    case Collecting(_) => Some(CancelProducer(t).(answer := Collecting(false), answerCancelled := false))
    case Closing(_) => Some(CancelProducer(t).(answerCancelled := false)) // suppressed, and passed on
    case LastSend => Some(t.(answer := Answered, answerCancelled := false))
    case Answered => None
  }

  function AnswerNext(t: Tasks, ok: bool): Option<Tasks> {
    if t.answerCancelled then AnswerCancelledNext(t) else
    match t.answer
    case Created => Some(if t.stream then t.(answer := Opening) else t.(answer := Collecting(true), producer := New))
    case Opening => Some(if ok then t.(answer := Getting, producer := New) else EndEarly(t))
    case Getting =>
      if t.buffer > 0 then Some(t.(buffer := t.buffer - 1, answer := if ok then Sending else Getting))
      else if t.ended then Some(Close(t, ok))
      else None
    case Sending => Some(if ok then t.(answer := Getting) else Close(t, false))
    case Collecting(collected) =>
      if t.producer.Stopped? then Some(t.(answer := if collected && ok then LastSend else Answered)) else None
    case Closing(goesOn) =>
      if t.producer.Stopped? then Some(t.(answer := if goesOn then LastSend else Answered)) else None
    case LastSend => Some(t.(answer := Answered))
    case Answered => None
  }

  predicate HasRoom(t: Tasks) {
    t.buffer + (if t.ended then 1 else 0) < Heartbeats.CAPACITY
  }

  function Stop(t: Tasks): Tasks {
    t.(producer := Stopped, producerCancelled := false)
  }

  /** `running`: whether the slot is free for it when it gets there. */
  function ProducerNext(t: Tasks, more: bool, running: bool): Option<Tasks> {
    match t.producer
    case New => Some(if t.producerCancelled then Stop(t) else t.(producer := if running then Reading else InLock))
    case InLock => if t.producerCancelled then Some(Stop(t)) else None
    case Reading =>
      if t.producerCancelled then Some(t.(producer := Leaving(false), producerCancelled := false))
      else if more && t.chunks > 0 then
        Some(t.(chunks := t.chunks - 1, producer := if t.stream then Putting else Reading))
      else Some(t.(producer := Leaving(true)))
    case Putting =>
      if t.producerCancelled then Some(t.(producer := Leaving(false), producerCancelled := false))
      else if HasRoom(t) then Some(t.(buffer := t.buffer + 1, producer := Reading))
      else None
    case Leaving(ok) =>
      Some(if t.stream && ok && !t.producerCancelled then t.(producer := PuttingEnd) else Stop(t))
    case PuttingEnd =>
      if t.producerCancelled then Some(Stop(t))
      else if HasRoom(t) then Some(Stop(t).(ended := true))
      else None
    case _ => None
  }

  // --- the steps of the queue that go with them ---

  function WithResponse(t: Tasks, id: Id): Option<Q.Event> {
    if t.response.Gathering? then Some(Q.Close(id)) else None
  }

  function WithAnswer(t: Tasks, after: Tasks, id: Id): Option<Q.Event> {
    if t.producer.Absent? && after.producer.Stopped? then Some(Q.FailBeforeSlot(id)) else None
  }

  function WithProducer(t: Tasks, id: Id): Option<Q.Event> {
    match t.producer
    case New => Some(if t.producerCancelled then Q.FailBeforeSlot(id) else Q.ReachSlot(id))
    case InLock => Some(Q.CancelQueued(id))
    case Leaving(_) => Some(Q.LeaveSlot(id))
    case _ => None
  }

  function After(s: Q.System, e: Option<Q.Event>): Q.System {
    if e.Some? then Q.Do(s, e.value) else s
  }

  function Move(w: World, id: Id, next: Option<Tasks>, e: Option<Q.Event>): Option<World> {
    if next.Some? then Some(World(After(w.system, e), w.tasks[id := next.value])) else None
  }

  function NewTasks(stream: bool, chunks: nat): Tasks {
    Tasks(stream, chunks, Waiting, Created, false, Absent, false, 0, false)
  }

  /** From outside: the client leaves, the server cancels the response, nothing comes in time. */
  function OutsideTask(t: Tasks, e: Event): Option<Tasks> {
    match e
    case ClientLeaves(_) =>
      if t.response.Waiting? then Some(CancelAnswer(t).(response := Gathering)) else None
    case Cancel(_) =>
      if t.response.Waiting? then Some(CancelAnswer(t).(response := Gathering))
      else if t.response.Gathering? || t.response.Doomed? then Some(CancelAnswer(t).(response := Doomed))
      else None
    case Beat(_) => if t.answer.Getting? && !t.answerCancelled then Some(t.(answer := Sending)) else None
    case _ => None
  }

  function OutsideNext(w: World, e: Event): Option<World> {
    match e
    case Arrive(id, stream, chunks) =>
      var s := Q.Do(w.system, Q.Arrive(id));
      if id in w.system.phases then None
      else Some(World(s, if Q.In(s, id, Q.Preparing) then w.tasks[id := NewTasks(stream, chunks)] else w.tasks))
    case ClientLeaves(id) => if id in w.tasks then Move(w, id, OutsideTask(w.tasks[id], e), None) else None
    case Cancel(id) => if id in w.tasks then Move(w, id, OutsideTask(w.tasks[id], e), None) else None
    case Beat(id) => if id in w.tasks then Move(w, id, OutsideTask(w.tasks[id], e), None) else None
    case _ => None
  }

  function OwnNext(w: World, e: Event): Option<World> {
    match e
    case ResponseStep(id) =>
      if id in w.tasks then Move(w, id, ResponseNext(w.tasks[id]), WithResponse(w.tasks[id], id)) else None
    case AnswerStep(id, ok) =>
      if id !in w.tasks then None else
      var next := AnswerNext(w.tasks[id], ok);
      Move(w, id, next, if next.Some? then WithAnswer(w.tasks[id], next.value, id) else None)
    case ProducerStep(id, more) =>
      if id !in w.tasks then None else
      var running := !w.system.queue.locked && w.system.queue.waiters == [];
      Move(w, id, ProducerNext(w.tasks[id], more, running), WithProducer(w.tasks[id], id))
    case TakeLock =>
      if Q.Next(w.system, Q.TakeLock).None? then None else
      var id := w.system.queue.waiters[0];
      if id in w.tasks && !w.tasks[id].producerCancelled then
        Move(w, id, Some(w.tasks[id].(producer := Reading)), Some(Q.TakeLock))
      else None
    case _ => None
  }

  function Next(w: World, e: Event): Option<World> {
    if Own(e) then OwnNext(w, e) else OutsideNext(w, e)
  }

  function Do(w: World, e: Event): World {
    if Next(w, e).Some? then Next(w, e).value else w
  }

  function Run(w: World, events: seq<Event>): World
    decreases |events|
  {
    if events == [] then w else Run(Do(w, events[0]), events[1..])
  }

  function Start(size: nat): World {
    World(Q.Start(size), map[])
  }

  // --- the invariant ---

  /** How the tasks of one request stand to each other. */
  predicate TasksFit(t: Tasks) {
    && (t.response.Finished? || t.response.Abandoned? ==> t.answer.Answered?)
    && (t.answer.Answered? ==> t.producer.Stopped? && !t.answerCancelled)
    && (t.producer.Absent? <==> t.answer.Created? || t.answer.Opening?)
    && (t.answer.LastSend? ==> t.producer.Stopped?)
    && (t.producer.Absent? || t.producer.Stopped? ==> !t.producerCancelled)
    && (t.answer.Getting? || t.answer.Sending? ==> t.stream && !t.producerCancelled)
    && (t.answer.Getting? || t.answer.Sending? ==> t.producer != Leaving(false) && (t.producer.Stopped? ==> t.ended))
    && (t.answer.Closing? ==> t.stream && (t.producerCancelled || t.producer == Leaving(false) || t.producer.Stopped?))
    && (t.answer.Collecting? || t.answer.Opening? ==> t.stream == t.answer.Opening?)
    && (t.producer.Putting? || t.producer.PuttingEnd? ==> t.stream)
    && (t.ended ==> t.producer.Stopped?) && t.buffer + (if t.ended then 1 else 0) <= Heartbeats.CAPACITY
  }

  /** What the queue knows of it. */
  function PhaseOf(t: Tasks): Q.Phase {
    match t.producer
    case Absent => Q.Preparing
    case New => Q.Preparing
    case InLock => Q.Queued
    case PuttingEnd => Q.Answered
    case Stopped => if t.response.Finished? then Q.Closed else Q.Answered
    case _ => Q.Running
  }

  ghost predicate Linked(w: World) {
    && (forall id :: id in w.tasks ==> TasksFit(w.tasks[id]) && Q.In(w.system, id, PhaseOf(w.tasks[id])))
    && (forall id :: id in w.system.phases && id !in w.tasks ==> w.system.phases[id] == Q.Refused)
  }

  /** Who still counts as waiting after its answer: exactly those that never reached the slot. */
  ghost predicate FlagsAgree(s: Q.System) {
    && (forall id :: Q.In(s, id, Q.Queued) || Q.In(s, id, Q.Running) ==> id in s.joined)
    && (forall id :: Q.In(s, id, Q.Answered) ==> (id in s.queue.flagged <==> id !in s.joined))
  }

  ghost predicate Inv(w: World) {
    Q.Inv(w.system) && FlagsAgree(w.system) && Linked(w)
  }

  lemma FlagsKept(s: Q.System, e: Q.Event)
    requires Q.PhasesAgree(s) && Q.ListsAgree(s) && FlagsAgree(s)
    ensures FlagsAgree(Q.Do(s, e))
  {
    hide Queues.Without, Queues.NoRepeats;
    var t := Q.Do(s, e);
    if Q.Next(s, e).Some? && e.TakeLock? {
      assert Q.In(s, s.queue.waiters[0], Q.Queued);
    }
    forall id
      ensures Q.In(t, id, Q.Queued) || Q.In(t, id, Q.Running) ==> id in t.joined
      ensures Q.In(t, id, Q.Answered) ==> (id in t.queue.flagged <==> id !in t.joined)
    {
      assert id in s.joined ==> id in t.joined;
      assert Q.In(s, id, Q.Preparing) ==> id in s.queue.flagged && id !in s.joined;
      assert Q.In(s, id, Q.Running) ==> id !in s.queue.flagged;
    }
  }

  /** Whatever a queue event does, it does to one request. */
  lemma OnlyOne(s: Q.System, e: Q.Event, id: Id)
    requires if e.TakeLock? then s.queue.waiters != [] && s.queue.waiters[0] == id else e.id == id
    ensures var t := Q.Do(s, e);
      && t.phases.Keys <= s.phases.Keys + {id} && s.phases.Keys <= t.phases.Keys
      && forall other :: other in s.phases && other != id ==> t.phases[other] == s.phases[other]
  {
  }

  /** Nothing about the queue changes, and one request's tasks keep their phase. */
  lemma LinkedQuietly(w: World, id: Id, t: Tasks)
    requires Linked(w) && id in w.tasks && TasksFit(t) && PhaseOf(t) == PhaseOf(w.tasks[id])
    ensures Linked(w.(tasks := w.tasks[id := t]))
  {
    hide TasksFit, PhaseOf;
  }

  lemma LinkedWith(w: World, id: Id, t: Tasks, e: Q.Event)
    requires Linked(w) && TasksFit(t)
    requires if e.TakeLock? then w.system.queue.waiters != [] && w.system.queue.waiters[0] == id else e.id == id
    requires Q.In(Q.Do(w.system, e), id, PhaseOf(t))
    ensures Linked(World(Q.Do(w.system, e), w.tasks[id := t]))
  {
    OnlyOne(w.system, e, id);
    hide TasksFit, PhaseOf, Q.Do;
  }

  lemma OutsideFits(t: Tasks, e: Event)
    requires TasksFit(t) && OutsideTask(t, e).Some?
    ensures TasksFit(OutsideTask(t, e).value) && PhaseOf(OutsideTask(t, e).value) == PhaseOf(t)
  {
  }

  lemma OutsideKeepsLinked(w: World, e: Event)
    requires Linked(w) && !Own(e)
    ensures Linked(Do(w, e))
  {
    hide TasksFit, PhaseOf, OutsideTask;
    if e.Arrive? {
      if e.id !in w.system.phases { LinkedOnArrival(w, e.id, e.stream, e.chunks); }
    } else if e.id in w.tasks && OutsideTask(w.tasks[e.id], e).Some? {
      OutsideFits(w.tasks[e.id], e);
      LinkedQuietly(w, e.id, OutsideTask(w.tasks[e.id], e).value);
    }
  }

  lemma LinkedOnArrival(w: World, id: Id, stream: bool, chunks: nat)
    requires Linked(w) && id !in w.system.phases
    ensures Linked(Do(w, Arrive(id, stream, chunks)))
  {
    OnlyOne(w.system, Q.Arrive(id), id);
    assert id !in w.tasks by { assert id in w.tasks ==> Q.In(w.system, id, PhaseOf(w.tasks[id])); }
    var s := Q.Do(w.system, Q.Arrive(id));
    assert Q.In(s, id, Q.Preparing) || Q.In(s, id, Q.Refused);
    assert TasksFit(NewTasks(stream, chunks)) && PhaseOf(NewTasks(stream, chunks)) == Q.Preparing;
    hide TasksFit, PhaseOf, Q.Do;
  }

  /** A response's own step, and the step of the queue that goes with it. */
  lemma ResponseFits(t: Tasks, id: Id)
    requires TasksFit(t) && ResponseNext(t).Some?
    ensures var next, e := ResponseNext(t).value, WithResponse(t, id);
      && TasksFit(next)
      && if e.Some? then e == Some(Q.Close(id)) && PhaseOf(t) == Q.Answered && PhaseOf(next) == Q.Closed
         else PhaseOf(next) == PhaseOf(t)
  {
  }

  lemma AnswerFits(t: Tasks, ok: bool, id: Id)
    requires TasksFit(t) && AnswerNext(t, ok).Some?
    ensures var next := AnswerNext(t, ok).value;
      var e := WithAnswer(t, next, id);
      && TasksFit(next)
      && if e.Some? then e == Some(Q.FailBeforeSlot(id)) && PhaseOf(t) == Q.Preparing && PhaseOf(next) == Q.Answered
         else PhaseOf(next) == PhaseOf(t)
  {
  }

  lemma ProducerFits(t: Tasks, more: bool, running: bool, id: Id)
    requires TasksFit(t) && ProducerNext(t, more, running).Some?
    ensures var next, e := ProducerNext(t, more, running).value, WithProducer(t, id);
      && TasksFit(next)
      && match e {
           case Some(FailBeforeSlot(i)) => i == id && PhaseOf(t) == Q.Preparing && PhaseOf(next) == Q.Answered
           case Some(ReachSlot(i)) => i == id && PhaseOf(t) == Q.Preparing && PhaseOf(next) == if running then Q.Running else Q.Queued
           case Some(CancelQueued(i)) => i == id && PhaseOf(t) == Q.Queued && PhaseOf(next) == Q.Answered
           case Some(LeaveSlot(i)) => i == id && PhaseOf(t) == Q.Running && PhaseOf(next) == Q.Answered
           case Some(_) => false
           case None => PhaseOf(next) == PhaseOf(t)
         }
  {
  }

  /** The step of the queue that goes with a step of a task, if any. */
  function QueueStep(w: World, e: Event): Option<Q.Event> {
    match e
    case Arrive(id, _, _) => Some(Q.Arrive(id))
    case ResponseStep(id) => if id in w.tasks then WithResponse(w.tasks[id], id) else None
    case AnswerStep(id, ok) =>
      if id in w.tasks && AnswerNext(w.tasks[id], ok).Some? then
        WithAnswer(w.tasks[id], AnswerNext(w.tasks[id], ok).value, id)
      else None
    case ProducerStep(id, _) => if id in w.tasks then WithProducer(w.tasks[id], id) else None
    case TakeLock => Some(Q.TakeLock)
    case _ => None
  }

  /**
   * Every step of a task is a step that the queue allows, or none of its business: whenever a
   * producer closes, leaves the lock's list or the slot, and whenever a response closes, the
   * queue is where that can happen.
   */
  lemma StepsAreQueueSteps(w: World, e: Event)
    requires Linked(w) && Q.PhasesAgree(w.system) && Next(w, e).Some?
    ensures Linked(Do(w, e))
    ensures Do(w, e).system == After(w.system, QueueStep(w, e))
    ensures QueueStep(w, e).Some? ==> Q.Next(w.system, QueueStep(w, e).value).Some?
  {
    match e
    case ResponseStep(id) => ResponseStepLinks(w, id);
    case AnswerStep(id, ok) => AnswerStepLinks(w, id, ok);
    case ProducerStep(id, more) => ProducerStepLinks(w, id, more);
    case TakeLock => TakeLockLinks(w);
    case _ => OutsideKeepsLinked(w, e);
  }

  lemma ResponseStepLinks(w: World, id: Id)
    requires Linked(w) && Next(w, ResponseStep(id)).Some?
    ensures var e := WithResponse(w.tasks[id], id);
      Linked(Do(w, ResponseStep(id))) && (e.Some? ==> Q.Next(w.system, e.value).Some?)
  {
    ResponseFits(w.tasks[id], id);
    hide TasksFit, PhaseOf, ResponseNext;
    var next := ResponseNext(w.tasks[id]).value;
    if w.tasks[id].response.Gathering? { LinkedWith(w, id, next, Q.Close(id)); } else { LinkedQuietly(w, id, next); }
  }

  lemma AnswerStepLinks(w: World, id: Id, ok: bool)
    requires Linked(w) && Next(w, AnswerStep(id, ok)).Some?
    ensures var e := WithAnswer(w.tasks[id], AnswerNext(w.tasks[id], ok).value, id);
      Linked(Do(w, AnswerStep(id, ok))) && (e.Some? ==> Q.Next(w.system, e.value).Some?)
  {
    AnswerFits(w.tasks[id], ok, id);
    hide TasksFit, PhaseOf, AnswerNext, WithAnswer;
    var next := AnswerNext(w.tasks[id], ok).value;
    if WithAnswer(w.tasks[id], next, id).Some? {
      LinkedWith(w, id, next, Q.FailBeforeSlot(id));
    } else {
      LinkedQuietly(w, id, next);
    }
  }

  lemma ProducerStepLinks(w: World, id: Id, more: bool)
    requires Linked(w) && Next(w, ProducerStep(id, more)).Some?
    ensures var e := WithProducer(w.tasks[id], id);
      Linked(Do(w, ProducerStep(id, more))) && (e.Some? ==> Q.Next(w.system, e.value).Some?)
  {
    var running := !w.system.queue.locked && w.system.queue.waiters == [];
    ProducerFits(w.tasks[id], more, running, id);
    hide TasksFit, PhaseOf, ProducerNext, WithProducer;
    var next, e := ProducerNext(w.tasks[id], more, running).value, WithProducer(w.tasks[id], id);
    if e.Some? { LinkedWith(w, id, next, e.value); } else { LinkedQuietly(w, id, next); }
  }

  lemma TakeLockLinks(w: World)
    requires Linked(w) && Next(w, TakeLock).Some? && Q.PhasesAgree(w.system)
    ensures Linked(Do(w, TakeLock)) && Q.Next(w.system, Q.TakeLock).Some?
  {
    var id := w.system.queue.waiters[0];
    assert Q.In(w.system, id, Q.Queued);
    var next := w.tasks[id].(producer := Reading);
    assert TasksFit(next) && PhaseOf(next) == Q.Running && w.tasks[id].producer.InLock?;
    hide TasksFit, PhaseOf;
    LinkedWith(w, id, next, Q.TakeLock);
  }

  lemma StepKeeps(w: World, e: Event)
    requires Inv(w)
    ensures Inv(Do(w, e))
  {
    hide Q.Inv, FlagsAgree, Linked, Q.Do, OwnNext, OutsideNext;
    if Next(w, e).Some? {
      QueueIsFine(w.system);
      StepsAreQueueSteps(w, e);
      if QueueStep(w, e).Some? {
        Q.StepKeeps(w.system, QueueStep(w, e).value);
        FlagsKept(w.system, QueueStep(w, e).value);
      }
    }
  }

  lemma QueueIsFine(s: Q.System)
    requires Q.Inv(s)
    ensures Q.PhasesAgree(s) && Q.ListsAgree(s)
  {
  }

  /** So every run of the tasks is a run of the queue, and all that was proved of those holds. */
  lemma {:induction false} RunsAreQueueRuns(w: World, events: seq<Event>) returns (steps: seq<Q.Event>)
    requires Inv(w)
    ensures Inv(Run(w, events)) && Run(w, events).system == Q.Run(w.system, steps)
    decreases |events|
  {
    hide Inv, Do, Next, QueueStep, Q.Do;
    if events == [] {
      steps := [];
    } else {
      var e := events[0];
      StepKeeps(w, e);
      var rest := RunsAreQueueRuns(Do(w, e), events[1..]);
      var step := StepOf(w, e);
      steps := step + rest;
      if step == [] {
        assert steps == rest;
      } else {
        assert steps[1..] == rest;
      }
    }
  }

  lemma StepOf(w: World, e: Event) returns (step: seq<Q.Event>)
    requires Inv(w)
    ensures |step| <= 1 && Do(w, e).system == if step == [] then w.system else Q.Do(w.system, step[0])
  {
    step := [];
    if Next(w, e).Some? {
      QueueIsFine(w.system);
      StepsAreQueueSteps(w, e);
      if QueueStep(w, e).Some? { step := [QueueStep(w, e).value]; }
    }
  }

  lemma StartIsFine(size: nat)
    ensures Inv(Start(size))
  {
    Q.StartIsFine(size);
  }
}
