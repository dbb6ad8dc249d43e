/**
 * Any number of chat requests around the queue: each takes a place, prepares its answer,
 * waits for the lock, runs, and is closed; a cancellation can strike at every await.  What
 * makes a running request leave and an answered one close are the tasks of `ResponseTasks`.
 * An event that is not enabled changes nothing, so every list of events is a run.
 */
module QueueProtocol {
  import opened Wrappers
  import opened RequestQueue
  import opened Sums

  type Id = nat

  /**
   * `Preparing`: has a place, its answer has not reached the slot.  `Queued`: suspended in the
   * lock.  `Running`: inside the slot.  `Answered`: its answer has ended, the response has
   * not.  `Closed`: the response has given up its place.  `Refused`: got a 429.
   */
  datatype Phase = Preparing | Queued | Running | Answered | Closed | Refused

  /** `joined`, `started`: who joined the lock and who entered the slot, in order. */
  datatype System = System(
    queue: Queue<Id>,
    phases: map<Id, Phase>,
    joined: seq<Id>,
    started: seq<Id>,
    withdrawn: set<Id>)

  datatype Event =
    | Arrive(id: Id)
    | ReachSlot(id: Id)
    | FailBeforeSlot(id: Id)
    | TakeLock
    | CancelQueued(id: Id)
    | LeaveSlot(id: Id)
    | Close(id: Id)

  predicate In(s: System, id: Id, p: Phase) {
    id in s.phases && s.phases[id] == p
  }

  function Goto(s: System, id: Id, p: Phase, q: Queue<Id>): System {
    s.(phases := s.phases[id := p], queue := q)
  }

  function Next(s: System, e: Event): Option<System> {
    match e
    case Arrive(id) =>
      if id in s.phases then None
      else if Full(s.queue) then Some(Goto(s, id, Refused, s.queue))
      else Some(Goto(s, id, Preparing, Reserve(s.queue, id)))
    case ReachSlot(id) =>
      if !In(s, id, Preparing) then None
      else if !s.queue.locked && s.queue.waiters == [] then
        Some(Goto(s, id, Running, Join(s.queue, id)).(joined := s.joined + [id], started := s.started + [id]))
      else Some(Goto(s, id, Queued, Join(s.queue, id)).(joined := s.joined + [id]))
    case FailBeforeSlot(id) =>
      if In(s, id, Preparing) then Some(Goto(s, id, Answered, s.queue)) else None
    case TakeLock =>
      if s.queue.locked || s.queue.waiters == [] then None
      else
        var id := s.queue.waiters[0];
        Some(Goto(s, id, Running, Wake(s.queue)).(started := s.started + [id]))
    case CancelQueued(id) =>
      if In(s, id, Queued) then
        Some(Goto(s, id, Answered, Cancel(s.queue, id)).(withdrawn := s.withdrawn + {id}))
      else None
    case LeaveSlot(id) =>
      if In(s, id, Running) then Some(Goto(s, id, Answered, Release(s.queue))) else None
    case Close(id) =>
      if In(s, id, Answered) then Some(Goto(s, id, Closed, Leave(s.queue, id, false))) else None
  }

  function Do(s: System, e: Event): System {
    if Next(s, e).Some? then Next(s, e).value else s
  }

  function Run(s: System, events: seq<Event>): System
    decreases |events|
  {
    if events == [] then s else Run(Do(s, events[0]), events[1..])
  }

  function Start(size: nat): System {
    System(Queue(size, 0, 0, false, [], {}, None), map[], [], [], {})
  }

  // --- the invariant ---

  /** The phases say where every request stands with the queue. */
  ghost predicate PhasesAgree(s: System) {
    && (forall id :: id in s.queue.flagged ==> id in s.phases && s.phases[id] in {Preparing, Queued, Answered})
    && (forall id :: id in s.phases && s.phases[id] in {Preparing, Queued} ==> id in s.queue.flagged)
    && (forall id :: In(s, id, Queued) <==> id in s.queue.waiters)
    && NoRepeats(s.queue.waiters)
  }

  /** Exactly one request is in the slot while the lock is held, none otherwise. */
  ghost predicate OneRuns(s: System) {
    && (s.queue.locked ==> exists id :: In(s, id, Running))
    && (forall id :: In(s, id, Running) ==> s.queue.locked)
    && (forall a, b :: In(s, a, Running) && In(s, b, Running) ==> a == b)
  }

  /** Requests enter the slot in the order they joined the lock, less those that withdrew. */
  ghost predicate InOrder(s: System) {
    Without(s.joined, s.withdrawn) == s.started + s.queue.waiters && ListsAgree(s)
  }

  /** The phases of those that joined, withdrew and started. */
  ghost predicate ListsAgree(s: System) {
    && (forall id :: id in s.joined || id in s.withdrawn ==> id in s.phases && s.phases[id] !in {Preparing, Refused})
    && (forall id :: id in s.withdrawn ==> s.phases[id] in {Answered, Closed})
    && (forall id :: id in s.started ==> id in s.phases && s.phases[id] in {Running, Answered, Closed})
  }

  ghost predicate Inv(s: System) {
    Consistent(s.queue) && PhasesAgree(s) && OneRuns(s) && InOrder(s)
  }

  // --- every event keeps it ---

  lemma ConsistentKept(s: System, e: Event)
    requires Consistent(s.queue) && PhasesAgree(s) && OneRuns(s)
    ensures Consistent(Do(s, e).queue)
  {
    hide Consistent, Reserve, Join, Wake, Cancel, Release, Leave, Full;
    match e {
      case Arrive(id) => OperationsKeepConsistent(s.queue, id);
      case ReachSlot(id) =>
        assert In(s, id, Preparing) ==> !In(s, id, Queued);
        OperationsKeepConsistent(s.queue, id);
      case TakeLock => OperationsKeepConsistent(s.queue, 0);
      case CancelQueued(id) => CancelKeepsConsistent(s.queue, id);
      case LeaveSlot(id) => if In(s, id, Running) { ReleaseKeepsConsistent(s.queue); }
      case Close(id) =>
        assert In(s, id, Answered) ==> !In(s, id, Queued);
        OperationsKeepConsistent(s.queue, id);
      case FailBeforeSlot(_) =>
    }
  }

  lemma PhasesKept(s: System, e: Event)
    requires Consistent(s.queue) && PhasesAgree(s)
    ensures PhasesAgree(Do(s, e))
  {
    match e {
      case TakeLock => PhasesKeptOnStarting(s);
      case CancelQueued(id) => PhasesKeptOnCancelling(s, id);
      case ReachSlot(id) => PhasesKeptOnJoining(s, id);
      case _ => PhasesKeptElsewhere(s, e);
    }
  }

  lemma PhasesKeptElsewhere(s: System, e: Event)
    requires PhasesAgree(s) && !e.TakeLock? && !e.CancelQueued? && !e.ReachSlot?
    ensures PhasesAgree(Do(s, e))
  {
    hide Without, NoRepeats;
  }

  lemma PhasesKeptOnCancelling(s: System, id: Id)
    requires PhasesAgree(s)
    ensures PhasesAgree(Do(s, CancelQueued(id)))
  {
    WithoutOne(s.queue.waiters, id);
    hide Without, NoRepeats;
  }

  lemma PhasesKeptOnJoining(s: System, id: Id)
    requires PhasesAgree(s)
    ensures PhasesAgree(Do(s, ReachSlot(id)))
  {
    if In(s, id, Preparing) {
      assert id !in s.queue.waiters by { assert !In(s, id, Queued); }
      assert NoRepeats(s.queue.waiters + [id]);
    }
    hide NoRepeats;
  }

  lemma PhasesKeptOnStarting(s: System)
    requires Consistent(s.queue) && PhasesAgree(s)
    ensures PhasesAgree(Do(s, TakeLock))
  {
    var ids, t := s.queue.waiters, Do(s, TakeLock);
    if ids != [] {
      assert forall i :: 0 <= i < |ids| - 1 ==> ids[1..][i] == ids[i + 1];
      assert ids == [ids[0]] + ids[1..] && ids[0] !in ids[1..];
      assert In(s, ids[0], Queued);
      forall id
        ensures In(t, id, Queued) <==> id in t.queue.waiters
      {
        assert In(s, id, Queued) <==> id in ids;
      }
    }
  }

  lemma {:induction false} WithoutOne(ids: seq<Id>, id: Id)
    requires NoRepeats(ids)
    ensures NoRepeats(Without(ids, {id}))
  {
    if ids != [] {
      forall j | 0 <= j < |ids| - 1
        ensures ids[1..][j] == ids[j + 1]
      {
      }
      WithoutOne(ids[1..], id);
    }
  }

  lemma OneRunsKept(s: System, e: Event)
    requires PhasesAgree(s) && OneRuns(s)
    ensures OneRuns(Do(s, e))
  {
    var t := Do(s, e);
    forall id | In(t, id, Running)
      ensures In(s, id, Running) || (!s.queue.locked && t.queue.locked)
    {
    }
    if t.queue.locked && s.queue.locked {
      var id :| In(s, id, Running);
      assert In(t, id, Running);
    } else if t.queue.locked {
      match e {
        case ReachSlot(id) =>
          assert forall a :: In(t, a, Running) ==> a == id || In(s, a, Running);
          assert In(t, id, Running);
        case TakeLock =>
          var id := s.queue.waiters[0];
          assert forall a :: In(t, a, Running) ==> a == id || In(s, a, Running);
          assert In(t, id, Running);
        case _ =>
      }
    } else {
      assert forall a :: In(t, a, Running) ==> In(s, a, Running);
    }
  }

  lemma JoinAdds(q: Queue<Id>, id: Id)
    ensures Join(q, id).waiters == if !q.locked && q.waiters == [] then [] else q.waiters + [id]
  {
  }

  /** Joining appends to both sides. */
  lemma OrderKeptOnJoining(s: System, id: Id)
    requires PhasesAgree(s) && InOrder(s) && Next(s, ReachSlot(id)).Some?
    ensures InOrder(Do(s, ReachSlot(id)))
  {
    hide PhasesAgree, ListsAgree, Without, Do, Next;
    JoiningKeepsLists(s, id);
    JoiningAppends(s, id);
    NotWithdrawnYet(s, id);
    LastIsKept(s.joined, id, s.withdrawn);
    var t := Do(s, ReachSlot(id));
    assert t.started + t.queue.waiters == s.started + s.queue.waiters + [id];
  }

  lemma NotWithdrawnYet(s: System, id: Id)
    requires ListsAgree(s) && Next(s, ReachSlot(id)).Some?
    ensures id !in s.withdrawn
  {
    hide Join;
  }

  lemma LastIsKept(ids: seq<Id>, id: Id, gone: set<Id>)
    requires id !in gone
    ensures Without(ids + [id], gone) == Without(ids, gone) + [id]
  {
    WithoutAppend(ids, [id], gone);
    assert [id][1..] == [];
  }

  /** Whoever reaches the slot is appended to the waiters, or to the started if there are none. */
  lemma JoiningAppends(s: System, id: Id)
    requires Next(s, ReachSlot(id)).Some?
    ensures var t := Do(s, ReachSlot(id));
      var starts := !s.queue.locked && s.queue.waiters == [];
      && t.joined == s.joined + [id] && t.withdrawn == s.withdrawn
      && t.started == (if starts then s.started + [id] else s.started)
      && t.queue.waiters == if starts then [] else s.queue.waiters + [id]
  {
    JoinAdds(s.queue, id);
    hide Join;
  }

  lemma JoiningKeepsLists(s: System, id: Id)
    requires ListsAgree(s) && Next(s, ReachSlot(id)).Some?
    ensures ListsAgree(Do(s, ReachSlot(id)))
  {
    hide Join;
  }

  /** Taking the lock moves the first waiter from one list to the other. */
  lemma OrderKeptOnStarting(s: System)
    requires PhasesAgree(s) && InOrder(s) && Next(s, TakeLock).Some?
    ensures InOrder(Do(s, TakeLock))
  {
    hide Without, NoRepeats;
    var t := Do(s, TakeLock);
    var id := s.queue.waiters[0];
    assert In(s, id, Queued);
    assert s.queue.waiters == [id] + s.queue.waiters[1..];
    assert t.started + t.queue.waiters == s.started + s.queue.waiters;
  }

  /** Withdrawing removes from both sides; nobody withdraws after starting. */
  lemma OrderKeptOnWithdrawing(s: System, id: Id)
    requires PhasesAgree(s) && InOrder(s) && Next(s, CancelQueued(id)).Some?
    ensures InOrder(Do(s, CancelQueued(id)))
  {
    hide Without, NoRepeats;
    var t := Do(s, CancelQueued(id));
    assert t.queue.waiters == Without(s.queue.waiters, {id});
    WithoutMore(s.joined, s.withdrawn, id);
    WithoutAppend(s.started, s.queue.waiters, {id});
    WithoutAbsent(s.started, id);
    assert Without(t.joined, t.withdrawn) == t.started + t.queue.waiters;
  }

  lemma OrderKept(s: System, e: Event)
    requires PhasesAgree(s) && InOrder(s)
    ensures InOrder(Do(s, e))
  {
    hide InOrder, PhasesAgree, Next;
    if Next(s, e).Some? {
      match e {
        case ReachSlot(id) => OrderKeptOnJoining(s, id);
        case TakeLock => OrderKeptOnStarting(s);
        case CancelQueued(id) => OrderKeptOnWithdrawing(s, id);
        case _ => OrderKeptElsewhere(s, e);
      }
    }
  }

  /** The other events leave both sides alone. */
  lemma OrderKeptElsewhere(s: System, e: Event)
    requires PhasesAgree(s) && InOrder(s) && Next(s, e).Some?
    requires e.Arrive? || e.FailBeforeSlot? || e.LeaveSlot? || e.Close?
    ensures InOrder(Do(s, e))
  {
    hide Without, NoRepeats, Full;
    var t := Do(s, e);
    assert t.queue.waiters == s.queue.waiters && t.joined == s.joined && t.started == s.started;
  }

  lemma {:induction false} WithoutMore(ids: seq<Id>, gone: set<Id>, id: Id)
    ensures Without(ids, gone + {id}) == Without(Without(ids, gone), {id})
  {
    if ids != [] {
      WithoutMore(ids[1..], gone, id);
      if ids[0] !in gone {
        assert ([ids[0]] + Without(ids[1..], gone))[1..] == Without(ids[1..], gone);
      }
    }
  }

  lemma {:induction false} WithoutAbsent(ids: seq<Id>, id: Id)
    requires id !in ids
    ensures Without(ids, {id}) == ids
  {
    if ids != [] { WithoutAbsent(ids[1..], id); }
  }

  lemma StepKeeps(s: System, e: Event)
    requires Inv(s)
    ensures Inv(Do(s, e))
  {
    hide Consistent, PhasesAgree, OneRuns, InOrder, Do;
    ConsistentKept(s, e);
    PhasesKept(s, e);
    OneRunsKept(s, e);
    OrderKept(s, e);
  }

  /**
   * In every reachable state, whatever is cancelled when: `active` is 0 or 1 and is 1 exactly
   * when the lock is held by one running request, `waiting` counts the flagged places, at most
   * one plus `size` requests are in, the last reported pair is current, and requests have
   * started in the order in which they joined the lock.
   */
  lemma {:induction false} RunsKeepInvariant(s: System, events: seq<Event>)
    requires Inv(s)
    ensures Inv(Run(s, events))
    decreases |events|
  {
    if events != [] {
      StepKeeps(s, events[0]);
      RunsKeepInvariant(Do(s, events[0]), events[1..]);
    }
  }

  lemma StartIsFine(size: nat)
    ensures Inv(Start(size))
  {
  }

  // --- nothing leaks ---

  function Rank(p: Phase): nat {
    match p
    case Preparing => 4
    case Queued => 3
    case Running => 2
    case Answered => 1
    case _ => 0
  }

  function Ranks(s: System): map<Id, nat> {
    map id | id in s.phases :: Rank(s.phases[id])
  }

  /** How much is left to happen to the requests that have come. */
  ghost function Left(s: System): nat {
    Total(Ranks(s), s.phases.Keys)
  }

  /** Every event but an arrival brings the end closer. */
  lemma EventsUseUp(s: System, e: Event)
    requires PhasesAgree(s) && Next(s, e).Some? && !e.Arrive?
    ensures var t := Do(s, e);
      t.phases.Keys == s.phases.Keys && Left(t) < Left(s)
  {
    var t := Do(s, e);
    var id := if e.TakeLock? then s.queue.waiters[0] else e.id;
    assert e.TakeLock? ==> In(s, id, Queued);
    assert t.phases.Keys == s.phases.Keys;
    LeftFalls(s, t, id);
  }

  lemma LeftFalls(s: System, t: System, id: Id)
    requires s.phases.Keys == t.phases.Keys && id in s.phases && Rank(t.phases[id]) < Rank(s.phases[id])
    requires forall other :: other in s.phases && other != id ==> t.phases[other] == s.phases[other]
    ensures Left(t) < Left(s)
  {
    assert Ranks(s).Keys == s.phases.Keys && Ranks(t).Keys == t.phases.Keys;
    TotalFalls(Ranks(s), Ranks(t), id);
  }

  ghost predicate AllEnabled(s: System, events: seq<Event>)
    decreases |events|
  {
    events != [] ==>
      Next(s, events[0]).Some? && !events[0].Arrive? && AllEnabled(Do(s, events[0]), events[1..])
  }

  /** With no new arrivals, only so much can still happen. */
  lemma {:induction false} RunsAreBounded(s: System, events: seq<Event>)
    requires Inv(s) && AllEnabled(s, events)
    ensures |events| + Left(Run(s, events)) <= Left(s)
    decreases |events|
  {
    if events != [] {
      EventsUseUp(s, events[0]);
      StepKeeps(s, events[0]);
      RunsAreBounded(Do(s, events[0]), events[1..]);
    }
  }

  /** As long as a request is in, something other than an arrival can happen. */
  lemma SomethingCanHappen(s: System)
    requires Inv(s) && (s.queue.active != 0 || s.queue.waiting != 0)
    ensures exists e :: Next(s, e).Some? && !e.Arrive?
  {
    if s.queue.locked {
      var id :| In(s, id, Running);
      assert Next(s, LeaveSlot(id)).Some?;
    } else {
      var id :| id in s.queue.flagged;
      match s.phases[id] {
        case Preparing => assert Next(s, FailBeforeSlot(id)).Some?;
        case Queued => assert Next(s, TakeLock).Some?;
        case Answered => assert Next(s, Close(id)).Some?;
      }
    }
  }

  /** So a run without arrivals, in which responses close, ends with an empty queue. */
  lemma NothingLeaks(size: nat, before: seq<Event>, after: seq<Event>)
    requires AllEnabled(Run(Start(size), before), after)
    ensures var s := Run(Start(size), before);
      var t := Run(s, after);
      && |after| <= Left(s)
      && ((forall e :: Next(t, e).Some? ==> e.Arrive?) ==> t.queue.active == 0 && t.queue.waiting == 0)
  {
    StartIsFine(size);
    RunsKeepInvariant(Start(size), before);
    var s := Run(Start(size), before);
    RunsAreBounded(s, after);
    RunsKeepInvariant(s, after);
    var t := Run(s, after);
    if t.queue.active != 0 || t.queue.waiting != 0 { SomethingCanHappen(t); }
  }

  /** A free lock with waiters goes to the one that joined first. */
  lemma FreeLockGoesToFirst(s: System)
    requires Inv(s) && !s.queue.locked && s.queue.waiters != []
    ensures Next(s, TakeLock).Some?
    ensures Do(s, TakeLock).started == s.started + [s.queue.waiters[0]]
    ensures forall id :: Next(s, ReachSlot(id)).Some? ==> Do(s, ReachSlot(id)).started == s.started
    ensures Without(s.joined, s.withdrawn)[|s.started|] == s.queue.waiters[0]
  {
  }

  // --- who is turned away ---

  /** Requests that prepare, wait or run, and those whose answer ended before they gave up their place. */
  function Inside(s: System): set<Id> {
    set id | id in s.phases &&
      (s.phases[id] in {Preparing, Queued, Running} || (s.phases[id] == Answered && id in s.queue.flagged))
  }

  lemma SizeStays(s: System, e: Event)
    ensures Do(s, e).queue.size == s.queue.size
  {
  }

  lemma {:induction false} SizeStaysThroughout(s: System, events: seq<Event>)
    ensures Run(s, events).queue.size == s.queue.size
    decreases |events|
  {
    hide Do;
    if events != [] {
      SizeStays(s, events[0]);
      SizeStaysThroughout(Do(s, events[0]), events[1..]);
    }
  }

  lemma InsideIsCounted(s: System)
    requires Consistent(s.queue) && PhasesAgree(s) && OneRuns(s)
    ensures |Inside(s)| == s.queue.active + s.queue.waiting
  {
    hide NoRepeats;
    var flagged := s.queue.flagged;
    forall id | id in flagged ensures id in Inside(s) && !In(s, id, Running) {
      assert id in s.phases && s.phases[id] in {Preparing, Queued, Answered};
    }
    if s.queue.locked {
      var runner :| In(s, runner, Running);
      assert Inside(s) == flagged + {runner} by {
        forall id | id in Inside(s) ensures id in flagged + {runner} {
          if s.phases[id] == Running { assert In(s, id, Running); }
        }
      }
    } else {
      assert Inside(s) == flagged by {
        forall id | id in Inside(s) ensures id in flagged { assert !In(s, id, Running); }
      }
    }
  }

  /**
   * In every reachable state an arrival is turned away exactly if one request more than `size`
   * is inside; otherwise it is let in.
   */
  lemma ArrivalsByCount(size: nat, events: seq<Event>, id: Id)
    requires id !in Run(Start(size), events).phases
    ensures var s := Run(Start(size), events);
      && |Inside(s)| <= 1 + size
      && (In(Do(s, Arrive(id)), id, Refused) <==> |Inside(s)| == 1 + size)
      && (In(Do(s, Arrive(id)), id, Preparing) <==> |Inside(s)| < 1 + size)
      && (|Inside(s)| < 1 + size ==> Inside(Do(s, Arrive(id))) == Inside(s) + {id})
  {
    StartIsFine(size);
    RunsKeepInvariant(Start(size), events);
    SizeStaysThroughout(Start(size), events);
    InsideIsCounted(Run(Start(size), events));
  }
}
