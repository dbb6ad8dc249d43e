/**
 * `gateway/queue.py`: one request at a time, a few waiting, the rest turned away.  Code
 * between two awaits runs undisturbed, so each stretch is one operation here; `asyncio.Lock`
 * is a mutex with a list of waiters that are served in order and may be cancelled.
 */
module RequestQueue {
  import opened Wrappers

  /**
   * The queue as a value.  `flagged` are the places whose `waiting` flag is set, `waiters`
   * those suspended in the lock, `reported` the last pair given to the change callback.
   */
  datatype Queue<Id> = Queue(
    size: nat,
    waiting: int,
    active: int,
    locked: bool,
    waiters: seq<Id>,
    flagged: set<Id>,
    reported: Option<(int, int)>)

  function Changed<Id>(q: Queue<Id>): Queue<Id> {
    q.(reported := Some((q.active, q.waiting)))
  }

  predicate Full<Id>(q: Queue<Id>) {
    q.active + q.waiting >= 1 + q.size
  }

  /** `_leave`: the place stops waiting; it leaves, or (`start`) starts running. */
  function Leave<Id(==)>(q: Queue<Id>, id: Id, start: bool): Queue<Id> {
    var left := if id in q.flagged then q.(flagged := q.flagged - {id}, waiting := q.waiting - 1) else q;
    var started := if start then left.(active := left.active + 1) else left;
    if start || id in q.flagged then Changed(started) else started
  }

  /** `reserve`, when the queue is not full. */
  function Reserve<Id(==)>(q: Queue<Id>, id: Id): Queue<Id> {
    Changed(q.(waiting := q.waiting + 1, flagged := q.flagged + {id}))
  }

  /** `slot` up to its first await: the lock is taken at once only if nobody waits for it. */
  function Join<Id(==)>(q: Queue<Id>, id: Id): Queue<Id> {
    if !q.locked && q.waiters == [] then Leave(q.(locked := true), id, true)
    else q.(waiters := q.waiters + [id])
  }

  /** The first waiter gets the free lock. */
  function Wake<Id(==)>(q: Queue<Id>): Queue<Id>
    requires q.waiters != []
  {
    Leave(q.(locked := true, waiters := q.waiters[1..]), q.waiters[0], true)
  }

  function Without<Id(==)>(ids: seq<Id>, gone: set<Id>): (r: seq<Id>)
    ensures forall id :: id in r ==> id in ids && id !in gone
    ensures forall id :: id in ids && id !in gone ==> id in r
  {
    if ids == [] then []
    else if ids[0] in gone then Without(ids[1..], gone) else [ids[0]] + Without(ids[1..], gone)
  }

  /** A waiter is cancelled: it leaves the lock's list and gives up its place. */
  function Cancel<Id(==)>(q: Queue<Id>, id: Id): Queue<Id> {
    Leave(q.(waiters := Without(q.waiters, {id})), id, false)
  }

  /** The end of `slot`. */
  function Release<Id>(q: Queue<Id>): Queue<Id> {
    Changed(q.(active := q.active - 1, locked := false))
  }

  ghost predicate NoRepeats<Id>(ids: seq<Id>) {
    forall i, j :: 0 <= i < j < |ids| ==> ids[i] != ids[j]
  }

  /** What holds between any two operations, however requests come, wait, run and vanish. */
  ghost predicate Consistent<Id>(q: Queue<Id>) {
    && q.active == (if q.locked then 1 else 0)
    && q.waiting == |q.flagged|
    && q.active + q.waiting <= 1 + q.size
    && q.reported == (if q.reported.None? then None else Some((q.active, q.waiting)))
    && (q.reported.None? ==> q.active == 0 && q.waiting == 0)
    && (forall id :: id in q.waiters ==> id in q.flagged)
  }

  lemma {:induction false} WithoutAppend<Id>(a: seq<Id>, b: seq<Id>, gone: set<Id>)
    ensures Without(a + b, gone) == Without(a, gone) + Without(b, gone)
  {
    if a == [] {
      assert a + b == b;
    } else {
      assert (a + b)[1..] == a[1..] + b;
      WithoutAppend(a[1..], b, gone);
    }
  }

  /** Every operation, used as the code uses it, keeps the counters right. */
  lemma OperationsKeepConsistent<Id>(q: Queue<Id>, id: Id)
    requires Consistent(q)
    ensures !Full(q) && id !in q.flagged ==> Consistent(Reserve(q, id))
    ensures id in q.flagged && id !in q.waiters ==> Consistent(Join(q, id))
    ensures !q.locked && q.waiters != [] && (forall i :: 0 < i < |q.waiters| ==> q.waiters[i] != q.waiters[0])
      ==> Consistent(Wake(q))
    ensures id !in q.waiters ==> Consistent(Leave(q, id, false))
  {
    if q.waiters != [] {
      assert q.waiters == [q.waiters[0]] + q.waiters[1..];
      assert q.waiters[0] in q.waiters;
    }
  }

  lemma CancelKeepsConsistent<Id>(q: Queue<Id>, id: Id)
    requires Consistent(q)
    ensures Consistent(Cancel(q, id))
  {
  }

  lemma ReleaseKeepsConsistent<Id>(q: Queue<Id>)
    requires Consistent(q) && q.locked
    ensures Consistent(Release(q))
  {
  }

  // --- the objects ---

  class Place {
    var waiting: bool

    constructor ()
      ensures waiting
    {
      waiting := true;
    }
  }

  class RequestQueue {
    const queueSize: nat
    var waiting: int
    var active: int
    var locked: bool
    var waiters: seq<Place>
    var reported: Option<(int, int)>
    ghost var places: set<Place>

    ghost function Value(): Queue<Place>
      reads this, places
    {
      Queue(queueSize, waiting, active, locked, waiters, (set p | p in places && p.waiting), reported)
    }

    ghost predicate Valid()
      reads this, places
    {
      Consistent(Value()) && forall p :: p in waiters ==> p in places
    }

    constructor (queueSize: nat)
      ensures this.queueSize == queueSize && places == {}
      ensures Valid() && Value() == Queue(queueSize, 0, 0, false, [], {}, None)
    {
      this.queueSize := queueSize;
      waiting, active, locked, waiters, reported := 0, 0, false, [], None;
      places := {};
    }

    method Report()
      modifies this`reported
      ensures reported == Some((active, waiting))
    {
      reported := Some((active, waiting));
    }

    method LeaveQueue(place: Place, start: bool)
      requires place in places
      modifies this`waiting, this`active, this`reported, place
      ensures Value() == Leave(old(Value()), place, start)
      ensures !place.waiting
    {
      ghost var flagged := Value().flagged;
      var changed := start;
      if place.waiting {
        place.waiting := false;
        waiting := waiting - 1;
        changed := true;
      }
      assert (set p | p in places && p.waiting) == flagged - {place};
      if start {
        active := active + 1;
      }
      if changed {
        Report();
      }
    }

    /** Takes a place now, or None when the queue is full. */
    method TakePlace() returns (place: Option<Place>)
      requires Valid()
      modifies this
      ensures Valid()
      ensures place.None? <==> old(active + waiting) == 1 + queueSize
      ensures place.None? ==> Value() == old(Value()) && places == old(places)
      ensures place.Some? ==>
        && fresh(place.value) && place.value.waiting && places == old(places) + {place.value}
        && Value() == Reserve(old(Value()), place.value)
    {
      if active + waiting >= 1 + queueSize { return None; }
      ghost var before := Value();
      waiting := waiting + 1;
      Report();
      var p := new Place();
      places := places + {p};
      assert Value().flagged == before.flagged + {p};
      OperationsKeepConsistent(before, p);
      place := Some(p);
    }

    /** `slot` up to its first await; false when the request has to wait for the lock. */
    method Acquire(place: Place) returns (running: bool)
      requires Valid() && place in places && place.waiting && place !in waiters
      modifies this`waiting, this`active, this`reported, this`locked, this`waiters, place
      ensures Valid() && Value() == Join(old(Value()), place)
      ensures running <==> !old(locked) && old(waiters) == []
    {
      ghost var before := Value();
      assert place in before.flagged;
      OperationsKeepConsistent(before, place);
      running := !locked && waiters == [];
      if running {
        locked := true;
        LeaveQueue(place, true);
      } else {
        waiters := waiters + [place];
      }
      assert Value() == Join(before, place);
    }

    /** The lock is free and the first waiter goes on. */
    method Proceed()
      requires Valid() && !locked && waiters != [] && NoRepeats(waiters)
      modifies this`waiting, this`active, this`reported, this`locked, this`waiters, waiters[0]
      ensures Valid() && Value() == Wake(old(Value()))
    {
      ghost var before := Value();
      OperationsKeepConsistent(before, waiters[0]);
      var first := waiters[0];
      locked, waiters := true, waiters[1..];
      LeaveQueue(first, true);
      assert Value() == Wake(before);
    }

    /** A waiter is cancelled. */
    method Withdraw(place: Place)
      requires Valid() && place in places
      modifies this`waiting, this`active, this`reported, this`waiters, place
      ensures Valid() && Value() == Cancel(old(Value()), place)
    {
      hide Consistent, Without, Changed;
      ghost var before := Value();
      CancelKeepsConsistent(before, place);
      waiters := Without(waiters, {place});
      assert Value() == before.(waiters := Without(before.waiters, {place}));
      LeaveQueue(place, false);
      assert Value() == Cancel(before, place);
    }

    /** The block inside `slot` ends, whatever way. */
    method Done()
      requires Valid() && locked
      modifies this`active, this`reported, this`locked
      ensures Valid() && Value() == Release(old(Value()))
    {
      ghost var before := Value();
      ReleaseKeepsConsistent(before);
      active := active - 1;
      locked := false;
      Report();
      assert Value() == Release(before);
    }

    /** `Place.give_up`: a no-op once the request runs or has left. */
    method GiveUp(place: Place)
      requires Valid() && place in places && place !in waiters
      modifies this`waiting, this`active, this`reported, place
      ensures Valid() && Value() == Leave(old(Value()), place, false)
      ensures !old(place.waiting) ==> Value() == old(Value())
    {
      OperationsKeepConsistent(Value(), place);
      LeaveQueue(place, false);
    }
  }
}
