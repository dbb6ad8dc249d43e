/**
 * How a download ends, from the server's answers alone: which answers complete a file, which
 * end the download for good, and that everything else is tried again.
 */
module Replies {
  import opened Wrappers
  import opened Models
  import opened ModelStore
  import opened Download

  /** Where the bytes of an answer go: behind what is there, or to the start of the file. */
  function Reached(offset: nat, r: Reply): nat
    requires r.Served?
  {
    (if r.status == 206 then offset else 0) + |Joined(r.chunks)|
  }

  /** The answer brings the file to its size, and nothing breaks. */
  predicate Completes(size: nat, offset: nat, r: Reply) {
    r.Served? && !r.broke && Reached(offset, r) == size
  }

  /** An error that is not retried, or more than the file may hold. */
  predicate Fatal(size: nat, offset: nat, r: Reply) {
    if r.Refused? then r.fatal else !r.broke && Reached(offset, r) > size
  }

  /** Where the next request starts after an answer that is neither. */
  function Onward(size: nat, offset: nat, r: Reply): nat {
    if r.Refused? then offset
    else if Reached(offset, r) > size then 0 else Reached(offset, r)
  }

  /**
   * The offsets of the requests that were made, one per attempt: all but the last were
   * answered in a way that is tried again.
   */
  ghost predicate Asked(f: ModelFile, server: Server, attempt: nat, offsets: seq<nat>) {
    && (forall i :: 0 <= i < |offsets| ==> offsets[i] < f.size)
    && (forall i :: 0 <= i < |offsets| - 1 ==>
          var r := server(f, attempt + i, offsets[i]);
          !Completes(f.size, offsets[i], r) && !Fatal(f.size, offsets[i], r) && offsets[i + 1] == Onward(f.size, offsets[i], r))
  }

  /** The last of the requests was answered for good, or there were as many as are made at most. */
  ghost predicate GivesUp(f: ModelFile, server: Server, attempt: nat, offsets: seq<nat>) {
    offsets != [] &&
    var last := |offsets| - 1;
    var r := server(f, attempt + last, offsets[last]);
    && !Completes(f.size, offsets[last], r)
    && (Fatal(f.size, offsets[last], r) || (attempt + last == RETRIES && (r.Served? ==> r.broke || Reached(offsets[last], r) < f.size)))
  }

  lemma ReceivedLength(p: Bytes, size: nat, chunks: seq<Bytes>)
    requires |p| <= size
    ensures |p| + |Joined(chunks)| <= size ==> |Received(p, size, chunks)| == |p| + |Joined(chunks)|
    ensures |p| + |Joined(chunks)| > size ==> |Received(p, size, chunks)| > size
  {
    OvershootsExactly(p, size, chunks);
    if |p| + |Joined(chunks)| <= size { ReceivedAll(p, size, chunks); }
  }

  /** One attempt, told by the answer. */
  lemma AttemptByReply(q: Option<Bytes>, size: nat, r: Reply)
    requires Length(q) < size
    ensures var step := Attempt(q, size, r);
      && (step.Finish? && step.outcome == Done <==> Completes(size, Length(q), r))
      && (step.Finish? && step.outcome == PullError <==> Fatal(size, Length(q), r))
      && (step.Retry? ==> Length(Usable(step.partial, size)) == Onward(size, Length(q), r))
  {
    hide Received, Joined;
    if r.Served? { ReceivedLength(Base(q, r.status), size, r.chunks); }
  }

  /** A download that fails has used up its attempts, or was answered for good, and never completely. */
  lemma {:induction false} FailureIsAnswered(p: Option<Bytes>, f: ModelFile, server: Server, attempt: nat) returns (offsets: seq<nat>)
    requires 1 <= attempt <= RETRIES && Attempts(p, f, server, attempt).outcome == PullError
    ensures Asked(f, server, attempt, offsets) && GivesUp(f, server, attempt, offsets)
    ensures |offsets| == Attempts(p, f, server, attempt).requests
    ensures offsets[0] == Length(Usable(p, f.size))
    decreases RETRIES - attempt
  {
    hide Received, Joined, Attempt, Completes, Fatal, Onward;
    var q := Usable(p, f.size);
    var o := Length(q);
    var r := server(f, attempt, o);
    var step := Attempt(q, f.size, r);
    AttemptByReply(q, f.size, r);
    if step.Retry? && attempt < RETRIES {
      var rest := FailureIsAnswered(step.partial, f, server, attempt + 1);
      offsets := [o] + rest;
      forall i | 0 <= i < |offsets| - 1
        ensures var a := server(f, attempt + i, offsets[i]);
          !Completes(f.size, offsets[i], a) && !Fatal(f.size, offsets[i], a) && offsets[i + 1] == Onward(f.size, offsets[i], a)
      {
        if i > 0 { assert offsets[i] == rest[i - 1] && offsets[i + 1] == rest[i] && attempt + i == attempt + 1 + (i - 1); }
      }
      var last := |offsets| - 1;
      assert offsets[last] == rest[last - 1] && attempt + last == attempt + 1 + (last - 1);
    } else {
      offsets := [o];
      if step.Retry? { LastTry(q, f.size, r); }
    }
  }

  lemma LastTry(q: Option<Bytes>, size: nat, r: Reply)
    requires Length(q) < size && Attempt(q, size, r).Retry?
    ensures r.Served? ==> r.broke || Reached(Length(q), r) < size
  {
    hide Received, Joined;
    if r.Served? { ReceivedLength(Base(q, r.status), size, r.chunks); }
  }

  /** From this attempt on: no answer for good, and then one that completes, in time. */
  ghost predicate Delivers(f: ModelFile, server: Server, attempt: nat) {
    exists k :: attempt <= k <= RETRIES && DeliversAt(f, server, attempt, k)
  }

  ghost predicate DeliversAt(f: ModelFile, server: Server, attempt: nat, k: nat) {
    && (forall a: nat, o: nat :: attempt <= a < k && o < f.size ==> !Fatal(f.size, o, server(f, a, o)))
    && (forall o: nat :: o < f.size ==> Completes(f.size, o, server(f, k, o)))
  }

  /**
   * Whatever comes first - refused, broken off or short - is tried again: if a complete answer
   * comes within the attempts, and none for good before it, the download succeeds.
   */
  lemma {:induction false} DeliveredIsDone(p: Option<Bytes>, f: ModelFile, server: Server, attempt: nat)
    requires 1 <= attempt <= RETRIES && Delivers(f, server, attempt)
    ensures Attempts(p, f, server, attempt).outcome == Done
    decreases RETRIES - attempt
  {
    hide Received, Joined, Attempt, Completes, Fatal, Onward;
    var k :| attempt <= k <= RETRIES && DeliversAt(f, server, attempt, k);
    var q := Usable(p, f.size);
    var r := server(f, attempt, Length(q));
    if Length(q) != f.size {
      AttemptByReply(q, f.size, r);
      var step := Attempt(q, f.size, r);
      if step.Retry? {
        assert attempt < k && DeliversAt(f, server, attempt + 1, k);
        DeliveredIsDone(step.partial, f, server, attempt + 1);
      }
    }
  }

  /** Two failures of any kind that is retried do no harm; there is no fourth attempt. */
  lemma ThreeAttempts(f: ModelFile, server: Server, p: Option<Bytes>)
    requires forall a: nat, o: nat :: (a == 1 || a == 2) && o < f.size ==> !Fatal(f.size, o, server(f, a, o))
    ensures (forall o: nat :: o < f.size ==> Completes(f.size, o, server(f, 3, o))) ==> Download.Downloaded(p, f, server).outcome == Done
    ensures Length(Usable(p, f.size)) < f.size && (forall a: nat, o: nat :: server(f, a, o) == Refused(false)) ==>
      Download.Downloaded(p, f, server).outcome == PullError && Download.Downloaded(p, f, server).requests == 3
  {
    if forall o: nat :: o < f.size ==> Completes(f.size, o, server(f, 3, o)) {
      assert DeliversAt(f, server, 1, 3);
      DeliveredIsDone(p, f, server, 1);
    }
    if Length(Usable(p, f.size)) < f.size && (forall a: nat, o: nat :: server(f, a, o) == Refused(false)) {
      var q := Usable(p, f.size);
      assert Usable(q, f.size) == q;
      assert Attempts(q, f, server, 3) == Fetch(q, PullError, 0, 1);
      assert Attempts(q, f, server, 2) == Fetch(q, PullError, 0, 2);
    }
  }
}
