/**
 * `_download`: fetch one file into its partial file, resuming what is there, in at most
 * RETRIES requests.  The network is a function from file, attempt and offset to a reply, so
 * every statement below is about every way a server or a connection can behave.
 */
module Download {
  import opened Wrappers
  import opened Models
  import opened ModelStore

  const RETRIES: nat := 3

  /**
   * One request.  `Refused`: no response; `fatal` for an error that is not retried.
   * `Served`: a status, the chunks that arrive, and whether a transient error follows them:
   * the connection breaks, or closing the file or the response fails.  Once the file is too
   * long nothing more is read, so that then only closing can fail.
   */
  datatype Reply =
    | Refused(fatal: bool)
    | Served(status: nat, chunks: seq<Bytes>, broke: bool)

  type Server = (ModelFile, nat, nat) -> Reply

  datatype Outcome = Done | PullError

  /** What a call leaves: the partial file, how it ended, bytes received and requests made. */
  datatype Fetch = Fetch(partial: Option<Bytes>, outcome: Outcome, received: nat, requests: nat)

  function Joined(chunks: seq<Bytes>): Bytes {
    if chunks == [] then [] else chunks[0] + Joined(chunks[1..])
  }

  /** The file after the chunk loop: it stops reading once the file is too long. */
  function Received(p: Bytes, size: nat, chunks: seq<Bytes>): (q: Bytes)
    ensures p <= q
    decreases |chunks|
  {
    if chunks == [] then p else
    var q := p + chunks[0];
    if |q| > size then q else Received(q, size, chunks[1..])
  }

  function Length(p: Option<Bytes>): nat {
    if p.Some? then |p.value| else 0
  }

  /** The partial file once one that is too long has been deleted. */
  function Usable(p: Option<Bytes>, size: nat): Option<Bytes> {
    if Length(p) > size then None else p
  }

  /** What the file holds when the body starts: kept only if the server honours the range. */
  function Base(q: Option<Bytes>, status: nat): Bytes {
    if q.Some? && status == 206 then q.value else []
  }

  /** How one attempt ends: for good, or with another attempt unless it was the last. */
  datatype Step = Finish(outcome: Outcome, partial: Option<Bytes>, received: nat) | Retry(partial: Option<Bytes>, received: nat)

  /** One attempt, with `q` in the partial file and fewer than `size` bytes in it. */
  function Attempt(q: Option<Bytes>, size: nat, r: Reply): Step {
    match r
    case Refused(fatal) => if fatal then Finish(PullError, q, 0) else Retry(q, 0)
    case Served(status, chunks, broke) =>
      var base := Base(q, status);
      var got := Received(base, size, chunks);
      var n := |got| - |base|;
      if broke then Retry(Some(got), n)
      else if |got| == size then Finish(Done, Some(got), n)
      else if |got| > size then Finish(PullError, None, n)
      else Retry(Some(got), n)
  }

  function Attempts(p: Option<Bytes>, f: ModelFile, server: Server, attempt: nat): Fetch
    requires 1 <= attempt <= RETRIES
    decreases RETRIES - attempt
  {
    var q := Usable(p, f.size);
    if Length(q) == f.size then Fetch(Some(if q.Some? then q.value else []), Done, 0, 0)
    else
      match Attempt(q, f.size, server(f, attempt, Length(q)))
      case Finish(outcome, p', n) => Fetch(p', outcome, n, 1)
      case Retry(p', n) =>
        if attempt == RETRIES then Fetch(p', PullError, n, 1)
        else Again(Attempts(p', f, server, attempt + 1), n)
  }

  function Again(r: Fetch, received: nat): Fetch {
    r.(received := r.received + received, requests := r.requests + 1)
  }

  function Downloaded(p: Option<Bytes>, f: ModelFile, server: Server): Fetch {
    Attempts(p, f, server, 1)
  }

  // --- servers ---

  /**
   * An honest answer for `content` (sections 14.2 and 15.3.7 of RFC 9110): 206 is followed
   * by the bytes from the offset on, any other status by the whole file; either may be cut.
   */
  ghost predicate HonestReply(content: Bytes, offset: nat, r: Reply) {
    r.Served? && offset <= |content| ==>
      Joined(r.chunks) <= if r.status == 206 then content[offset..] else content
  }

  ghost predicate Honest(content: Bytes, f: ModelFile, server: Server) {
    |content| == f.size && forall a: nat, o: nat :: HonestReply(content, o, server(f, a, o))
  }

  ghost predicate HonoursRanges(f: ModelFile, server: Server) {
    forall a: nat, o: nat :: o > 0 && server(f, a, o).Served? ==> server(f, a, o).status == 206
  }

  /** The server never sends more bytes than the file has left. */
  ghost predicate Bounded(f: ModelFile, server: Server) {
    forall a: nat, o: nat :: o <= f.size && server(f, a, o).Served? ==>
      |Joined(server(f, a, o).chunks)| <= f.size - if server(f, a, o).status == 206 then o else 0
  }

  ghost predicate IsPrefix(p: Option<Bytes>, content: Bytes) {
    p.Some? ==> p.value <= content
  }

  /** Bytes a download of `f` still has to fetch. */
  function Missing(p: Option<Bytes>, f: ModelFile): nat {
    f.size - Length(Usable(p, f.size))
  }

  lemma HonestIsBounded(content: Bytes, f: ModelFile, server: Server)
    requires Honest(content, f, server)
    ensures Bounded(f, server)
  {
    forall a: nat, o: nat | o <= f.size && server(f, a, o).Served?
      ensures |Joined(server(f, a, o).chunks)| <= f.size - if server(f, a, o).status == 206 then o else 0
    {
      assert HonestReply(content, o, server(f, a, o));
    }
  }

  /** Reading chunks that fit appends all of them. */
  lemma {:induction false} ReceivedAll(p: Bytes, size: nat, chunks: seq<Bytes>)
    requires |p| + |Joined(chunks)| <= size
    ensures Received(p, size, chunks) == p + Joined(chunks)
    decreases |chunks|
  {
    if chunks == [] {
      assert p + Joined(chunks) == p;
    } else {
      var q := p + chunks[0];
      ReceivedAll(q, size, chunks[1..]);
      assert q + Joined(chunks[1..]) == p + Joined(chunks);
    }
  }

  // --- what a download guarantees ---

  /** Success means exactly the expected size, against any server, within three requests. */
  lemma {:induction false} DoneIsExact(p: Option<Bytes>, f: ModelFile, server: Server, attempt: nat)
    requires 1 <= attempt <= RETRIES
    ensures var r := Attempts(p, f, server, attempt);
      && r.requests <= RETRIES - attempt + 1
      && (r.outcome == Done ==> r.partial.Some? && |r.partial.value| == f.size)
    decreases RETRIES - attempt
  {
    var q := Usable(p, f.size);
    var step := Attempt(q, f.size, server(f, attempt, Length(q)));
    if Length(q) != f.size && step.Retry? && attempt < RETRIES {
      DoneIsExact(step.partial, f, server, attempt + 1);
    }
  }

  lemma PrefixGoesOn(base: Bytes, body: Bytes, content: Bytes)
    requires base <= content && body <= content[|base|..]
    ensures base + body <= content
  {
    assert content == base + content[|base|..];
  }

  /** One honest answer leaves a prefix of the content, and nothing past its end. */
  lemma HonestAttempt(q: Option<Bytes>, f: ModelFile, r: Reply, content: Bytes)
    requires HonestReply(content, Length(q), r) && IsPrefix(q, content) && |content| == f.size
    ensures IsPrefix(Attempt(q, f.size, r).partial, content)
  {
    hide Received, Joined;
    if r.Served? {
      var base := Base(q, r.status);
      assert content[0..] == content;
      PrefixGoesOn(base, Joined(r.chunks), content);
      ReceivedAll(base, f.size, r.chunks);
    }
  }

  lemma HonestOnce(q: Option<Bytes>, f: ModelFile, server: Server, attempt: nat, content: Bytes)
    requires Honest(content, f, server) && IsPrefix(q, content)
    ensures IsPrefix(Usable(Attempt(q, f.size, server(f, attempt, Length(q))).partial, f.size), content)
  {
    HonestAttempt(q, f, server(f, attempt, Length(q)), content);
  }

  lemma {:induction false} StaysPrefix(p: Option<Bytes>, f: ModelFile, server: Server, attempt: nat, content: Bytes)
    requires 1 <= attempt <= RETRIES
    requires Honest(content, f, server) && IsPrefix(Usable(p, f.size), content)
    ensures IsPrefix(Attempts(p, f, server, attempt).partial, content)
    decreases RETRIES - attempt
  {
    var q := Usable(p, f.size);
    if Length(q) != f.size {
      var step := Attempt(q, f.size, server(f, attempt, Length(q)));
      assert IsPrefix(step.partial, content) by {
        HonestAttempt(q, f, server(f, attempt, Length(q)), content);
      }
      if step.Retry? && attempt < RETRIES {
        StaysPrefix(step.partial, f, server, attempt + 1, content);
        assert Attempts(p, f, server, attempt).partial == Attempts(step.partial, f, server, attempt + 1).partial;
      }
    }
  }

  /**
   * From an honest server the partial file stays a prefix of the pinned content, and a
   * successful download holds all of it.
   */
  lemma ResumeKeepsPrefix(p: Option<Bytes>, f: ModelFile, server: Server, attempt: nat, content: Bytes)
    requires 1 <= attempt <= RETRIES
    requires Honest(content, f, server) && IsPrefix(Usable(p, f.size), content)
    ensures var r := Attempts(p, f, server, attempt);
      && IsPrefix(r.partial, content)
      && (r.outcome == Done ==> r.partial == Some(content))
  {
    StaysPrefix(p, f, server, attempt, content);
    DoneIsExact(p, f, server, attempt);
    var r := Attempts(p, f, server, attempt);
    if r.outcome == Done { WholePrefix(r.partial.value, content); }
  }

  lemma WholePrefix(p: Bytes, content: Bytes)
    requires p <= content && |p| == |content|
    ensures p == content
  {
    assert p == content[..|p|];
  }

  /** One answer within bounds and with the range honoured only ever adds bytes. */
  lemma BoundedAttempt(q: Option<Bytes>, f: ModelFile, server: Server, attempt: nat)
    requires HonoursRanges(f, server) && Bounded(f, server) && Length(q) < f.size
    ensures var step := Attempt(q, f.size, server(f, attempt, Length(q)));
      Length(step.partial) == Length(q) + step.received <= f.size
  {
    var r := server(f, attempt, Length(q));
    if r.Served? {
      var base := Base(q, r.status);
      assert |base| == Length(q);
      ReceivedAll(base, f.size, r.chunks);
    }
  }

  /**
   * When ranges are honoured and nothing is sent past the end, every byte received is a byte
   * gained: what is missing afterwards plus what was received is what was missing before.
   */
  lemma {:induction false} NothingIsFetchedTwice(p: Option<Bytes>, f: ModelFile, server: Server, attempt: nat)
    requires 1 <= attempt <= RETRIES
    requires HonoursRanges(f, server) && Bounded(f, server)
    ensures var r := Attempts(p, f, server, attempt);
      && Length(r.partial) <= f.size
      && Missing(r.partial, f) + r.received == Missing(p, f)
    decreases RETRIES - attempt
  {
    var q := Usable(p, f.size);
    if Length(q) != f.size {
      var step := Attempt(q, f.size, server(f, attempt, Length(q)));
      assert Length(step.partial) == Length(q) + step.received <= f.size by {
        BoundedAttempt(q, f, server, attempt);
      }
      if step.Retry? && attempt < RETRIES {
        NothingIsFetchedTwice(step.partial, f, server, attempt + 1);
        assert Attempts(p, f, server, attempt) == Again(Attempts(step.partial, f, server, attempt + 1), step.received);
      } else {
        assert Attempts(p, f, server, attempt).received == step.received;
      }
    }
  }

  /** The offset of the last attempt, if the download gets that far with bytes missing. */
  function LastOffset(p: Option<Bytes>, f: ModelFile, server: Server, attempt: nat): Option<nat>
    requires 1 <= attempt <= RETRIES
    decreases RETRIES - attempt
  {
    var q := Usable(p, f.size);
    if Length(q) == f.size then None
    else if attempt == RETRIES then Some(Length(q))
    else
      match Attempt(q, f.size, server(f, attempt, Length(q)))
      case Finish(_, _, _) => None
      case Retry(p', _) => LastOffset(p', f, server, attempt + 1)
  }

  /** The answer is longer than what is missing, and closing the file or the response fails. */
  ghost predicate FailsAfterOvershooting(f: ModelFile, server: Server, offset: nat) {
    var r := server(f, RETRIES, offset);
    r.Served? && r.broke && (if r.status == 206 then offset else 0) + |Joined(r.chunks)| > f.size
  }

  /** A body overshoots exactly when its chunks together are too long. */
  lemma {:induction false} OvershootsExactly(p: Bytes, size: nat, chunks: seq<Bytes>)
    requires |p| <= size
    ensures |Received(p, size, chunks)| > size <==> |p| + |Joined(chunks)| > size
    decreases |chunks|
  {
    if chunks != [] {
      var q := p + chunks[0];
      if |q| <= size { OvershootsExactly(q, size, chunks[1..]); }
    }
  }

  /**
   * A failed download leaves a partial file that is too long in exactly one case: the last
   * attempt was sent too much and then could not close the file or the response, so that the
   * length check after the loop never ran.
   */
  lemma {:induction false} FailureLeavesOversized(p: Option<Bytes>, f: ModelFile, server: Server, attempt: nat)
    requires 1 <= attempt <= RETRIES
    ensures var r := Attempts(p, f, server, attempt);
      var last := LastOffset(p, f, server, attempt);
      (r.outcome == PullError && Length(r.partial) > f.size)
      <==> (last.Some? && FailsAfterOvershooting(f, server, last.value))
    decreases RETRIES - attempt
  {
    hide Received, Joined;
    var q := Usable(p, f.size);
    if Length(q) != f.size {
      var r := server(f, attempt, Length(q));
      var step := Attempt(q, f.size, r);
      if r.Served? { OvershootsExactly(Base(q, r.status), f.size, r.chunks); }
      if step.Retry? && attempt < RETRIES {
        FailureLeavesOversized(step.partial, f, server, attempt + 1);
      }
    }
  }

  /** It does happen: one byte is expected, two arrive, and closing fails, three times. */
  lemma OversizedIsLeft(sha: Sha)
    ensures var f := ModelFile("a", 1, sha);
      var server := (g: ModelFile, attempt: nat, offset: nat) => Served(200, [[0, 0]], true);
      var r := Attempts(None, f, server, 1);
      r.outcome == PullError && Length(r.partial) == 2
  {
    var f := ModelFile("a", 1, sha);
    var server := (g: ModelFile, attempt: nat, offset: nat) => Served(200, [[0, 0]], true);
    assert forall q: Option<Bytes> :: Attempt(q, 1, Served(200, [[0, 0]], true)) == Retry(Some([0, 0]), 2) by {
      assert [] + [0, 0] == [0, 0];
      assert Received([], 1, [[0, 0]]) == [0, 0];
    }
    assert Usable(Some([0, 0]), 1) == None;
    assert Attempts(Some([0, 0]), f, server, 3).outcome == PullError;
    assert Attempts(Some([0, 0]), f, server, 2).outcome == PullError;
  }

  // --- repeated pulls ---

  /** The partial file after each of a series of interrupted or failed downloads. */
  function Repeated(p: Option<Bytes>, f: ModelFile, servers: seq<Server>): Option<Bytes>
    decreases |servers|
  {
    if servers == [] then p else Repeated(Downloaded(p, f, servers[0]).partial, f, servers[1..])
  }

  /** Every download of the series either completes the file or receives at least one byte. */
  ghost predicate Productive(p: Option<Bytes>, f: ModelFile, servers: seq<Server>)
    decreases |servers|
  {
    servers != [] ==>
      var r := Downloaded(p, f, servers[0]);
      (r.outcome == Done || r.received > 0) && Productive(r.partial, f, servers[1..])
  }

  /**
   * Repeated pulls converge: with honest servers that honour ranges, a series of productive
   * downloads as long as the number of missing bytes ends with the whole pinned content.
   */
  lemma {:induction false} PullsConverge(p: Option<Bytes>, f: ModelFile, servers: seq<Server>, content: Bytes)
    requires forall s :: s in servers ==> Honest(content, f, s) && HonoursRanges(f, s)
    requires |content| == f.size && IsPrefix(Usable(p, f.size), content)
    requires Productive(p, f, servers) && servers != [] && |servers| >= Missing(p, f)
    ensures Repeated(p, f, servers) == Some(content)
    decreases |servers|
  {
    var r := Downloaded(p, f, servers[0]);
    HonestIsBounded(content, f, servers[0]);
    NothingIsFetchedTwice(p, f, servers[0], 1);
    ResumeKeepsPrefix(p, f, servers[0], 1, content);
    if Missing(r.partial, f) == 0 {
      MissingNothing(p, f, servers[0], content);
      CompleteStays(f, servers[1..], content);
    } else {
      PullsConverge(r.partial, f, servers[1..], content);
    }
  }

  /** With nothing left to fetch the partial file is the content, even an empty one. */
  lemma MissingNothing(p: Option<Bytes>, f: ModelFile, server: Server, content: Bytes)
    requires |content| == f.size && Missing(Downloaded(p, f, server).partial, f) == 0
    requires IsPrefix(Downloaded(p, f, server).partial, content)
    ensures Downloaded(p, f, server).partial == Some(content)
  {
    var r := Downloaded(p, f, server);
    if f.size == 0 && Length(Usable(p, 0)) == 0 {
      assert r.partial == Some([]);
    }
    WholePrefix(r.partial.value, content);
  }

  lemma {:induction false} CompleteStays(f: ModelFile, servers: seq<Server>, content: Bytes)
    requires |content| == f.size
    ensures Repeated(Some(content), f, servers) == Some(content)
    decreases |servers|
  {
    if servers != [] { CompleteStays(f, servers[1..], content); }
  }

  // --- the method ---

  function Part(d: Disk, sha: Sha): Option<Bytes> {
    if sha in d.partials then Some(d.partials[sha].content) else None
  }

  /** `d` differs from `d0` only in one partial file, whose bytes come out of the free space. */
  ghost predicate OnlyPartial(d0: Disk, d: Disk, sha: Sha) {
    && d.targets == d0.targets && d.state == d0.state && d.clock >= d0.clock
    && d.partials - {sha} == d0.partials - {sha}
    && d.free + SizeOf(d.partials, sha) == d0.free + SizeOf(d0.partials, sha)
    && (sha in d.partials ==>
          (sha in d0.partials && d.partials[sha] == d0.partials[sha]) || d0.clock <= d.partials[sha].mtime < d.clock)
  }

  /** Changing one partial file keeps the invariant, for any set of truthful records. */
  lemma OnlyPartialKeeps(hash: Hash, d0: Disk, d: Disk, sha: Sha, v: Verified)
    requires Stamped(d0) && Truthful(hash, d0, v) && OnlyPartial(d0, d, sha)
    ensures Stamped(d) && Truthful(hash, d, v)
  {
    OthersStay(d0, d, sha);
    StaysStamped(d0, d, sha);
    hide OnlyPartial, Stamped;
    StaysTruthful(hash, d0, d, sha, v);
  }

  lemma OthersStay(d0: Disk, d: Disk, sha: Sha)
    requires OnlyPartial(d0, d, sha)
    ensures forall p :: p in d.partials && p != sha ==> p in d0.partials && d.partials[p] == d0.partials[p]
  {
    forall p | p in d.partials && p != sha
      ensures p in d0.partials && d.partials[p] == d0.partials[p]
    {
      assert p in d.partials - {sha};
    }
  }

  lemma StaysStamped(d0: Disk, d: Disk, sha: Sha)
    requires Stamped(d0) && OnlyPartial(d0, d, sha)
    ensures Stamped(d)
  {
    OthersStay(d0, d, sha);
  }

  lemma StaysTruthful(hash: Hash, d0: Disk, d: Disk, sha: Sha, v: Verified)
    requires Truthful(hash, d0, v) && OnlyPartial(d0, d, sha)
    ensures Truthful(hash, d, v)
  {
    OthersStay(d0, d, sha);
  }

  /** Every disk the download passes through. */
  ghost predicate Passes(d0: Disk, disks: seq<Disk>, sha: Sha) {
    forall d :: d in disks ==> OnlyPartial(d0, d, sha)
  }

  /** The partial file always is a prefix of `content`, and never shorter than `low`. */
  ghost predicate PassesPrefixes(disks: seq<Disk>, sha: Sha, low: nat, content: Bytes) {
    forall d :: d in disks ==>
      (Part(d, sha).None? || Part(d, sha).value <= content) && Length(Part(d, sha)) >= low
  }

  ghost predicate PassesBounded(disks: seq<Disk>, f: ModelFile) {
    forall d :: d in disks ==> Length(Part(d, f.sha256)) <= f.size
  }

  /** The disks since `h0` keep every other file, and this one within `bound`. */
  ghost predicate Since(store: Store, d0: Disk, h0: seq<Disk>, sha: Sha)
    reads store`disk, store`history
  {
    && h0 <= store.history
    && OnlyPartial(d0, store.disk, sha)
    && Passes(d0, store.history[|h0|..], sha)
  }

  /** Writing, or deleting, the partial file keeps what `Since` says. */
  lemma PartialEffect(d0: Disk, d: Disk, sha: Sha, content: Bytes)
    requires OnlyPartial(d0, d, sha)
    ensures OnlyPartial(d0, WritePartial(d, sha, content), sha)
    ensures OnlyPartial(d0, UnlinkPartial(d, sha), sha)
  {
    assert (d.partials[sha := Node(content, d.clock)]) - {sha} == d.partials - {sha};
    assert d.partials - {sha} - {sha} == d.partials - {sha};
  }

  method PutPartial(store: Store, sha: Sha, content: Bytes, ghost d0: Disk, ghost h0: seq<Disk>)
    requires Since(store, d0, h0, sha)
    modifies store`disk, store`history
    ensures Since(store, d0, h0, sha)
    ensures store.disk == WritePartial(old(store.disk), sha, content) && Part(store.disk, sha) == Some(content)
    ensures store.history == old(store.history) + [store.disk]
  {
    PartialEffect(d0, store.disk, sha, content);
    store.Commit(WritePartial(store.disk, sha, content));
  }

  method DropPartial(store: Store, sha: Sha, ghost d0: Disk, ghost h0: seq<Disk>)
    requires Since(store, d0, h0, sha)
    modifies store`disk, store`history
    ensures Since(store, d0, h0, sha)
    ensures store.disk == UnlinkPartial(old(store.disk), sha)
    ensures store.history == old(store.history) + [store.disk]
  {
    PartialEffect(d0, store.disk, sha, []);
    store.Commit(UnlinkPartial(store.disk, sha));
  }

  lemma OneMorePrefix(h1: seq<Disk>, history: seq<Disk>, d: Disk, sha: Sha, low: nat, all: Bytes)
    requires h1 <= history && PassesPrefixes(history[|h1|..], sha, low, all)
    requires Part(d, sha).Some? && low <= |Part(d, sha).value| && Part(d, sha).value <= all
    ensures h1 <= history + [d] && PassesPrefixes((history + [d])[|h1|..], sha, low, all)
  {
    assert (history + [d])[|h1|..] == history[|h1|..] + [d];
  }

  /** One chunk is written; what came before and this make a prefix of all that comes. */
  method WriteChunk(store: Store, sha: Sha, chunk: Bytes, ghost d0: Disk, ghost h0: seq<Disk>, ghost h1: seq<Disk>,
                    ghost low: nat, ghost all: Bytes)
    requires Since(store, d0, h0, sha) && Part(store.disk, sha).Some? && low <= |Part(store.disk, sha).value|
    requires h1 <= store.history && PassesPrefixes(store.history[|h1|..], sha, low, all)
    requires Part(store.disk, sha).value + chunk <= all
    modifies store`disk, store`history, store`fetched
    ensures Since(store, d0, h0, sha) && Part(store.disk, sha) == Some(old(Part(store.disk, sha)).value + chunk)
    ensures h1 <= store.history && PassesPrefixes(store.history[|h1|..], sha, low, all)
    ensures store.fetched == old(store.fetched) + |chunk|
  {
    hide Since, OnlyPartial, Passes, PassesPrefixes;
    var next := store.disk.partials[sha].content + chunk;
    ghost var before := store.history;
    PutPartial(store, sha, next, d0, h0);
    OneMorePrefix(h1, before, store.disk, sha, low, all);
    store.fetched := store.fetched + |chunk|;
  }

  lemma NextChunk(p: Bytes, size: nat, chunks: seq<Bytes>, i: nat)
    requires i < |chunks|
    ensures Received(p, size, chunks[i..]) ==
      if |p + chunks[i]| > size then p + chunks[i] else Received(p + chunks[i], size, chunks[i + 1..])
    ensures p + Joined(chunks[i..]) == p + chunks[i] + Joined(chunks[i + 1..])
    ensures p + chunks[i] <= p + Joined(chunks[i..])
  {
    assert chunks[i..][0] == chunks[i] && chunks[i..][1..] == chunks[i + 1..];
  }

  /** Opens the partial file for appending or from the start, and writes the body's chunks. */
  method WriteBody(store: Store, f: ModelFile, resume: bool, chunks: seq<Bytes>, ghost d0: Disk, ghost h0: seq<Disk>)
    requires Since(store, d0, h0, f.sha256)
    requires resume ==> f.sha256 in store.disk.partials
    modifies store`disk, store`history, store`fetched
    ensures Since(store, d0, h0, f.sha256)
    ensures var base := if resume then old(store.disk.partials[f.sha256].content) else [];
      var got := Received(base, f.size, chunks);
      && Part(store.disk, f.sha256) == Some(got)
      && store.fetched == old(store.fetched) + |got| - |base|
      && old(store.history) <= store.history
      && PassesPrefixes(store.history[|old(store.history)|..], f.sha256, |base|, base + Joined(chunks))
  {
    assert chunks[0..] == chunks && chunks[|chunks|..] == [];
    assert forall p :: Received(p, f.size, []) == p;
    hide Since, OnlyPartial, Passes, Received, Joined;
    var sha := f.sha256;
    ghost var base := if resume then store.disk.partials[sha].content else [];
    ghost var h1, all := store.history, base + Joined(chunks);
    if !resume {
      PutPartial(store, sha, [], d0, h0);
    }
    ghost var now := base;
    assert h1 <= store.history && PassesPrefixes(store.history[|h1|..], sha, |base|, all);
    hide PassesPrefixes, Part;
    var i := 0;
    while i < |chunks|
      invariant 0 <= i <= |chunks|
      invariant Since(store, d0, h0, sha) && Part(store.disk, sha) == Some(now)
      invariant h1 <= store.history && PassesPrefixes(store.history[|h1|..], sha, |base|, all) && |base| <= |now|
      invariant now + Joined(chunks[i..]) == all
      invariant Received(base, f.size, chunks) == Received(now, f.size, chunks[i..])
      invariant store.fetched == old(store.fetched) + |now| - |base|
    {
      NextChunk(now, f.size, chunks, i);
      WriteChunk(store, sha, chunks[i], d0, h0, h1, |base|, all);
      now := now + chunks[i];
      i := i + 1;
      if SizeOf(store.disk.partials, sha) > f.size { break; }
    }
  }

  /** What one answer may write: at most what it holds, after what was kept. */
  function Offered(q: Option<Bytes>, r: Reply): Bytes {
    if r.Served? then Base(q, r.status) + Joined(r.chunks) else []
  }

  /** How much of the file stays there while an answer is written. */
  function Held(q: Option<Bytes>, size: nat, r: Reply): nat {
    if Attempt(q, size, r).partial.None? then 0
    else if r.Served? then |Base(q, r.status)| else Length(q)
  }

  /** Nothing is lost to an answer within bounds that honours the range. */
  lemma AllIsHeld(q: Option<Bytes>, f: ModelFile, server: Server, attempt: nat)
    requires HonoursRanges(f, server) && Bounded(f, server) && Length(q) < f.size
    ensures Held(q, f.size, server(f, attempt, Length(q))) == Length(q)
    ensures Length(Usable(Attempt(q, f.size, server(f, attempt, Length(q))).partial, f.size)) >= Length(q)
  {
    BoundedAttempt(q, f, server, attempt);
  }

  /** One pass of the retry loop, from the server's answer on. */
  method TryOnce(store: Store, f: ModelFile, reply: Reply, ghost d0: Disk, ghost h0: seq<Disk>) returns (ended: Option<Outcome>)
    requires Since(store, d0, h0, f.sha256)
    modifies store`disk, store`history, store`fetched
    ensures Since(store, d0, h0, f.sha256)
    ensures var q := old(Part(store.disk, f.sha256));
      var step := Attempt(q, f.size, reply);
      && ended == (if step.Finish? then Some(step.outcome) else None)
      && Part(store.disk, f.sha256) == step.partial
      && store.fetched == old(store.fetched) + step.received
      && old(store.history) <= store.history
      && PassesPrefixes(store.history[|old(store.history)|..], f.sha256, Held(q, f.size, reply), Offered(q, reply))
  {
    hide Since, OnlyPartial, Passes;
    if reply.Refused? {
      return if reply.fatal then Some(PullError) else None;
    }
    var resume := f.sha256 in store.disk.partials && reply.status == 206;
    WriteBody(store, f, resume, reply.chunks, d0, h0);
    var size := SizeOf(store.disk.partials, f.sha256);
    if !reply.broke {
      if size == f.size { return Some(Done); }
      if size > f.size {
        DropPartial(store, f.sha256, d0, h0);
        return Some(PullError);
      }
    }
    return None;
  }

  /** The start of a pass: where to resume, after deleting a file that is too long. */
  method FindOffset(store: Store, f: ModelFile, ghost d0: Disk, ghost h0: seq<Disk>) returns (offset: nat)
    requires Since(store, d0, h0, f.sha256)
    modifies store`disk, store`history
    ensures Since(store, d0, h0, f.sha256)
    ensures var q := Usable(old(Part(store.disk, f.sha256)), f.size);
      && old(store.history) <= store.history
      && offset == Length(q)
      && Part(store.disk, f.sha256) == (if offset == f.size && q.None? then Some([]) else q)
      && PassesPrefixes(store.history[|old(store.history)|..], f.sha256, Length(q), if q.Some? then q.value else [])
  {
    hide Since, OnlyPartial, Passes;
    var sha := f.sha256;
    offset := SizeOf(store.disk.partials, sha);
    if offset > f.size {
      DropPartial(store, sha, d0, h0);
      offset := 0;
    }
    if offset == f.size {
      var same := if sha in store.disk.partials then store.disk.partials[sha].content else [];
      PutPartial(store, sha, same, d0, h0); // touch: an empty file needs no request
    }
  }

  lemma OfferedBounds(f: ModelFile, server: Server, attempt: nat, q: Option<Bytes>, content: Bytes)
    requires Length(q) <= f.size
    ensures Honest(content, f, server) && IsPrefix(q, content) ==> Offered(q, server(f, attempt, Length(q))) <= content
    ensures Bounded(f, server) ==> |Offered(q, server(f, attempt, Length(q)))| <= f.size
  {
    var reply := server(f, attempt, Length(q));
    if reply.Served? && Honest(content, f, server) && IsPrefix(q, content) {
      assert HonestReply(content, Length(q), reply);
    }
  }

  /** The partial file is never shorter than this. */
  ghost predicate NeverBelow(disks: seq<Disk>, sha: Sha, low: nat) {
    forall d :: d in disks ==> Length(Part(d, sha)) >= low
  }

  /** What the server promises, and with it what the disks on the way show. */
  datatype Promise = Promise(honest: bool, bounded: bool, steady: bool)

  /**
   * Honest, and then the file is always a prefix; within bounds, and then it is never too
   * long; and honouring ranges besides, and then nothing is lost on the way.
   */
  ghost function Promised(p: Option<Bytes>, f: ModelFile, server: Server, content: Bytes): Promise {
    Promise(Honest(content, f, server) && IsPrefix(Usable(p, f.size), content),
            Bounded(f, server), Bounded(f, server) && HonoursRanges(f, server))
  }

  ghost predicate Clean(promise: Promise, disks: seq<Disk>, f: ModelFile, low: nat, content: Bytes) {
    && (promise.honest ==> PassesPrefixes(disks, f.sha256, 0, content))
    && (promise.bounded ==> PassesBounded(disks, f))
    && (promise.steady ==> NeverBelow(disks, f.sha256, low))
  }

  lemma CleanExtends(promise: Promise, h0: seq<Disk>, h1: seq<Disk>, h2: seq<Disk>, f: ModelFile, low: nat, content: Bytes,
                     held: nat, offered: Bytes)
    requires h0 <= h1 <= h2
    requires Clean(promise, h1[|h0|..], f, low, content)
    requires PassesPrefixes(h2[|h1|..], f.sha256, held, offered)
    requires promise.honest ==> offered <= content
    requires promise.bounded ==> |offered| <= f.size
    requires promise.steady ==> held >= low
    ensures Clean(promise, h2[|h0|..], f, low, content)
  {
    assert h2[|h0|..] == h1[|h0|..] + h2[|h1|..];
  }

  /** Before the first effect there is nothing to show. */
  lemma NothingYet(store: Store, f: ModelFile, server: Server, content: Bytes)
    ensures Since(store, store.disk, store.history, f.sha256)
    ensures Clean(Promised(Part(store.disk, f.sha256), f, server, content), store.history[|store.history|..], f,
                  Length(Usable(Part(store.disk, f.sha256), f.size)), content)
  {
  }

  /**
   * Fetches `f` into its partial file.  Every disk on the way differs from the first only in
   * that file, whose bytes come out of the free space, so a kill between any two effects
   * leaves the rest alone; from an honest server the file is always a prefix of the content,
   * and if ranges are honoured it is never shorter than what could be kept of it.
   */
  method Run(store: Store, f: ModelFile, server: Server, ghost content: Bytes) returns (outcome: Outcome)
    modifies store`disk, store`history, store`fetched, store`requests
    ensures var r := Downloaded(old(Part(store.disk, f.sha256)), f, server);
      && outcome == r.outcome
      && Part(store.disk, f.sha256) == r.partial
      && store.fetched == old(store.fetched) + r.received
      && store.requests == old(store.requests) + r.requests
    ensures Since(store, old(store.disk), old(store.history), f.sha256)
    ensures var p := old(Part(store.disk, f.sha256));
      Clean(Promised(p, f, server, content), store.history[|old(store.history)|..], f, Length(Usable(p, f.size)), content)
  {
    hide Since, Clean, OnlyPartial, Passes, PassesPrefixes, Honest, Bounded, HonoursRanges, Attempt, Held;
    var sha := f.sha256;
    ghost var d0, h0 := store.disk, store.history;
    NothingYet(store, f, server, content);
    ghost var low, promise := Length(Usable(Part(d0, sha), f.size)), Promised(Part(d0, sha), f, server, content);
    ghost var received: nat, requests: nat := 0, 0;
    var attempt := 1;
    while true
      invariant 1 <= attempt <= RETRIES
      invariant Since(store, d0, h0, sha) && h0 <= store.history
      invariant var rest := Attempts(Part(store.disk, sha), f, server, attempt);
        Downloaded(Part(d0, sha), f, server)
        == rest.(received := rest.received + received, requests := rest.requests + requests)
      invariant store.fetched == old(store.fetched) + received
      invariant store.requests == old(store.requests) + requests
      invariant promise.honest ==> IsPrefix(Usable(Part(store.disk, sha), f.size), content)
      invariant promise.steady ==> Length(Usable(Part(store.disk, sha), f.size)) >= low
      invariant Clean(promise, store.history[|h0|..], f, low, content)
      decreases RETRIES - attempt
    {
      ghost var q, h1 := Usable(Part(store.disk, sha), f.size), store.history;
      var offset := FindOffset(store, f, d0, h0);
      CleanExtends(promise, h0, h1, store.history, f, low, content, Length(q), if q.Some? then q.value else []);
      if offset == f.size {
        outcome := Done;
        break;
      }
      var reply := server(f, attempt, offset);
      store.requests := store.requests + 1;
      h1 := store.history;
      var ended := TryOnce(store, f, reply, d0, h0);
      OfferedBounds(f, server, attempt, q, content);
      if promise.steady { AllIsHeld(q, f, server, attempt); }
      CleanExtends(promise, h0, h1, store.history, f, low, content, Held(q, f.size, reply), Offered(q, reply));
      if ended.Some? || attempt == RETRIES {
        outcome := if ended.Some? then ended.value else PullError;
        break;
      }
      ghost var step := Attempt(q, f.size, reply);
      if promise.honest { HonestOnce(q, f, server, attempt, content); }
      received, requests := received + step.received, requests + 1;
      attempt := attempt + 1;
    }
  }
}
