/**
 * `pull`: make the directory hold exactly the registry's files, verified.  The statements
 * cover a pull that is killed between any two effects: it leaves one of the disks that the
 * store's history lists.
 */
module Pull {
  import opened Wrappers
  import opened Models
  import opened ModelStore
  import opened Download
  import opened Replies

  const DISK_MARGIN: nat := 512 * 1024 * 1024

  datatype PullResult =
    | Returned(downloadedBytes: nat)
    | AlreadyRunning
    | NoSpace
    | DownloadFailed(name: Name)
    | Mismatched(names: seq<Name>)

  // --- accounting ---

  function PartOf(partials: map<Sha, Node>, sha: Sha): Option<Bytes> {
    if sha in partials then Some(partials[sha].content) else None
  }

  /** Bytes a file still needs, given the partial files. */
  function Need(f: ModelFile, partials: map<Sha, Node>): nat {
    Missing(PartOf(partials, f.sha256), f)
  }

  /** `remaining`: what the disk check asks room for. */
  function Remaining(missing: seq<ModelFile>, partials: map<Sha, Node>): nat {
    if missing == [] then 0 else Need(missing[0], partials) + Remaining(missing[1..], partials)
  }

  /** What is fetched: each file, once downloaded, takes its partial file along. */
  function Plan(missing: seq<ModelFile>, partials: map<Sha, Node>): nat
    decreases |missing|
  {
    if missing == [] then 0 else
    Need(missing[0], partials) + Plan(missing[1..], partials - {missing[0].sha256})
  }

  /** A file whose hash repeats an earlier one's finds nothing to resume. */
  ghost predicate NothingShared(missing: seq<ModelFile>, partials: map<Sha, Node>) {
    forall i, j :: 0 <= i < j < |missing| && missing[i].sha256 == missing[j].sha256 ==>
      Need(missing[j], partials) == missing[j].size
  }

  /** Taking a partial file away can only raise the count, and does so unless nobody needs it. */
  lemma {:induction false} RemainingWithout(missing: seq<ModelFile>, partials: map<Sha, Node>, sha: Sha)
    ensures Remaining(missing, partials - {sha}) >= Remaining(missing, partials)
    ensures Remaining(missing, partials - {sha}) == Remaining(missing, partials)
      <==> forall f :: f in missing && f.sha256 == sha ==> Need(f, partials) == f.size
  {
    if missing != [] {
      var f := missing[0];
      RemainingWithout(missing[1..], partials, sha);
      assert Need(f, partials - {sha}) == if f.sha256 == sha then f.size else Need(f, partials);
      assert missing == [f] + missing[1..];
    }
  }

  /**
   * The disk check counts exactly the bytes that will be fetched if and only if no missing
   * file shares its hash with an earlier one while that hash has a partial file to resume.
   * Otherwise it counts too little.
   */
  lemma {:induction false} RemainingIsExact(missing: seq<ModelFile>, partials: map<Sha, Node>)
    ensures Plan(missing, partials) >= Remaining(missing, partials)
    ensures Plan(missing, partials) == Remaining(missing, partials) <==> NothingShared(missing, partials)
    decreases |missing|
  {
    if missing != [] {
      var f, rest := missing[0], missing[1..];
      var left := partials - {f.sha256};
      RemainingIsExact(rest, left);
      RemainingWithout(rest, partials, f.sha256);
      NothingSharedSplits(missing, partials);
    }
  }

  lemma NothingSharedSplits(missing: seq<ModelFile>, partials: map<Sha, Node>)
    requires missing != []
    ensures var f, rest := missing[0], missing[1..];
      NothingShared(missing, partials) <==>
        NothingShared(rest, partials - {f.sha256})
        && forall g :: g in rest && g.sha256 == f.sha256 ==> Need(g, partials) == g.size
  {
    var f, rest := missing[0], missing[1..];
    var left := partials - {f.sha256};
    forall g | g in rest
      ensures Need(g, left) == if g.sha256 == f.sha256 then g.size else Need(g, partials)
    {
    }
    if NothingShared(missing, partials) {
      forall i, j | 0 <= i < j < |rest| && rest[i].sha256 == rest[j].sha256
        ensures Need(rest[j], left) == rest[j].size
      {
        assert missing[i + 1].sha256 == missing[j + 1].sha256;
      }
      forall g | g in rest && g.sha256 == f.sha256
        ensures Need(g, partials) == g.size
      {
        var j :| 0 <= j < |rest| && rest[j] == g;
        assert missing[0].sha256 == missing[j + 1].sha256;
      }
    }
    if NothingShared(rest, left) && forall g :: g in rest && g.sha256 == f.sha256 ==> Need(g, partials) == g.size {
      forall i, j | 0 <= i < j < |missing| && missing[i].sha256 == missing[j].sha256
        ensures Need(missing[j], partials) == missing[j].size
      {
        assert missing[j] == rest[j - 1];
        if i > 0 { assert missing[i] == rest[i - 1]; }
      }
    }
  }

  lemma OneFile(f: ModelFile, partials: map<Sha, Node>)
    ensures Remaining([f], partials) == Plan([f], partials) == Need(f, partials)
  {
    assert [f][1..] == [];
    assert Remaining([], partials) == 0 && Plan([], partials - {f.sha256}) == 0;
  }

  /** Two missing files with one hash and five bytes to resume: ten counted, fifteen fetched. */
  lemma RemainingCanBeTooLow(sha: Sha)
    ensures var f, g := ModelFile("a", 10, sha), ModelFile("b", 10, sha);
      var partials := map[sha := Node([0, 0, 0, 0, 0], 0)];
      Remaining([f, g], partials) == 10 && Plan([f, g], partials) == 15
  {
    var f, g := ModelFile("a", 10, sha), ModelFile("b", 10, sha);
    var partials := map[sha := Node([0, 0, 0, 0, 0], 0)];
    assert [f, g][1..] == [g];
    assert Need(f, partials) == 5 && Need(g, partials) == 5;
    var left := partials - {sha};
    assert Need(g, left) == 10;
    hide Need;
    OneFile(g, partials);
    OneFile(g, left);
  }

  // --- traces ---

  /** Every disk from `n` on is safe and, if `bounded`, has at least `floor` bytes free. */
  ghost predicate Good(hash: Hash, history: seq<Disk>, n: nat, bounded: bool, floor: int) {
    n <= |history| &&
    forall i :: n <= i < |history| ==> Safe(hash, history[i]) && (bounded ==> history[i].free >= floor)
  }

  lemma GoodExtends(hash: Hash, history: seq<Disk>, n: nat, bounded: bool, floor: int, d: Disk)
    requires Good(hash, history, n, bounded, floor) && Safe(hash, d) && (bounded ==> d.free >= floor)
    ensures Good(hash, history + [d], n, bounded, floor)
  {
  }

  lemma NothingCommitted(hash: Hash, history: seq<Disk>, floor: int)
    ensures forall bounded :: Good(hash, history, |history|, bounded, floor)
  {
  }

  /** Two stretches of history make one, with any lower floor. */
  lemma GoodChains(hash: Hash, h1: seq<Disk>, h2: seq<Disk>, n: nat, floor1: int, floor2: int, bounded: bool, floor: int)
    requires h1 <= h2 && Good(hash, h1, n, true, floor1) && Good(hash, h2, |h1|, true, floor2)
    requires floor <= floor1 && floor <= floor2
    ensures Good(hash, h2, n, bounded, floor)
  {
  }

  /** The disk can be trusted, and so can the records in memory. */
  ghost predicate Sound(store: Store, records: Records)
    reads store, records
  {
    Safe(store.hash, store.disk) && Truthful(store.hash, store.disk, records.verified)
  }

  /** `f` is in place and its record says so. */
  ghost predicate KeptIn(hash: Hash, d: Disk, verified: Verified, f: ModelFile) {
    InPlace(hash, d, f) && KnownSha256(verified, d.targets, f.name) == Some(f.sha256)
  }

  ghost predicate Kept(store: Store, records: Records, f: ModelFile)
    reads store, records
  {
    KeptIn(store.hash, store.disk, records.verified, f)
  }

  // --- what is still to come ---

  /** The files that are not in place, in the order of the registry. */
  ghost function NotInPlace(hash: Hash, d: Disk, files: seq<ModelFile>): seq<ModelFile> {
    if files == [] then []
    else
      var f := files[|files| - 1];
      NotInPlace(hash, d, files[..|files| - 1]) + if InPlace(hash, d, f) then [] else [f]
  }

  /** Bytes that have still to be fetched before all files are in place. */
  ghost function Lost(hash: Hash, d: Disk, files: seq<ModelFile>): nat {
    Remaining(NotInPlace(hash, d, files), d.partials)
  }

  lemma {:induction false} RemainingAppend(a: seq<ModelFile>, b: seq<ModelFile>, partials: map<Sha, Node>)
    ensures Remaining(a + b, partials) == Remaining(a, partials) + Remaining(b, partials)
  {
    hide Need;
    if a == [] {
      assert a + b == b;
    } else {
      assert (a + b)[1..] == a[1..] + b;
      RemainingAppend(a[1..], b, partials);
    }
  }

  lemma LostOneMore(hash: Hash, d: Disk, files: seq<ModelFile>)
    requires files != []
    ensures var f := files[|files| - 1];
      Lost(hash, d, files) == Lost(hash, d, files[..|files| - 1]) + if InPlace(hash, d, f) then 0 else Need(f, d.partials)
  {
    hide Need, InPlace;
    var before, f := files[..|files| - 1], files[|files| - 1];
    RemainingAppend(NotInPlace(hash, d, before), if InPlace(hash, d, f) then [] else [f], d.partials);
    assert [f][1..] == [];
  }

  /** What counts for a file is the same on both disks. */
  ghost predicate SameFor(hash: Hash, d0: Disk, d: Disk, f: ModelFile) {
    && (InPlace(hash, d, f) <==> InPlace(hash, d0, f))
    && (f.sha256 in d.partials <==> f.sha256 in d0.partials)
    && (f.sha256 in d.partials ==> d.partials[f.sha256].content == d0.partials[f.sha256].content)
  }

  lemma {:induction false} LostSame(hash: Hash, d0: Disk, d: Disk, files: seq<ModelFile>)
    requires forall f | f in files :: SameFor(hash, d0, d, f)
    ensures Lost(hash, d, files) == Lost(hash, d0, files)
  {
    hide Lost, InPlace;
    if files == [] {
      assert Lost(hash, d, files) == Lost(hash, d0, files) by { NothingLost(hash, d, d0); }
    } else {
      assert files[|files| - 1] in files;
      LostOneMore(hash, d, files);
      LostOneMore(hash, d0, files);
      LostSame(hash, d0, d, files[..|files| - 1]);
    }
  }

  lemma NothingLost(hash: Hash, d: Disk, d0: Disk)
    ensures Lost(hash, d, []) == Lost(hash, d0, []) == 0
  {
  }

  /** Only what one file has changes: then only what it lacks does. */
  lemma {:induction false} LostChanges(hash: Hash, d0: Disk, d: Disk, files: seq<ModelFile>, f: ModelFile)
    requires f in files && DistinctNames(files) && DistinctHashes(files) && !InPlace(hash, d0, f)
    requires d.targets - {f.name} == d0.targets - {f.name} && d.partials - {f.sha256} == d0.partials - {f.sha256}
    ensures Lost(hash, d, files) + Need(f, d0.partials)
      == Lost(hash, d0, files) + if InPlace(hash, d, f) then 0 else Need(f, d.partials)
  {
    hide Lost, Need;
    var before, last := files[..|files| - 1], files[|files| - 1];
    LostOneMore(hash, d, files);
    LostOneMore(hash, d0, files);
    assert forall i, j :: 0 <= i < j < |before| ==> files[i] == before[i] && files[j] == before[j];
    if last == f {
      forall g | g in before ensures SameFor(hash, d0, d, g) {
        OtherIsSame(hash, d0, d, files, f, g);
      }
      LostSame(hash, d0, d, before);
    } else {
      LostChanges(hash, d0, d, before, f);
      OtherIsSame(hash, d0, d, files, f, last);
      NeedIsSame(hash, d0, d, last);
    }
  }

  lemma NeedIsSame(hash: Hash, d0: Disk, d: Disk, f: ModelFile)
    requires SameFor(hash, d0, d, f)
    ensures Need(f, d.partials) == Need(f, d0.partials)
  {
  }

  lemma OtherIsSame(hash: Hash, d0: Disk, d: Disk, files: seq<ModelFile>, f: ModelFile, g: ModelFile)
    requires f in files && g in files && g != f && DistinctNames(files) && DistinctHashes(files)
    requires d.targets - {f.name} == d0.targets - {f.name} && d.partials - {f.sha256} == d0.partials - {f.sha256}
    ensures SameFor(hash, d0, d, g)
  {
    assert g.name != f.name && g.sha256 != f.sha256;
    assert g.name in d.targets - {f.name} <==> g.name in d0.targets - {f.name};
    assert g.name in d.targets ==> (d.targets - {f.name})[g.name] == (d0.targets - {f.name})[g.name];
    assert g.sha256 in d.partials - {f.sha256} <==> g.sha256 in d0.partials - {f.sha256};
    assert g.sha256 in d.partials ==> (d.partials - {f.sha256})[g.sha256] == (d0.partials - {f.sha256})[g.sha256];
  }

  /** What the registry's hashes stand for. */
  type Contents = Sha -> Bytes

  /** The server is honest about this file, honours ranges, and the registry is right about it. */
  ghost predicate Reliable(hash: Hash, contents: Contents, f: ModelFile, server: Server) {
    && Honest(contents(f.sha256), f, server) && HonoursRanges(f, server)
    && hash(contents(f.sha256)) == f.sha256
  }

  ghost predicate AllReliable(hash: Hash, contents: Contents, files: seq<ModelFile>, server: Server) {
    forall f | f in files :: Reliable(hash, contents, f, server)
  }

  /** The server is honest about this file and in time comes to a complete answer; the registry is right. */
  ghost predicate Delivered(hash: Hash, contents: Contents, f: ModelFile, server: Server) {
    Honest(contents(f.sha256), f, server) && Delivers(f, server, 1) && hash(contents(f.sha256)) == f.sha256
  }

  ghost predicate AllDelivered(hash: Hash, contents: Contents, files: seq<ModelFile>, server: Server) {
    forall f | f in files :: Delivered(hash, contents, f, server)
  }

  /** No request for this file was answered completely, and the attempts were used up or answered for good. */
  ghost predicate FailsFor(f: ModelFile, server: Server) {
    exists offsets :: Asked(f, server, 1, offsets) && GivesUp(f, server, 1, offsets)
  }

  /** The partial file of `f` is a beginning of its content, or too long and thrown away. */
  ghost predicate ResumableFor(d: Disk, contents: Contents, f: ModelFile) {
    IsPrefix(Usable(Part(d, f.sha256), f.size), contents(f.sha256))
  }

  ghost predicate Resumable(d: Disk, contents: Contents, files: seq<ModelFile>) {
    forall f | f in files :: ResumableFor(d, contents, f)
  }

  /** From one disk to a later one: every byte that came over the network is a byte less to fetch. */
  ghost predicate Advances(hash: Hash, contents: Contents, files: seq<ModelFile>, d0: Disk, fetched0: nat, d: Disk, fetched: nat) {
    && Resumable(d, contents, files)
    && Lost(hash, d, files) + fetched == Lost(hash, d0, files) + fetched0
    && d.free + fetched >= d0.free + fetched0
  }

  /** One file further: its own part of that. */
  lemma AdvancesByOne(hash: Hash, contents: Contents, files: seq<ModelFile>, f: ModelFile,
                      d0: Disk, fetched0: nat, d: Disk, fetched: nat)
    requires f in files && DistinctNames(files) && DistinctHashes(files)
    requires !InPlace(hash, d0, f) && Resumable(d0, contents, files)
    requires d.targets - {f.name} == d0.targets - {f.name} && d.partials - {f.sha256} == d0.partials - {f.sha256}
    requires ResumableFor(d, contents, f) && d.free + fetched >= d0.free + fetched0
    requires (if InPlace(hash, d, f) then 0 else Need(f, d.partials)) + fetched == Need(f, d0.partials) + fetched0
    ensures Advances(hash, contents, files, d0, fetched0, d, fetched)
  {
    LostChanges(hash, d0, d, files, f);
    hide Lost, Need, InPlace;
    forall g | g in files ensures ResumableFor(d, contents, g) {
      if g != f { OtherIsSame(hash, d0, d, files, f, g); }
    }
  }

  lemma ResumableSame(hash: Hash, d0: Disk, d: Disk, contents: Contents, files: seq<ModelFile>)
    requires Resumable(d0, contents, files) && forall f | f in files :: SameFor(hash, d0, d, f)
    ensures Resumable(d, contents, files)
  {
    hide InPlace;
  }

  // --- what a kill leaves ---

  /** No byte that was fetched is lost, and what is missing still fits if it did before. */
  ghost predicate Keeps(hash: Hash, contents: Contents, files: seq<ModelFile>, d0: Disk, d: Disk) {
    && Resumable(d, contents, files)
    && Lost(hash, d, files) <= Lost(hash, d0, files)
    && d.free - Lost(hash, d, files) >= d0.free - Lost(hash, d0, files)
  }

  /** So it is on every disk from `n` on. */
  ghost predicate AllKeep(hash: Hash, contents: Contents, files: seq<ModelFile>, d0: Disk, history: seq<Disk>, n: nat) {
    n <= |history| && forall i :: n <= i < |history| ==> Keeps(hash, contents, files, d0, history[i])
  }

  lemma AllKeepChains(hash: Hash, contents: Contents, files: seq<ModelFile>, d0: Disk, d1: Disk,
                      h1: seq<Disk>, h2: seq<Disk>, n: nat)
    requires h1 <= h2 && AllKeep(hash, contents, files, d0, h1, n)
    requires Keeps(hash, contents, files, d0, d1) && AllKeep(hash, contents, files, d1, h2, |h1|)
    ensures AllKeep(hash, contents, files, d0, h2, n)
  {
    hide Resumable, Lost;
  }

  lemma AdvancesKeeps(hash: Hash, contents: Contents, files: seq<ModelFile>, d0: Disk, fetched0: nat, d: Disk, fetched: nat)
    requires Advances(hash, contents, files, d0, fetched0, d, fetched) && fetched >= fetched0
    ensures Keeps(hash, contents, files, d0, d)
  {
    hide Resumable, Lost;
  }

  /** Neither what is in place nor what can be resumed changes, and no room is taken. */
  ghost predicate Untouched(hash: Hash, files: seq<ModelFile>, d0: Disk, d: Disk) {
    (forall f | f in files :: SameFor(hash, d0, d, f)) && d.free >= d0.free
  }

  ghost predicate AllUntouched(hash: Hash, files: seq<ModelFile>, d0: Disk, history: seq<Disk>, n: nat) {
    n <= |history| && forall i :: n <= i < |history| ==> Untouched(hash, files, d0, history[i])
  }

  lemma AllUntouchedExtends(hash: Hash, files: seq<ModelFile>, d0: Disk, history: seq<Disk>, n: nat, d: Disk)
    requires AllUntouched(hash, files, d0, history, n) && Untouched(hash, files, d0, d)
    ensures AllUntouched(hash, files, d0, history + [d], n)
  {
    hide Untouched;
  }

  lemma UntouchedChains(hash: Hash, files: seq<ModelFile>, d0: Disk, d1: Disk, d: Disk)
    requires Untouched(hash, files, d0, d1) && Untouched(hash, files, d1, d)
    ensures Untouched(hash, files, d0, d)
  {
    hide InPlace;
  }

  lemma AllUntouchedChains(hash: Hash, files: seq<ModelFile>, d0: Disk, d1: Disk, h1: seq<Disk>, h2: seq<Disk>, n: nat)
    requires h1 <= h2 && AllUntouched(hash, files, d0, h1, n)
    requires Untouched(hash, files, d0, d1) && AllUntouched(hash, files, d1, h2, |h1|)
    ensures AllUntouched(hash, files, d0, h2, n)
  {
    hide Untouched;
    forall i | n <= i < |h2| ensures Untouched(hash, files, d0, h2[i]) {
      if i >= |h1| { UntouchedChains(hash, files, d0, d1, h2[i]); }
    }
  }

  lemma UntouchedKeeps(hash: Hash, contents: Contents, files: seq<ModelFile>, d0: Disk, d: Disk)
    requires Untouched(hash, files, d0, d) && Resumable(d0, contents, files)
    ensures Keeps(hash, contents, files, d0, d)
  {
    LostSame(hash, d0, d, files);
    ResumableSame(hash, d0, d, contents, files);
    hide Resumable, Lost, SameFor;
  }

  lemma AllUntouchedKeeps(hash: Hash, contents: Contents, files: seq<ModelFile>, d0: Disk, history: seq<Disk>, n: nat)
    requires AllUntouched(hash, files, d0, history, n) && Resumable(d0, contents, files)
    ensures AllKeep(hash, contents, files, d0, history, n)
  {
    hide Untouched, Keeps, Resumable;
    forall i | n <= i < |history| ensures Keeps(hash, contents, files, d0, history[i]) {
      UntouchedKeeps(hash, contents, files, d0, history[i]);
    }
  }

  lemma SavedIsUntouched(hash: Hash, files: seq<ModelFile>, d: Disk, v: Verified, failed: seq<Name>)
    ensures Untouched(hash, files, d, SaveState(d, v, failed))
  {
  }

  lemma StraysAreUntouched(hash: Hash, files: seq<ModelFile>, d0: Disk, d: Disk, gone: set<Sha>)
    requires d.targets == d0.targets && d.partials == d0.partials - gone && gone !! Hashes(files) && d.free >= d0.free
    ensures Untouched(hash, files, d0, d)
  {
    forall f | f in files ensures SameFor(hash, d0, d, f) {
      assert f.sha256 in Hashes(files);
    }
  }

  /** What one file still lacks does not grow, its other bytes stay, and so does the room for it. */
  ghost predicate StepKeeps(hash: Hash, contents: Contents, f: ModelFile, d0: Disk, d: Disk) {
    && d.targets - {f.name} == d0.targets - {f.name} && d.partials - {f.sha256} == d0.partials - {f.sha256}
    && ResumableFor(d, contents, f)
    && var left := if InPlace(hash, d, f) then 0 else Need(f, d.partials);
       left <= Need(f, d0.partials) && d.free - left >= d0.free - Need(f, d0.partials)
  }

  ghost predicate AllStepKeep(hash: Hash, contents: Contents, f: ModelFile, d0: Disk, history: seq<Disk>, n: nat) {
    n <= |history| && forall i :: n <= i < |history| ==> StepKeeps(hash, contents, f, d0, history[i])
  }

  /** While `f` comes from a reliable server. */
  lemma DownloadStep(hash: Hash, contents: Contents, f: ModelFile, d0: Disk, d: Disk)
    requires OnlyPartial(d0, d, f.sha256) && f.name !in d0.targets
    requires IsPrefix(Part(d, f.sha256), contents(f.sha256))
    requires Length(Usable(Part(d0, f.sha256), f.size)) <= Length(Part(d, f.sha256)) <= f.size
    ensures StepKeeps(hash, contents, f, d0, d)
  {
  }

  lemma DownloadSteps(hash: Hash, contents: Contents, f: ModelFile, server: Server, d0: Disk, h0: seq<Disk>, h: seq<Disk>)
    requires Reliable(hash, contents, f, server) && ResumableFor(d0, contents, f) && f.name !in d0.targets
    requires h0 <= h && Passes(d0, h[|h0|..], f.sha256)
    requires var p := Part(d0, f.sha256);
      Clean(Promised(p, f, server, contents(f.sha256)), h[|h0|..], f, Length(Usable(p, f.size)), contents(f.sha256))
    ensures AllStepKeep(hash, contents, f, d0, h, |h0|)
  {
    HonestIsBounded(contents(f.sha256), f, server);
    hide Honest, HonoursRanges, Bounded, StepKeeps, OnlyPartial;
    forall i | |h0| <= i < |h| ensures StepKeeps(hash, contents, f, d0, h[i]) {
      assert h[i] == h[|h0|..][i - |h0|];
      DownloadStep(hash, contents, f, d0, h[i]);
    }
  }

  /** And when it is moved into place. */
  lemma MoveStep(hash: Hash, contents: Contents, f: ModelFile, d0: Disk, d1: Disk, v: Verified, failed: seq<Name>)
    requires StepKeeps(hash, contents, f, d0, d1) && f.name !in d1.targets
    requires f.sha256 in d1.partials && hash(d1.partials[f.sha256].content) == f.sha256
    ensures var d := MoveIntoPlace(d1, f.sha256, f.name);
      StepKeeps(hash, contents, f, d0, d) && StepKeeps(hash, contents, f, d0, SaveState(d, v, failed))
  {
    var d := MoveIntoPlace(d1, f.sha256, f.name);
    assert d.targets - {f.name} == d1.targets - {f.name} && d.partials - {f.sha256} == d1.partials - {f.sha256};
  }

  lemma StepIsKeeping(hash: Hash, contents: Contents, files: seq<ModelFile>, f: ModelFile, d0: Disk, d: Disk)
    requires f in files && DistinctNames(files) && DistinctHashes(files)
    requires !InPlace(hash, d0, f) && Resumable(d0, contents, files) && StepKeeps(hash, contents, f, d0, d)
    ensures Keeps(hash, contents, files, d0, d)
  {
    LostChanges(hash, d0, d, files, f);
    hide Lost, Need, InPlace;
    forall g | g in files ensures ResumableFor(d, contents, g) {
      if g != f { OtherIsSame(hash, d0, d, files, f, g); }
    }
  }

  lemma StepsAreKeeping(hash: Hash, contents: Contents, files: seq<ModelFile>, f: ModelFile, d0: Disk, history: seq<Disk>, n: nat)
    requires f in files && DistinctNames(files) && DistinctHashes(files)
    requires !InPlace(hash, d0, f) && Resumable(d0, contents, files) && AllStepKeep(hash, contents, f, d0, history, n)
    ensures AllKeep(hash, contents, files, d0, history, n)
  {
    hide Keeps, StepKeeps, InPlace, Resumable, DistinctNames, DistinctHashes;
    forall i | n <= i < |history| ensures Keeps(hash, contents, files, d0, history[i]) {
      StepIsKeeping(hash, contents, files, f, d0, history[i]);
    }
  }

  // --- the phases ---

  function Hashes(files: seq<ModelFile>): set<Sha> {
    set f | f in files :: f.sha256
  }

  lemma NothingTouched(hash: Hash, files: seq<ModelFile>, d: Disk, history: seq<Disk>)
    ensures Untouched(hash, files, d, d) && AllUntouched(hash, files, d, history, |history|)
  {
  }

  /** `_remove_stray_partials`. */
  method RemoveStrayPartials(store: Store, files: seq<ModelFile>)
    requires Safe(store.hash, store.disk)
    modifies store`disk, store`history
    ensures var d0, d := old(store.disk), store.disk;
      && d.targets == d0.targets && d.state == d0.state && d.free >= d0.free
      && d.partials == d0.partials - (d0.partials.Keys - Hashes(files))
      && (d0.partials.Keys <= Hashes(files) ==> d == d0)
    ensures Safe(store.hash, store.disk) && old(store.history) <= store.history
    ensures Good(store.hash, store.history, |old(store.history)|, true, old(store.disk).free)
    ensures AllUntouched(store.hash, files, old(store.disk), store.history, |old(store.history)|)
  {
    hide Stamped, Truthful, Untouched, AllUntouched, Good;
    NothingCommitted(store.hash, store.history, store.disk.free);
    ghost var d0, n := store.disk, |store.history|;
    NothingTouched(store.hash, files, d0, store.history);
    ghost var gone: set<Sha> := {};
    var wanted := Hashes(files);
    var todo := store.disk.partials.Keys - wanted;
    while todo != {}
      invariant todo + gone == d0.partials.Keys - wanted
      invariant store.disk.targets == d0.targets && store.disk.state == d0.state && store.disk.free >= d0.free
      invariant store.disk.partials == d0.partials - gone
      invariant gone == {} ==> store.disk == d0
      invariant Safe(store.hash, store.disk) && old(store.history) <= store.history
      invariant Good(store.hash, store.history, n, true, d0.free)
      invariant AllUntouched(store.hash, files, d0, store.history, n)
      decreases todo
    {
      var p :| p in todo;
      UnlinkKeeps(store.hash, store.disk, p, LoadVerified(store.disk.state));
      ghost var h1 := store.history;
      store.Commit(UnlinkPartial(store.disk, p));
      todo, gone := todo - {p}, gone + {p};
      assert d0.partials - (gone - {p}) - {p} == d0.partials - gone;
      GoodExtends(store.hash, h1, n, true, d0.free, store.disk);
      StraysAreUntouched(store.hash, files, d0, store.disk, gone);
      AllUntouchedExtends(store.hash, files, d0, h1, n, store.disk);
    }
  }

  /** Nothing about the files under other names changes. */
  ghost predicate OthersSame(d0: Disk, d: Disk, v0: Verified, v: Verified, name: Name) {
    && d.partials == d0.partials && d.state == d0.state
    && d.targets - {name} == d0.targets - {name} && v - {name} == v0 - {name}
  }

  lemma OthersKept(d0: Disk, d: Disk, v0: Verified, v: Verified, name: Name, other: Name)
    requires OthersSame(d0, d, v0, v, name) && other != name
    ensures other in d.targets <==> other in d0.targets
    ensures other in d.targets ==> d.targets[other] == d0.targets[other]
    ensures KnownSha256(v, d.targets, other) == KnownSha256(v0, d0.targets, other)
  {
    assert other in d.targets - {name} <==> other in d0.targets - {name};
    assert other in v - {name} <==> other in v0 - {name};
    assert other in d.targets ==> (d.targets - {name})[other] == (d0.targets - {name})[other];
    assert other in v ==> (v - {name})[other] == (v0 - {name})[other];
  }

  /** Phase 1 for one file: verified in place, or missing (deleted if it does not match). */
  method InspectFile(store: Store, records: Records, f: ModelFile, recheck: bool) returns (absent: bool)
    requires Sound(store, records)
    modifies store`disk, store`history, store`hashed, records
    ensures Sound(store, records)
    ensures OthersSame(old(store.disk), store.disk, old(records.verified), records.verified, f.name)
    ensures if absent then f.name !in store.disk.targets else Kept(store, records, f)
    ensures absent <==> !InPlace(store.hash, old(store.disk), f)
    ensures InPlace(store.hash, store.disk, f) <==> InPlace(store.hash, old(store.disk), f)
    ensures store.history == old(store.history) || store.history == old(store.history) + [store.disk]
    ensures store.disk.free >= old(store.disk.free)
    ensures KnownSha256(old(records.verified), old(store.disk.targets), f.name) == Some(f.sha256) ==>
      && !absent && store.disk == old(store.disk) && records.verified == old(records.verified)
      && (old(records.failed) == [] ==> records.failed == [])
      && store.hashed == old(store.hashed) + if recheck then 1 else 0
  {
    hide Stamped, Truthful;
    ForgetKeeps(store.hash, store.disk, f.name, records.verified);
    if f.name !in store.disk.targets {
      records.Forget(f.name);
      return true;
    }
    var x := store.disk.targets[f.name];
    if KnownSha256(records.verified, store.disk.targets, f.name).Some? {
      KnownIsTrue(store.hash, store.disk, f.name, records.verified);
    }
    var known := if recheck then None else KnownSha256(records.verified, store.disk.targets, f.name);
    if known.None? {
      RememberKeeps(store.hash, store.disk, f.name, records.verified);
      var sha := store.HashOf(x.content);
      known := Some(sha);
      records.Remember(x, f.name, sha);
    }
    if known.value == f.sha256 { return false; }
    UnlinkKeeps(store.hash, store.disk, f.name, LoadVerified(store.disk.state));
    UnlinkKeeps(store.hash, store.disk, f.name, records.verified);
    ForgetKeeps(store.hash, UnlinkTarget(store.disk, f.name), f.name, records.verified);
    store.Commit(UnlinkTarget(store.disk, f.name));
    records.Forget(f.name);
    return true;
  }

  /** All files are in place, with matching records. */
  ghost predicate AllKnown(verified: Verified, d: Disk, files: seq<ModelFile>) {
    forall f :: f in files ==> KnownSha256(verified, d.targets, f.name) == Some(f.sha256)
  }

  lemma NothingMissing()
    ensures DistinctNames([]) && DistinctHashes([])
  {
  }

  /** Inspecting one more file changes nothing about the ones before it. */
  lemma InspectStep(hash: Hash, d0: Disk, d: Disk, v0: Verified, v: Verified, files: seq<ModelFile>, missing: seq<ModelFile>, i: nat)
    requires i < |files| && DistinctNames(files)
    requires OthersSame(d0, d, v0, v, files[i].name)
    requires forall j :: 0 <= j < i ==> files[j] in missing || KeptIn(hash, d0, v0, files[j])
    requires forall f :: f in missing ==> f in files[..i] && f.name !in d0.targets
    requires DistinctNames(missing) && (DistinctHashes(files) ==> DistinctHashes(missing))
    ensures DistinctNames(missing + [files[i]])
    ensures DistinctHashes(files) ==> DistinctHashes(missing + [files[i]])
    ensures d.partials == d0.partials && d.state == d0.state
    ensures forall j :: 0 <= j < i ==> files[j] in missing || KeptIn(hash, d, v, files[j])
    ensures forall f :: f in missing ==> f in files[..i + 1] && f.name !in d.targets
    ensures forall j :: 0 <= j < |files| && j != i ==> (InPlace(hash, d, files[j]) <==> InPlace(hash, d0, files[j]))
  {
    forall j | 0 <= j < |files| && j != i ensures InPlace(hash, d, files[j]) <==> InPlace(hash, d0, files[j]) {
      OthersKept(d0, d, v0, v, files[i].name, files[j].name);
    }
    forall j | 0 <= j < i
      ensures files[j].name != files[i].name
      ensures files[j].name !in d0.targets ==> files[j].name !in d.targets
      ensures KeptIn(hash, d0, v0, files[j]) ==> KeptIn(hash, d, v, files[j])
    {
      OthersKept(d0, d, v0, v, files[i].name, files[j].name);
    }
  }

  lemma OneMoreNotInPlace(hash: Hash, d: Disk, files: seq<ModelFile>, i: nat)
    ensures NotInPlace(hash, d, files[..0]) == []
    ensures i < |files| ==>
      NotInPlace(hash, d, files[..i + 1]) == NotInPlace(hash, d, files[..i]) + if InPlace(hash, d, files[i]) then [] else [files[i]]
  {
    if i < |files| { assert files[..i + 1][..i] == files[..i]; }
  }

  lemma SameInPlace(hash: Hash, files: seq<ModelFile>, d0: Disk, d: Disk)
    requires forall j :: 0 <= j < |files| ==> (InPlace(hash, d, files[j]) <==> InPlace(hash, d0, files[j]))
    requires d.partials == d0.partials && d.free >= d0.free
    ensures Untouched(hash, files, d0, d)
  {
    hide InPlace;
  }

  /** Phase 1: which files are already in place and verified? */
  method Inspect(store: Store, records: Records, files: seq<ModelFile>, recheck: bool) returns (missing: seq<ModelFile>)
    requires DistinctNames(files) && Sound(store, records)
    modifies store`disk, store`history, store`hashed, records
    ensures Sound(store, records) && old(store.history) <= store.history
    ensures var d0, d := old(store.disk), store.disk;
      && d.partials == d0.partials && d.state == d0.state && d.free >= d0.free
    ensures Good(store.hash, store.history, |old(store.history)|, true, old(store.disk).free)
    ensures forall f :: f in files ==> f in missing || Kept(store, records, f)
    ensures forall f :: f in missing ==> f in files && f.name !in store.disk.targets
    ensures DistinctNames(missing) && (DistinctHashes(files) ==> DistinctHashes(missing))
    ensures missing == NotInPlace(store.hash, old(store.disk), files)
    ensures Untouched(store.hash, files, old(store.disk), store.disk)
    ensures AllUntouched(store.hash, files, old(store.disk), store.history, |old(store.history)|)
    ensures AllKnown(old(records.verified), old(store.disk), files) ==>
      && missing == [] && store.disk == old(store.disk) && records.verified == old(records.verified)
      && (old(records.failed) == [] ==> records.failed == [])
      && store.hashed == old(store.hashed) + if recheck then |files| else 0
  {
    hide Stamped, Truthful, Good, OthersSame, KeptIn, KnownSha256, DistinctNames, DistinctHashes, InPlace, NotInPlace, Untouched, AllUntouched;
    hide SameFor;
    ghost var d0, n := store.disk, |store.history|;
    NothingCommitted(store.hash, store.history, d0.free);
    NothingTouched(store.hash, files, d0, store.history);
    NothingMissing();
    ghost var settled := AllKnown(records.verified, store.disk, files);
    missing := [];
    assert NotInPlace(store.hash, d0, files[..0]) == [] by { OneMoreNotInPlace(store.hash, d0, files, 0); }
    for i := 0 to |files|
      invariant Sound(store, records) && old(store.history) <= store.history
      invariant store.disk.partials == d0.partials && store.disk.state == d0.state && store.disk.free >= d0.free
      invariant Good(store.hash, store.history, n, true, d0.free)
      invariant forall j :: 0 <= j < i ==> files[j] in missing || Kept(store, records, files[j])
      invariant forall f :: f in missing ==> f in files[..i] && f.name !in store.disk.targets
      invariant DistinctNames(missing) && (DistinctHashes(files) ==> DistinctHashes(missing))
      invariant missing == NotInPlace(store.hash, d0, files[..i])
      invariant forall j :: 0 <= j < |files| ==> (InPlace(store.hash, store.disk, files[j]) <==> InPlace(store.hash, d0, files[j]))
      invariant AllUntouched(store.hash, files, d0, store.history, n)
      invariant settled ==>
        && missing == [] && store.disk == d0 && records.verified == old(records.verified)
        && (old(records.failed) == [] ==> records.failed == [])
        && store.hashed == old(store.hashed) + if recheck then i else 0
    {
      var f := files[i];
      ghost var d1, v1, h1 := store.disk, records.verified, store.history;
      var absent := InspectFile(store, records, f, recheck);
      GoodExtends(store.hash, h1, n, true, d0.free, store.disk);
      InspectStep(store.hash, d1, store.disk, v1, records.verified, files, missing, i);
      OneMoreNotInPlace(store.hash, d0, files, i);
      SameInPlace(store.hash, files, d0, store.disk);
      AllUntouchedExtends(store.hash, files, d0, h1, n, store.disk);
      if absent { missing := missing + [f]; }
    }
    SameInPlace(store.hash, files, d0, store.disk);
    assert files[..|files|] == files;
  }

  /** Phase 2: `remaining`. */
  method CountRemaining(store: Store, missing: seq<ModelFile>) returns (remaining: nat)
    ensures remaining == Remaining(missing, store.disk.partials)
  {
    remaining := 0;
    assert missing[0..] == missing;
    for i := 0 to |missing|
      invariant remaining + Remaining(missing[i..], store.disk.partials) == Remaining(missing, store.disk.partials)
    {
      var f := missing[i];
      var have := SizeOf(store.disk.partials, f.sha256);
      remaining := remaining + if have <= f.size then f.size - have else f.size;
      assert missing[i..][0] == f && missing[i..][1..] == missing[i + 1..];
    }
    assert missing[|missing|..] == [];
  }

  ghost predicate AllBounded(missing: seq<ModelFile>, server: Server) {
    forall f :: f in missing ==> Bounded(f, server)
  }

  ghost predicate AllHonourRanges(missing: seq<ModelFile>, server: Server) {
    forall f :: f in missing ==> HonoursRanges(f, server)
  }

  /** A download keeps the disk safe, and never uses more room than the file still needed. */
  lemma DownloadKeeps(hash: Hash, d0: Disk, d: Disk, f: ModelFile, v: Verified)
    requires Safe(hash, d0) && Truthful(hash, d0, v) && OnlyPartial(d0, d, f.sha256)
    ensures Safe(hash, d) && Truthful(hash, d, v)
    ensures Length(Part(d, f.sha256)) <= f.size ==> d.free >= d0.free - Need(f, d0.partials)
  {
    OnlyPartialKeeps(hash, d0, d, f.sha256, v);
    OnlyPartialKeeps(hash, d0, d, f.sha256, LoadVerified(d0.state));
  }

  /** So do all the disks it passes through. */
  lemma DownloadStaysGood(hash: Hash, h0: seq<Disk>, h: seq<Disk>, d0: Disk, n: nat, f: ModelFile,
                          server: Server, content: Bytes, bounded: bool, floor: int)
    requires h0 <= h && Good(hash, h0, n, bounded, floor) && Safe(hash, d0)
    requires Passes(d0, h[|h0|..], f.sha256)
    requires var p := Part(d0, f.sha256);
      Clean(Promised(p, f, server, content), h[|h0|..], f, Length(Usable(p, f.size)), content)
    requires bounded ==> Bounded(f, server) && floor <= d0.free - Need(f, d0.partials)
    ensures Good(hash, h, n, bounded, floor)
  {
    forall i | |h0| <= i < |h|
      ensures Safe(hash, h[i]) && (bounded ==> h[i].free >= floor)
    {
      assert h[i] == h[|h0|..][i - |h0|];
      DownloadKeeps(hash, d0, h[i], f, LoadVerified(d0.state));
    }
  }

  /** Deletes a download that does not match the registry, and marks the file as failed. */
  method Discard(store: Store, records: Records, f: ModelFile, ghost n: nat, ghost bounded: bool, ghost floor: int)
    requires Sound(store, records) && Good(store.hash, store.history, n, bounded, floor)
    requires f.sha256 in store.disk.partials && (bounded ==> floor <= store.disk.free)
    modifies store`disk, store`history, records
    ensures Sound(store, records) && Good(store.hash, store.history, n, bounded, floor)
    ensures old(store.history) <= store.history
    ensures var d := UnlinkPartial(old(store.disk), f.sha256);
      store.disk == SaveState(d, records.verified, records.failed)
    ensures records.verified == old(records.verified)
    ensures records.failed == old(records.failed) + if f.name in old(records.failed) then [] else [f.name]
  {
    hide Stamped, Truthful, Good;
    var d := UnlinkPartial(store.disk, f.sha256);
    UnlinkKeeps(store.hash, store.disk, f.sha256, LoadVerified(store.disk.state));
    UnlinkKeeps(store.hash, store.disk, f.sha256, records.verified);
    GoodExtends(store.hash, store.history, n, bounded, floor, d);
    store.Commit(d);
    if f.name !in records.failed {
      records.failed := records.failed + [f.name];
    }
    Save(store, records, n, bounded, floor);
  }

  /** `records.save`. */
  method Save(store: Store, records: Records, ghost n: nat, ghost bounded: bool, ghost floor: int)
    requires Sound(store, records) && Good(store.hash, store.history, n, bounded, floor)
    requires bounded ==> floor <= store.disk.free
    modifies store`disk, store`history
    ensures Sound(store, records) && Good(store.hash, store.history, n, bounded, floor)
    ensures store.disk == SaveState(old(store.disk), records.verified, records.failed)
    ensures store.history == old(store.history) + [store.disk]
  {
    hide Stamped, Truthful, Good;
    var d := SaveState(store.disk, records.verified, records.failed);
    SaveKeeps(store.hash, store.disk, records.verified, records.failed);
    GoodExtends(store.hash, store.history, n, bounded, floor, d);
    store.Commit(d);
  }

  /** Moves a verified download into place and remembers its hash. */
  method Place(store: Store, records: Records, f: ModelFile, ghost n: nat, ghost bounded: bool, ghost floor: int)
    requires Sound(store, records) && Good(store.hash, store.history, n, bounded, floor)
    requires f.sha256 in store.disk.partials && store.hash(store.disk.partials[f.sha256].content) == f.sha256
    requires f.name !in store.disk.targets && (bounded ==> floor <= store.disk.free)
    modifies store`disk, store`history, records
    ensures Sound(store, records) && Good(store.hash, store.history, n, bounded, floor)
    ensures var d := MoveIntoPlace(old(store.disk), f.sha256, f.name);
      && store.disk == SaveState(d, records.verified, records.failed)
      && store.history == old(store.history) + [d, store.disk]
      && records.verified == old(records.verified)[f.name := RecordOf(d.targets[f.name], f.sha256)]
      && records.failed == RemoveFirst(old(records.failed), f.name)
  {
    hide Stamped, Truthful, Good;
    var d := MoveIntoPlace(store.disk, f.sha256, f.name);
    MoveKeeps(store.hash, store.disk, f.sha256, f.name, LoadVerified(store.disk.state));
    MoveKeeps(store.hash, store.disk, f.sha256, f.name, records.verified);
    RememberKeeps(store.hash, d, f.name, records.verified);
    GoodExtends(store.hash, store.history, n, bounded, floor, d);
    store.Commit(d);
    records.Remember(d.targets[f.name], f.name, f.sha256);
    Save(store, records, n, bounded, floor);
  }

  /** A download from a reliable server: what it leaves, and what it took. */
  lemma ReliableDownload(hash: Hash, contents: Contents, f: ModelFile, server: Server, p: Option<Bytes>)
    requires Reliable(hash, contents, f, server) && IsPrefix(Usable(p, f.size), contents(f.sha256))
    ensures var r := Download.Downloaded(p, f, server);
      && IsPrefix(r.partial, contents(f.sha256)) && Length(r.partial) <= f.size
      && Missing(r.partial, f) + r.received == Missing(p, f)
      && (r.outcome == Done ==> r.partial == Some(contents(f.sha256)))
      && r.received == Length(r.partial) - Length(Usable(p, f.size))
  {
    HonestIsBounded(contents(f.sha256), f, server);
    ResumeKeepsPrefix(p, f, server, 1, contents(f.sha256));
    NothingIsFetchedTwice(p, f, server, 1);
  }

  /** The download of one file, which touches nothing but its partial file. */
  method DownloadFile(store: Store, records: Records, f: ModelFile, server: Server, ghost contents: Contents,
                      ghost n: nat, ghost bounded: bool, ghost floor: int)
      returns (outcome: Outcome)
    requires Sound(store, records) && Good(store.hash, store.history, n, bounded, floor)
    requires f.name !in store.disk.targets
    requires bounded ==> Bounded(f, server) && floor <= store.disk.free - Need(f, store.disk.partials)
    modifies store`disk, store`history, store`fetched, store`requests
    ensures Sound(store, records) && Good(store.hash, store.history, n, bounded, floor)
    ensures old(store.history) <= store.history && store.fetched >= old(store.fetched)
    ensures store.disk.targets == old(store.disk.targets)
    ensures store.disk.partials - {f.sha256} == old(store.disk.partials) - {f.sha256}
    ensures outcome == Done ==>
      && f.sha256 in store.disk.partials && Need(f, store.disk.partials) == 0
      && (bounded ==> store.disk.free >= old(store.disk.free) - Need(f, old(store.disk.partials)))
      && (bounded && HonoursRanges(f, server) ==>
            store.fetched == old(store.fetched) + Need(f, old(store.disk.partials)))
    ensures Reliable(store.hash, contents, f, server) && ResumableFor(old(store.disk), contents, f) ==>
      && !InPlace(store.hash, store.disk, f) && ResumableFor(store.disk, contents, f)
      && (outcome == Done ==> store.hash(store.disk.partials[f.sha256].content) == f.sha256)
      && Need(f, store.disk.partials) + store.fetched == Need(f, old(store.disk.partials)) + old(store.fetched)
      && store.disk.free + store.fetched >= old(store.disk.free) + old(store.fetched)
      && AllStepKeep(store.hash, contents, f, old(store.disk), store.history, |old(store.history)|)
      && StepKeeps(store.hash, contents, f, old(store.disk), store.disk)
    ensures outcome != Done ==> FailsFor(f, server)
    ensures Delivered(store.hash, contents, f, server) && ResumableFor(old(store.disk), contents, f) ==>
      outcome == Done && store.hash(store.disk.partials[f.sha256].content) == f.sha256
  {
    hide Stamped, Truthful, OnlyPartial, Passes, Attempts, Bounded, HonoursRanges, Good, Reliable, ResumableFor, InPlace, StepKeeps, AllStepKeep, Clean, Promised, Delivered, FailsFor;
    ghost var d0, h0 := store.disk, store.history;
    ghost var fetched0 := store.fetched;
    outcome := Download.Run(store, f, server, contents(f.sha256));
    if Reliable(store.hash, contents, f, server) && ResumableFor(d0, contents, f) {
      WorldAfterDownload(store.hash, contents, f, server, d0, store.disk, store.fetched - fetched0);
      DownloadedKeeps(store.hash, contents, f, server, d0, store.disk, h0, store.history);
    }
    DownloadByReplies(store.hash, contents, f, server, d0, store.disk);
    DownloadStaysGood(store.hash, h0, store.history, d0, n, f, server, contents(f.sha256), bounded, floor);
    DownloadKeeps(store.hash, d0, store.disk, f, records.verified);
    DownloadFrame(d0, store.disk, f, server);
    DoneIsExact(Part(d0, f.sha256), f, server, 1);
    if bounded && HonoursRanges(f, server) { NothingIsFetchedTwice(Part(d0, f.sha256), f, server, 1); }
  }

  /** What the answers alone say of a download. */
  lemma DownloadByReplies(hash: Hash, contents: Contents, f: ModelFile, server: Server, d0: Disk, d: Disk)
    requires Part(d, f.sha256) == Download.Downloaded(Part(d0, f.sha256), f, server).partial
    ensures var r := Download.Downloaded(Part(d0, f.sha256), f, server);
      && (r.outcome != Done ==> FailsFor(f, server))
      && (Delivered(hash, contents, f, server) && ResumableFor(d0, contents, f) ==>
            r.outcome == Done && f.sha256 in d.partials && hash(d.partials[f.sha256].content) == f.sha256)
  {
    var p := Part(d0, f.sha256);
    if Download.Downloaded(p, f, server).outcome != Done { var offsets := FailureIsAnswered(p, f, server, 1); }
    if Delivered(hash, contents, f, server) && ResumableFor(d0, contents, f) {
      DeliveredIsDone(p, f, server, 1);
      ResumeKeepsPrefix(p, f, server, 1, contents(f.sha256));
    }
  }

  /** Phase 3 for one file: download, verify, move into place or delete. */
  method FetchFile(store: Store, records: Records, f: ModelFile, server: Server, ghost contents: Contents,
                   ghost n: nat, ghost bounded: bool, ghost floor: int)
      returns (outcome: Outcome, matched: bool)
    requires Sound(store, records) && Good(store.hash, store.history, n, bounded, floor)
    requires f.name !in store.disk.targets
    requires bounded ==> Bounded(f, server) && floor <= store.disk.free - Need(f, store.disk.partials)
    modifies store`disk, store`history, store`fetched, store`requests, store`hashed, records
    ensures Sound(store, records) && Good(store.hash, store.history, n, bounded, floor)
    ensures old(store.history) <= store.history
    ensures store.disk.targets - {f.name} == old(store.disk.targets) - {f.name}
    ensures records.verified - {f.name} == old(records.verified) - {f.name}
    ensures store.disk.partials - {f.sha256} == old(store.disk.partials) - {f.sha256}
    ensures store.fetched >= old(store.fetched)
    ensures Reliable(store.hash, contents, f, server) && ResumableFor(old(store.disk), contents, f) ==>
      && (outcome == Done <==> InPlace(store.hash, store.disk, f)) && (outcome == Done ==> matched)
      && ResumableFor(store.disk, contents, f)
      && (if outcome == Done then 0 else Need(f, store.disk.partials)) + store.fetched
         == Need(f, old(store.disk.partials)) + old(store.fetched)
      && store.disk.free + store.fetched >= old(store.disk.free) + old(store.fetched)
      && AllStepKeep(store.hash, contents, f, old(store.disk), store.history, |old(store.history)|)
    ensures outcome != Done ==> FailsFor(f, server)
    ensures Delivered(store.hash, contents, f, server) && ResumableFor(old(store.disk), contents, f) ==>
      outcome == Done && matched && ResumableFor(store.disk, contents, f)
    ensures outcome == Done ==>
      && store.disk.partials == old(store.disk.partials) - {f.sha256}
      && store.disk.state == Saved(records.verified, records.failed)
      && (bounded ==> store.disk.free >= old(store.disk.free) - Need(f, old(store.disk.partials)))
      && (bounded && HonoursRanges(f, server) ==>
            store.fetched == old(store.fetched) + Need(f, old(store.disk.partials)))
      && (if matched then Kept(store, records, f)
          else f.name !in store.disk.targets && f.name in records.failed)
      && (forall name :: name in old(records.failed) && name != f.name ==> name in records.failed)
  {
    hide Stamped, Truthful, Bounded, HonoursRanges, Good, Reliable, ResumableFor, InPlace, StepKeeps, AllStepKeep, Delivered, FailsFor;
    ghost var d0, h0 := store.disk, store.history;
    ghost var world := Reliable(store.hash, contents, f, server) && ResumableFor(d0, contents, f);
    matched := false;
    outcome := DownloadFile(store, records, f, server, contents, n, bounded, floor);
    if outcome != Done { return; }
    ghost var h1, d1 := store.history, store.disk;
    matched := VerifyFile(store, records, f, contents, n, bounded, floor);
    if world { MovedKeeps(store.hash, contents, f, d0, d1, records.verified, records.failed, h1, |h0|); }
  }

  lemma DownloadedKeeps(hash: Hash, contents: Contents, f: ModelFile, server: Server, d0: Disk, d: Disk, h0: seq<Disk>, h: seq<Disk>)
    requires Reliable(hash, contents, f, server) && ResumableFor(d0, contents, f) && f.name !in d0.targets
    requires h0 <= h && Passes(d0, h[|h0|..], f.sha256) && OnlyPartial(d0, d, f.sha256)
    requires var p := Part(d0, f.sha256);
      && Clean(Promised(p, f, server, contents(f.sha256)), h[|h0|..], f, Length(Usable(p, f.size)), contents(f.sha256))
      && Part(d, f.sha256) == Download.Downloaded(p, f, server).partial
    ensures AllStepKeep(hash, contents, f, d0, h, |h0|) && StepKeeps(hash, contents, f, d0, d)
  {
    DownloadSteps(hash, contents, f, server, d0, h0, h);
    ReliableDownload(hash, contents, f, server, Part(d0, f.sha256));
    DownloadStep(hash, contents, f, d0, d);
  }

  lemma MovedKeeps(hash: Hash, contents: Contents, f: ModelFile, d0: Disk, d1: Disk, v: Verified, failed: seq<Name>,
                   h1: seq<Disk>, n: nat)
    requires AllStepKeep(hash, contents, f, d0, h1, n) && StepKeeps(hash, contents, f, d0, d1) && f.name !in d1.targets
    requires f.sha256 in d1.partials && hash(d1.partials[f.sha256].content) == f.sha256
    ensures var d := MoveIntoPlace(d1, f.sha256, f.name);
      AllStepKeep(hash, contents, f, d0, h1 + [d, SaveState(d, v, failed)], n)
  {
    MoveStep(hash, contents, f, d0, d1, v, failed);
    hide StepKeeps;
  }

  /** The end of phase 3 for one file: its hash decides whether it is moved into place or deleted. */
  method VerifyFile(store: Store, records: Records, f: ModelFile, ghost contents: Contents,
                    ghost n: nat, ghost bounded: bool, ghost floor: int)
      returns (matched: bool)
    requires Sound(store, records) && Good(store.hash, store.history, n, bounded, floor)
    requires f.name !in store.disk.targets && f.sha256 in store.disk.partials && (bounded ==> floor <= store.disk.free)
    modifies store`disk, store`history, store`hashed, records
    ensures Sound(store, records) && Good(store.hash, store.history, n, bounded, floor)
    ensures old(store.history) <= store.history && store.disk.free >= old(store.disk).free
    ensures store.disk.partials == old(store.disk.partials) - {f.sha256} && ResumableFor(store.disk, contents, f)
    ensures store.disk.targets - {f.name} == old(store.disk.targets) - {f.name}
    ensures records.verified - {f.name} == old(records.verified) - {f.name}
    ensures store.disk.state == Saved(records.verified, records.failed)
    ensures matched <==> store.hash(old(store.disk.partials)[f.sha256].content) == f.sha256
    ensures matched ==>
      var d := MoveIntoPlace(old(store.disk), f.sha256, f.name);
      && store.disk == SaveState(d, records.verified, records.failed)
      && store.history == old(store.history) + [d, store.disk]
    ensures if matched then Kept(store, records, f) && InPlace(store.hash, store.disk, f)
            else f.name !in store.disk.targets && f.name in records.failed
    ensures forall name :: name in old(records.failed) && name != f.name ==> name in records.failed
  {
    hide Stamped, Truthful, Good;
    var actual := store.HashOf(store.disk.partials[f.sha256].content);
    matched := actual == f.sha256;
    if matched {
      Place(store, records, f, n, bounded, floor);
    } else {
      Discard(store, records, f, n, bounded, floor);
    }
  }

  lemma WorldAfterDownload(hash: Hash, contents: Contents, f: ModelFile, server: Server, d0: Disk, d: Disk, received: nat)
    requires Reliable(hash, contents, f, server) && ResumableFor(d0, contents, f) && OnlyPartial(d0, d, f.sha256)
    requires f.name !in d0.targets
    requires var r := Download.Downloaded(Part(d0, f.sha256), f, server);
      Part(d, f.sha256) == r.partial && received == r.received
    ensures Need(f, d.partials) + received == Need(f, d0.partials) && d.free + received >= d0.free
    ensures ResumableFor(d, contents, f) && !InPlace(hash, d, f)
    ensures Download.Downloaded(Part(d0, f.sha256), f, server).outcome == Done ==>
      f.sha256 in d.partials && hash(d.partials[f.sha256].content) == f.sha256
  {
    ReliableDownload(hash, contents, f, server, Part(d0, f.sha256));
    hide Attempts, Honest, HonoursRanges;
  }

  lemma DownloadFrame(d0: Disk, d: Disk, f: ModelFile, server: Server)
    requires OnlyPartial(d0, d, f.sha256)
    ensures d.targets == d0.targets && d.state == d0.state
    ensures d.partials - {f.sha256} == d0.partials - {f.sha256}
    ensures d.free + SizeOf(d.partials, f.sha256) == d0.free + SizeOf(d0.partials, f.sha256)
  {
  }

  /** Nothing is left to do: every file verified, no failure recorded, no stray partial file. */
  ghost predicate Settled(d: Disk, files: seq<ModelFile>) {
    && LocalStateOf(d, files) == Downloaded
    && d.state.Saved? && d.state.failed == []
    && d.partials.Keys <= Hashes(files)
  }

  /** Where phase 3 stands with `rest` still to fetch. */
  ghost predicate Progress(hash: Hash, d: Disk, v: Verified, failed: seq<Name>, files: seq<ModelFile>,
                           rest: seq<ModelFile>, mismatched: seq<Name>) {
    && DistinctNames(rest)
    && (forall f :: f in rest ==> f in files && f.name !in d.targets)
    && (forall f :: f in files ==> f in rest || f.name in mismatched || KeptIn(hash, d, v, f))
    && (forall name :: name in mismatched ==>
          && name !in d.targets && name in failed
          && (exists f :: f in files && f.name == name) && (forall f :: f in rest ==> f.name != name))
  }

  /** One file further: it is in place, or marked as failed. */
  lemma ProgressStep(hash: Hash, d0: Disk, d: Disk, v0: Verified, v: Verified, failed0: seq<Name>, failed: seq<Name>,
                     files: seq<ModelFile>, rest: seq<ModelFile>, mismatched: seq<Name>, matched: bool)
    requires rest != [] && DistinctNames(files)
    requires Progress(hash, d0, v0, failed0, files, rest, mismatched)
    requires var name := rest[0].name;
      && d.targets - {name} == d0.targets - {name} && v - {name} == v0 - {name}
      && (forall other :: other in failed0 && other != name ==> other in failed)
      && (if matched then KeptIn(hash, d, v, rest[0]) else name !in d.targets && name in failed)
    ensures Progress(hash, d, v, failed, files, rest[1..], if matched then mismatched else mismatched + [rest[0].name])
  {
    var f0, left := rest[0], rest[1..];
    var d1 := d.(partials := d0.partials, state := d0.state);
    assert rest == [f0] + left;
    assert OthersSame(d0, d1, v0, v, f0.name);
    forall f | f in left
      ensures f.name !in d.targets && f.name != f0.name
    {
      OthersKept(d0, d1, v0, v, f0.name, f.name);
    }
    forall f | f in files && f !in left && f.name !in mismatched && f != f0
      ensures KeptIn(hash, d, v, f)
    {
      assert f.name != f0.name;
      OthersKept(d0, d1, v0, v, f0.name, f.name);
    }
    forall name | name in mismatched
      ensures name !in d.targets && name in failed
    {
      assert name != f0.name;
      OthersKept(d0, d1, v0, v, f0.name, name);
    }
  }

  /** Phase 3: download, verify, move into place, file by file. */
  method FetchMissing(store: Store, records: Records, files: seq<ModelFile>, missing: seq<ModelFile>, server: Server,
                      ghost contents: Contents, ghost n: nat, ghost bounded: bool, ghost floor: int)
      returns (failed: Option<Name>, mismatched: seq<Name>)
    requires Sound(store, records) && Good(store.hash, store.history, n, bounded, floor)
    requires DistinctNames(files)
    requires Progress(store.hash, store.disk, records.verified, records.failed, files, missing, [])
    requires store.disk.state == Saved(records.verified, records.failed)
    requires bounded ==> AllBounded(missing, server) && floor <= store.disk.free - Plan(missing, store.disk.partials)
    modifies store`disk, store`history, store`fetched, store`requests, store`hashed, records
    ensures Sound(store, records) && Good(store.hash, store.history, n, bounded, floor)
    ensures old(store.history) <= store.history && (failed.None? && bounded ==> floor <= store.disk.free)
    ensures failed.Some? ==> exists f | f in missing :: f.name == failed.value && FailsFor(f, server)
    ensures AllDelivered(store.hash, contents, files, server) && Resumable(old(store.disk), contents, files) ==>
      failed.None? && mismatched == []
    ensures store.fetched >= old(store.fetched)
    ensures failed.None? ==>
      && store.disk.state == Saved(records.verified, records.failed)
      && store.disk.partials.Keys <= old(store.disk.partials.Keys)
      && Progress(store.hash, store.disk, records.verified, records.failed, files, [], mismatched)
      && (bounded && AllHonourRanges(missing, server) ==>
            store.fetched == old(store.fetched) + Plan(missing, old(store.disk.partials)))
    ensures DistinctHashes(files) && AllReliable(store.hash, contents, files, server) && Resumable(old(store.disk), contents, files) ==>
      && mismatched == []
      && Advances(store.hash, contents, files, old(store.disk), old(store.fetched), store.disk, store.fetched)
      && AllKeep(store.hash, contents, files, old(store.disk), store.history, |old(store.history)|)
    ensures missing == [] ==>
      && failed.None? && mismatched == [] && store.disk == old(store.disk) && records.failed == old(records.failed)
      && records.verified == old(records.verified)
      && store.requests == old(store.requests) && store.hashed == old(store.hashed) && store.fetched == old(store.fetched)
  {
    hide Stamped, Truthful, Good, Progress, Advances, Resumable, DistinctHashes, AllKeep, FailsFor, AllReliable, AllDelivered;
    hide Standing, Safe, Sound, DistinctNames, Bounded, HonoursRanges;
    ghost var start, plan := store.fetched, Plan(missing, store.disk.partials);
    ghost var world := DistinctHashes(files) && AllReliable(store.hash, contents, files, server) && Resumable(store.disk, contents, files);
    ghost var first, h0 := store.disk, store.history;
    if world { NothingAdvanced(store.hash, contents, files, first, start); }
    NothingKept(store.hash, contents, files, first, h0);
    ghost var served := AllDelivered(store.hash, contents, files, server) && Resumable(store.disk, contents, files);
    mismatched := [];
    if missing == [] { return None, []; }
    assert missing[0..] == missing;
    Stands(store, records, files, missing, [], n, bounded, floor);
    var k := 0;
    while k < |missing|
      invariant 0 <= k <= |missing|
      invariant Standing(store, records, files, missing[k..], mismatched, n, bounded, floor)
      invariant old(store.history) <= store.history && store.fetched >= start
      invariant store.disk.partials.Keys <= old(store.disk.partials.Keys)
      invariant bounded && AllHonourRanges(missing, server) ==>
        store.fetched + Plan(missing[k..], store.disk.partials) == start + plan
      invariant world ==>
        && mismatched == [] && Advances(store.hash, contents, files, first, start, store.disk, store.fetched)
        && AllKeep(store.hash, contents, files, first, store.history, |h0|)
      invariant served ==> mismatched == [] && Resumable(store.disk, contents, files)
    {
      ghost var d1, fetched1, h1 := store.disk, store.fetched, store.history;
      assert missing[k..][0] == missing[k] && missing[k..][1..] == missing[k + 1..];
      if world { AdvancedIsResumable(store.hash, contents, files, first, start, d1, fetched1); }
      var outcome: Outcome;
      outcome, mismatched := FetchNext(store, records, files, missing[k..], mismatched, server, contents, n, bounded, floor);
      if world {
        WorldGoesOn(store.hash, contents, files, first, start, d1, fetched1, store.disk, store.fetched, h1, store.history, |h0|);
      }
      if outcome != Done { return Some(missing[k].name), mismatched; }
      k := k + 1;
    }
    assert missing[k..] == [];
    StandsStill(store, records, files, mismatched, n, bounded, floor);
    failed := None;
  }

  /** Where the loop stands before the files in `rest`. */
  ghost predicate Standing(store: Store, records: Records, files: seq<ModelFile>, rest: seq<ModelFile>, mismatched: seq<Name>,
                           n: nat, bounded: bool, floor: int)
    reads store, records
  {
    && Sound(store, records) && Good(store.hash, store.history, n, bounded, floor)
    && store.disk.state == Saved(records.verified, records.failed)
    && Progress(store.hash, store.disk, records.verified, records.failed, files, rest, mismatched)
    && (bounded ==> floor <= store.disk.free - Plan(rest, store.disk.partials))
  }

  lemma Stands(store: Store, records: Records, files: seq<ModelFile>, rest: seq<ModelFile>, mismatched: seq<Name>,
               n: nat, bounded: bool, floor: int)
    requires Sound(store, records) && Good(store.hash, store.history, n, bounded, floor)
    requires store.disk.state == Saved(records.verified, records.failed)
    requires Progress(store.hash, store.disk, records.verified, records.failed, files, rest, mismatched)
    requires bounded ==> floor <= store.disk.free - Plan(rest, store.disk.partials)
    ensures Standing(store, records, files, rest, mismatched, n, bounded, floor)
  {
  }

  lemma StandsStill(store: Store, records: Records, files: seq<ModelFile>, mismatched: seq<Name>, n: nat, bounded: bool, floor: int)
    requires Standing(store, records, files, [], mismatched, n, bounded, floor)
    ensures Sound(store, records) && Good(store.hash, store.history, n, bounded, floor)
    ensures store.disk.state == Saved(records.verified, records.failed)
    ensures Progress(store.hash, store.disk, records.verified, records.failed, files, [], mismatched)
    ensures bounded ==> floor <= store.disk.free
  {
  }

  /** The loop's step for the first of the files that are left. */
  method FetchNext(store: Store, records: Records, files: seq<ModelFile>, rest: seq<ModelFile>, mismatched: seq<Name>,
                   server: Server, ghost contents: Contents, ghost n: nat, ghost bounded: bool, ghost floor: int)
      returns (outcome: Outcome, mismatched': seq<Name>)
    requires rest != [] && DistinctNames(files) && (bounded ==> Bounded(rest[0], server))
    requires Standing(store, records, files, rest, mismatched, n, bounded, floor)
    modifies store`disk, store`history, store`fetched, store`requests, store`hashed, records
    ensures Sound(store, records) && Good(store.hash, store.history, n, bounded, floor)
    ensures old(store.history) <= store.history && store.fetched >= old(store.fetched)
    ensures outcome == Done ==>
      && Standing(store, records, files, rest[1..], mismatched', n, bounded, floor)
      && store.disk.partials == old(store.disk.partials) - {rest[0].sha256}
      && (bounded && HonoursRanges(rest[0], server) ==>
            store.fetched == old(store.fetched) + Need(rest[0], old(store.disk.partials)))
    ensures outcome != Done ==> FailsFor(rest[0], server) && mismatched' == mismatched
    ensures AllDelivered(store.hash, contents, files, server) && Resumable(old(store.disk), contents, files) ==>
      outcome == Done && mismatched' == mismatched && Resumable(store.disk, contents, files)
    ensures DistinctHashes(files) && AllReliable(store.hash, contents, files, server) && Resumable(old(store.disk), contents, files) ==>
      && mismatched' == mismatched
      && Advances(store.hash, contents, files, old(store.disk), old(store.fetched), store.disk, store.fetched)
      && AllKeep(store.hash, contents, files, old(store.disk), store.history, |old(store.history)|)
  {
    hide Stamped, Truthful, Good, Bounded, HonoursRanges, Need, Progress, Advances, Resumable, ResumableFor, Reliable, InPlace;
    hide DistinctHashes, DistinctNames, AllKeep, AllStepKeep, Delivered, FailsFor, AllReliable, AllDelivered;
    var f := rest[0];
    ghost var d0, v0, failed0, fetched0, h0 := store.disk, records.verified, records.failed, store.fetched, store.history;
    ProgressHead(store.hash, d0, v0, failed0, files, rest, mismatched);
    ServersOf(store.hash, contents, files, f, server);
    if Resumable(d0, contents, files) { OneIsResumable(store.hash, d0, contents, files, f); }
    mismatched' := mismatched;
    var matched: bool;
    outcome, matched := FetchFile(store, records, f, server, contents, n, bounded, floor);
    if DistinctHashes(files) && AllReliable(store.hash, contents, files, server) && Resumable(d0, contents, files) {
      AdvancesByOne(store.hash, contents, files, f, d0, fetched0, store.disk, store.fetched);
      StepsAreKeeping(store.hash, contents, files, f, d0, store.history, |h0|);
    }
    if outcome == Done {
      if Resumable(d0, contents, files) { StaysResumable(d0, store.disk, contents, files, f); }
      ProgressStep(store.hash, d0, store.disk, v0, records.verified, failed0, records.failed, files, rest, mismatched, matched);
      if !matched { mismatched' := mismatched + [f.name]; }
    }
  }

  /** What holds of each step holds of the steps so far. */
  lemma WorldGoesOn(hash: Hash, contents: Contents, files: seq<ModelFile>, d0: Disk, fetched0: nat, d1: Disk, fetched1: nat,
                    d: Disk, fetched: nat, h1: seq<Disk>, h2: seq<Disk>, n: nat)
    requires h1 <= h2 && fetched1 >= fetched0
    requires Advances(hash, contents, files, d0, fetched0, d1, fetched1) && Advances(hash, contents, files, d1, fetched1, d, fetched)
    requires AllKeep(hash, contents, files, d0, h1, n) && AllKeep(hash, contents, files, d1, h2, |h1|)
    ensures Advances(hash, contents, files, d0, fetched0, d, fetched) && AllKeep(hash, contents, files, d0, h2, n)
  {
    hide Keeps, AllKeep, Advances;
    AdvancesChain(hash, contents, files, d0, fetched0, d1, fetched1, d, fetched);
    AdvancesKeeps(hash, contents, files, d0, fetched0, d1, fetched1);
    AllKeepChains(hash, contents, files, d0, d1, h1, h2, n);
  }

  lemma ServersOf(hash: Hash, contents: Contents, files: seq<ModelFile>, f: ModelFile, server: Server)
    requires f in files
    ensures AllReliable(hash, contents, files, server) ==> Reliable(hash, contents, f, server)
    ensures AllDelivered(hash, contents, files, server) ==> Delivered(hash, contents, f, server)
  {
  }

  lemma OneIsResumable(hash: Hash, d: Disk, contents: Contents, files: seq<ModelFile>, f: ModelFile)
    requires Resumable(d, contents, files) && f in files
    ensures ResumableFor(d, contents, f) && (f.name !in d.targets ==> !InPlace(hash, d, f))
  {
  }

  lemma StaysResumable(d0: Disk, d: Disk, contents: Contents, files: seq<ModelFile>, f: ModelFile)
    requires Resumable(d0, contents, files) && d.partials == d0.partials - {f.sha256}
    ensures Resumable(d, contents, files)
  {
    forall g | g in files ensures ResumableFor(d, contents, g) { assert ResumableFor(d0, contents, g); }
  }

  lemma NothingKept(hash: Hash, contents: Contents, files: seq<ModelFile>, d: Disk, history: seq<Disk>)
    ensures AllKeep(hash, contents, files, d, history, |history|)
  {
  }

  lemma NothingAdvanced(hash: Hash, contents: Contents, files: seq<ModelFile>, d: Disk, fetched: nat)
    requires Resumable(d, contents, files)
    ensures Advances(hash, contents, files, d, fetched, d, fetched)
  {
  }

  lemma AdvancedIsResumable(hash: Hash, contents: Contents, files: seq<ModelFile>, d0: Disk, fetched0: nat, d: Disk, fetched: nat)
    requires Advances(hash, contents, files, d0, fetched0, d, fetched)
    ensures Resumable(d, contents, files)
  {
  }

  lemma ProgressHead(hash: Hash, d: Disk, v: Verified, failed: seq<Name>, files: seq<ModelFile>,
                     rest: seq<ModelFile>, mismatched: seq<Name>)
    requires rest != [] && Progress(hash, d, v, failed, files, rest, mismatched)
    ensures rest[0] in files && rest[0].name !in d.targets
  {
  }

  lemma ProgressStart(hash: Hash, d: Disk, v: Verified, failed: seq<Name>, files: seq<ModelFile>, missing: seq<ModelFile>)
    requires DistinctNames(missing)
    requires forall f :: f in missing ==> f in files && f.name !in d.targets
    requires forall f :: f in files ==> f in missing || KeptIn(hash, d, v, f)
    ensures Progress(hash, d, v, failed, files, missing, [])
  {
  }

  lemma ProgressEnd(hash: Hash, d: Disk, v: Verified, failed: seq<Name>, files: seq<ModelFile>, mismatched: seq<Name>)
    requires Progress(hash, d, v, failed, files, [], mismatched)
    ensures mismatched == [] ==> forall f :: f in files ==> KeptIn(hash, d, v, f)
    ensures forall name :: name in mismatched ==>
      name !in d.targets && name in failed && exists f :: f in files && f.name == name
    ensures mismatched != [] ==> exists f :: f in files && f.name in failed
  {
    if mismatched != [] {
      assert mismatched[0] in mismatched;
    }
  }

  lemma SettledBefore(d: Disk, files: seq<ModelFile>)
    requires Settled(d, files)
    ensures AllKnown(LoadVerified(d.state), d, files) && d.partials.Keys <= Hashes(files)
    ensures d.state == Saved(LoadVerified(d.state), []) && LoadFailed(d.state) == []
  {
  }

  lemma SettledAfter(hash: Hash, d: Disk, verified: Verified, files: seq<ModelFile>)
    requires d.state == Saved(verified, []) && d.partials.Keys <= Hashes(files)
    requires forall f :: f in files ==> KeptIn(hash, d, verified, f)
    ensures Settled(d, files) && forall f :: f in files ==> InPlace(hash, d, f)
  {
  }

  lemma FailedAfter(d: Disk, files: seq<ModelFile>)
    requires exists f :: f in files && f.name in LoadFailed(d.state)
    ensures LocalStateOf(d, files) == FailedVerification
  {
  }

  /** With distinct hashes the disk check counted exactly what phase 3 fetches. */
  lemma MissingIsPlanned(files: seq<ModelFile>, missing: seq<ModelFile>, partials: map<Sha, Node>, server: Server)
    requires forall f :: f in missing ==> f in files
    requires DistinctHashes(missing)
    ensures Plan(missing, partials) == Remaining(missing, partials)
    ensures AllBounded(files, server) ==> AllBounded(missing, server)
    ensures AllHonourRanges(files, server) ==> AllHonourRanges(missing, server)
  {
    RemainingIsExact(missing, partials);
  }

  /** Everything up to the disk check: strays removed, files inspected, records saved. */
  method Survey(store: Store, files: seq<ModelFile>, recheck: bool, ghost contents: Contents, ghost bounded: bool, ghost floor: int)
      returns (records: Records, missing: seq<ModelFile>)
    requires DistinctNames(files) && Safe(store.hash, store.disk) && floor <= store.disk.free
    modifies store`disk, store`history, store`hashed
    ensures fresh(records) && Sound(store, records)
    ensures old(store.history) <= store.history && Good(store.hash, store.history, |old(store.history)|, bounded, floor)
    ensures store.disk.free >= old(store.disk).free
    ensures store.disk.state == Saved(records.verified, records.failed)
    ensures store.disk.partials.Keys <= Hashes(files)
    ensures Progress(store.hash, store.disk, records.verified, records.failed, files, missing, [])
    ensures (forall f :: f in missing ==> f in files && !InPlace(store.hash, old(store.disk), f))
    ensures DistinctHashes(files) ==> DistinctHashes(missing)
    ensures Remaining(missing, store.disk.partials) == Lost(store.hash, old(store.disk), files) == Lost(store.hash, store.disk, files)
    ensures Resumable(old(store.disk), contents, files) ==>
      && Resumable(store.disk, contents, files)
      && AllKeep(store.hash, contents, files, old(store.disk), store.history, |old(store.history)|)
      && Keeps(store.hash, contents, files, old(store.disk), store.disk)
    ensures Settled(old(store.disk), files) ==>
      && missing == [] && store.disk == old(store.disk) && records.failed == []
      && store.hashed == old(store.hashed) + if recheck then |files| else 0
  {
    hide Stamped, Truthful, Good, Progress, Settled, AllKnown, KnownSha256, Hashes, DistinctNames, DistinctHashes;
    hide NotInPlace, Lost, Resumable, Untouched, AllUntouched, Keeps, AllKeep;
    ghost var d0, h0 := store.disk, store.history;
    if Settled(store.disk, files) { SettledBefore(store.disk, files); }
    RemoveStrayPartials(store, files);
    StraysAreUntouched(store.hash, files, d0, store.disk, d0.partials.Keys - Hashes(files));
    records := new Records.Load(store.disk);
    ghost var h1, d1 := store.history, store.disk;
    missing := Inspect(store, records, files, recheck);
    GoodChains(store.hash, h1, store.history, |old(store.history)|, old(store.disk).free, d1.free, bounded, floor);
    ghost var h2, d2 := store.history, store.disk;
    Save(store, records, |old(store.history)|, bounded, floor);
    SurveyKeeps(store.hash, contents, files, d0, d1, d2, records.verified, records.failed, h1, h2, |h0|);
    ProgressStart(store.hash, store.disk, records.verified, records.failed, files, missing);
    SurveyLosesNothing(store.hash, d0, d1, store.disk, contents, files, missing, records.verified);
  }

  lemma SurveyKeeps(hash: Hash, contents: Contents, files: seq<ModelFile>, d0: Disk, d1: Disk, d2: Disk,
                    v: Verified, failed: seq<Name>, h1: seq<Disk>, h2: seq<Disk>, n: nat)
    requires h1 <= h2 && AllUntouched(hash, files, d0, h1, n) && AllUntouched(hash, files, d1, h2, |h1|)
    requires Untouched(hash, files, d0, d1) && Untouched(hash, files, d1, d2)
    ensures var d := SaveState(d2, v, failed);
      Resumable(d0, contents, files) ==>
        Keeps(hash, contents, files, d0, d) && AllKeep(hash, contents, files, d0, h2 + [d], n)
  {
    hide Untouched, AllUntouched, Keeps, AllKeep, Resumable;
    var d := SaveState(d2, v, failed);
    AllUntouchedChains(hash, files, d0, d1, h1, h2, n);
    SavedIsUntouched(hash, files, d2, v, failed);
    UntouchedChains(hash, files, d0, d1, d2);
    UntouchedChains(hash, files, d0, d2, d);
    AllUntouchedExtends(hash, files, d0, h2, n, d);
    if Resumable(d0, contents, files) {
      UntouchedKeeps(hash, contents, files, d0, d);
      AllUntouchedKeeps(hash, contents, files, d0, h2 + [d], n);
    }
  }

  lemma SurveyLosesNothing(hash: Hash, d0: Disk, d1: Disk, d: Disk, contents: Contents, files: seq<ModelFile>,
                           missing: seq<ModelFile>, v: Verified)
    requires d1.targets == d0.targets && d1.partials == d0.partials - (d0.partials.Keys - Hashes(files))
    requires d.partials == d1.partials && missing == NotInPlace(hash, d1, files)
    requires forall f | f in missing :: f.name !in d.targets
    requires forall f | f in files :: f in missing || KeptIn(hash, d, v, f)
    ensures Remaining(missing, d.partials) == Lost(hash, d0, files) == Lost(hash, d, files)
    ensures forall f | f in missing :: f in files && !InPlace(hash, d0, f)
    ensures Resumable(d0, contents, files) ==> Resumable(d, contents, files)
  {
    MissingAreNotInPlace(hash, d1, files);
    NotInPlaceAreFiles(hash, d1, files);
    forall f | f in files ensures SameFor(hash, d0, d1, f) && SameFor(hash, d1, d, f) && SameFor(hash, d0, d, f) {
      assert f.sha256 in Hashes(files);
    }
    LostSame(hash, d0, d1, files);
    LostSame(hash, d1, d, files);
    if Resumable(d0, contents, files) { ResumableSame(hash, d0, d, contents, files); }
  }

  lemma {:induction false} MissingAreNotInPlace(hash: Hash, d: Disk, files: seq<ModelFile>)
    ensures forall f | f in files :: f in NotInPlace(hash, d, files) <==> !InPlace(hash, d, f)
  {
    hide InPlace;
    if files != [] {
      var before, last := files[..|files| - 1], files[|files| - 1];
      MissingAreNotInPlace(hash, d, before);
      NotInPlaceAreFiles(hash, d, before);
      assert forall f :: f in files <==> f in before || f == last;
    }
  }

  lemma {:induction false} NotInPlaceAreFiles(hash: Hash, d: Disk, files: seq<ModelFile>)
    ensures forall f | f in NotInPlace(hash, d, files) :: f in files && !InPlace(hash, d, f)
  {
    hide InPlace;
    if files != [] { NotInPlaceAreFiles(hash, d, files[..|files| - 1]); }
  }

  /** Phase 3 and what follows it. */
  method Fetch(store: Store, records: Records, files: seq<ModelFile>, missing: seq<ModelFile>, server: Server,
               remaining: nat, ghost contents: Contents, ghost n: nat, ghost bounded: bool, ghost floor: int)
      returns (result: PullResult)
    requires Sound(store, records) && Good(store.hash, store.history, n, bounded, floor) && DistinctNames(files)
    requires Progress(store.hash, store.disk, records.verified, records.failed, files, missing, [])
    requires store.disk.state == Saved(records.verified, records.failed) && store.disk.partials.Keys <= Hashes(files)
    requires bounded ==> AllBounded(missing, server) && floor <= store.disk.free - Plan(missing, store.disk.partials)
    modifies store`disk, store`history, store`fetched, store`requests, store`hashed, records
    ensures Safe(store.hash, store.disk) && old(store.history) <= store.history && store.fetched >= old(store.fetched)
    ensures Good(store.hash, store.history, n, bounded, floor)
    ensures result.Returned? || result.DownloadFailed? || result.Mismatched?
    ensures result.DownloadFailed? ==> exists f | f in missing :: f.name == result.name && FailsFor(f, server)
    ensures AllDelivered(store.hash, contents, files, server) && Resumable(old(store.disk), contents, files) ==> result.Returned?
    ensures result.Returned? ==>
      && Settled(store.disk, files) && (forall f :: f in files ==> InPlace(store.hash, store.disk, f))
      && result.downloadedBytes == remaining
      && (bounded && AllHonourRanges(missing, server) ==>
            store.fetched == old(store.fetched) + Plan(missing, old(store.disk.partials)))
    ensures result.Mismatched? ==>
      && result.names != [] && LocalStateOf(store.disk, files) == FailedVerification
      && forall name :: name in result.names ==> name !in store.disk.targets && name in LoadFailed(store.disk.state)
    ensures missing == [] && old(records.failed) == [] ==>
      && result == Returned(remaining) && store.disk == old(store.disk)
      && store.fetched == old(store.fetched) && store.requests == old(store.requests) && store.hashed == old(store.hashed)
    ensures DistinctHashes(files) && AllReliable(store.hash, contents, files, server) && Resumable(old(store.disk), contents, files) ==>
      && !result.Mismatched?
      && Advances(store.hash, contents, files, old(store.disk), old(store.fetched), store.disk, store.fetched)
      && AllKeep(store.hash, contents, files, old(store.disk), store.history, |old(store.history)|)
  {
    hide Stamped, Truthful, Good, Progress, Settled, KnownSha256, LocalStateOf, Hashes;
    hide AllBounded, AllHonourRanges, DistinctHashes, Plan, Resumable, AllReliable, Advances, AllKeep, AllDelivered, FailsFor;
    ghost var d0, fetched0, h0 := store.disk, store.fetched, store.history;
    ghost var world := DistinctHashes(files) && AllReliable(store.hash, contents, files, server) && Resumable(d0, contents, files);
    var failed, mismatched := FetchMissing(store, records, files, missing, server, contents, n, bounded, floor);
    if failed.Some? { return DownloadFailed(failed.value); }
    ProgressEnd(store.hash, store.disk, records.verified, records.failed, files, mismatched);
    if mismatched != [] {
      FailedAfter(store.disk, files);
      return Mismatched(mismatched);
    }
    records.failed := [];
    if world {
      SaveAdvances(store.hash, contents, files, d0, fetched0, store.disk, store.fetched, records.verified, records.failed);
      OneMoreKept(store.hash, contents, files, d0, fetched0, SaveState(store.disk, records.verified, records.failed), store.fetched,
                  store.history, |h0|);
    }
    Save(store, records, n, bounded, floor);
    SettledAfter(store.hash, store.disk, records.verified, files);
    result := Returned(remaining);
  }

  lemma OneMoreKept(hash: Hash, contents: Contents, files: seq<ModelFile>, d0: Disk, fetched0: nat, d: Disk, fetched: nat,
                    history: seq<Disk>, n: nat)
    requires AllKeep(hash, contents, files, d0, history, n) && fetched >= fetched0
    requires Advances(hash, contents, files, d0, fetched0, d, fetched)
    ensures AllKeep(hash, contents, files, d0, history + [d], n)
  {
    AdvancesKeeps(hash, contents, files, d0, fetched0, d, fetched);
    hide Keeps, Advances;
  }

  lemma SurveyAdvances(hash: Hash, contents: Contents, files: seq<ModelFile>, d0: Disk, d: Disk, fetched: nat)
    requires Lost(hash, d, files) == Lost(hash, d0, files) && Resumable(d, contents, files) && d.free >= d0.free
    ensures Advances(hash, contents, files, d0, fetched, d, fetched)
  {
  }

  lemma AdvancesChain(hash: Hash, contents: Contents, files: seq<ModelFile>, d0: Disk, fetched0: nat, d1: Disk, fetched1: nat, d: Disk, fetched: nat)
    requires Advances(hash, contents, files, d0, fetched0, d1, fetched1) && Advances(hash, contents, files, d1, fetched1, d, fetched)
    ensures Advances(hash, contents, files, d0, fetched0, d, fetched)
  {
    hide Lost, Resumable;
  }

  lemma SaveAdvances(hash: Hash, contents: Contents, files: seq<ModelFile>, d0: Disk, fetched0: nat, d: Disk, fetched: nat,
                     v: Verified, failed: seq<Name>)
    requires Advances(hash, contents, files, d0, fetched0, d, fetched)
    ensures Advances(hash, contents, files, d0, fetched0, SaveState(d, v, failed), fetched)
  {
    LostSame(hash, d, SaveState(d, v, failed), files);
    ResumableSame(hash, d, SaveState(d, v, failed), contents, files);
    hide Lost, Resumable;
  }

  function Min(a: int, b: int): int {
    if a <= b then a else b
  }

  /**
   * Makes the directory hold exactly the registry's files, verified.
   *
   * 1. Killed between any two effects, or failing, it leaves a disk on which every record
   *    that matches its file is true, so that DownloadedMeansVerified applies.
   * 2. Returning normally means every file is in place with the registry's hash, and that
   *    nothing is left to do; a pull that starts there changes nothing on the disk, fetches
   *    nothing and (without `recheck`) hashes nothing.  It still fails when the disk check does.
   * 3. With distinct hashes, and no server sending more than a file has left, the free space
   *    never falls below the margin, or below where it started.
   * 4. If ranges are honoured as well, `downloadedBytes` is what came over the network.
   * 5. Files that did not match are gone and marked as failed.
   * 6. From a reliable server, with distinct hashes and partial files that can be resumed, no
   *    file mismatches, every byte fetched is one less to fetch, and the disk check can only
   *    fail if what is missing does not fit.  A kill between any two effects loses nothing of
   *    what was there, and leaves room for the rest if there was.
   * 7. It returns if there is room and the servers, honest ones, answer every file completely
   *    within the attempts, whatever other failures come before; a failed download names a file
   *    that was missing and for which no such answer came.
   */
  method Run(store: Store, files: seq<ModelFile>, recheck: bool, locked: bool, server: Server, ghost contents: Contents)
      returns (result: PullResult)
    requires DistinctNames(files) && Safe(store.hash, store.disk)
    modifies store`disk, store`history, store`fetched, store`requests, store`hashed
    ensures Safe(store.hash, store.disk) && old(store.history) <= store.history && store.fetched >= old(store.fetched)
    ensures Good(store.hash, store.history, |old(store.history)|, DistinctHashes(files) && AllBounded(files, server),
                 Min(old(store.disk).free, DISK_MARGIN))
    ensures result.Returned? ==>
      Settled(store.disk, files) && forall f :: f in files ==> InPlace(store.hash, store.disk, f)
    ensures !locked && Settled(old(store.disk), files) ==>
      && store.disk == old(store.disk)
      && store.fetched == old(store.fetched) && store.requests == old(store.requests)
      && store.hashed == old(store.hashed) + (if recheck then |files| else 0)
      && result == if store.disk.free < DISK_MARGIN then NoSpace else Returned(0)
    ensures result.Returned? && DistinctHashes(files) && AllBounded(files, server) && AllHonourRanges(files, server) ==>
      store.fetched == old(store.fetched) + result.downloadedBytes
    ensures result.Mismatched? ==>
      && result.names != [] && LocalStateOf(store.disk, files) == FailedVerification
      && forall name :: name in result.names ==> name !in store.disk.targets && name in LoadFailed(store.disk.state)
    ensures locked <==> result.AlreadyRunning?
    ensures locked ==> store.history == old(store.history) && store.disk == old(store.disk)
    ensures result.NoSpace? ==> Lost(store.hash, old(store.disk), files) + DISK_MARGIN > old(store.disk).free
    ensures result.DownloadFailed? ==>
      exists f | f in files :: f.name == result.name && !InPlace(store.hash, old(store.disk), f) && FailsFor(f, server)
    ensures (!locked && AllDelivered(store.hash, contents, files, server) && Resumable(old(store.disk), contents, files)
             && Lost(store.hash, old(store.disk), files) + DISK_MARGIN <= old(store.disk).free) ==> result.Returned?
    ensures DistinctHashes(files) && AllReliable(store.hash, contents, files, server) && Resumable(old(store.disk), contents, files) ==>
      && !result.Mismatched?
      && Advances(store.hash, contents, files, old(store.disk), old(store.fetched), store.disk, store.fetched)
      && AllKeep(store.hash, contents, files, old(store.disk), store.history, |old(store.history)|)
  {
    hide Stamped, Truthful, Good, Progress, Settled, KnownSha256, LocalStateOf, Hashes;
    hide AllBounded, AllHonourRanges, DistinctHashes, Plan, Lost, Resumable, AllReliable, Advances, Keeps, AllKeep, AllDelivered, FailsFor, InPlace;
    ghost var d0, fetched0 := store.disk, store.fetched;
    ghost var world := DistinctHashes(files) && AllReliable(store.hash, contents, files, server) && Resumable(d0, contents, files);
    ghost var n, floor0 := |store.history|, store.disk.free;
    ghost var bounded, floor := DistinctHashes(files) && AllBounded(files, server), Min(floor0, DISK_MARGIN);
    NothingCommitted(store.hash, store.history, floor);
    if world { NothingAdvanced(store.hash, contents, files, d0, fetched0); }
    NothingKept(store.hash, contents, files, d0, store.history);
    if locked { return AlreadyRunning; }
    var records, missing := Survey(store, files, recheck, contents, bounded, floor);
    if world { SurveyAdvances(store.hash, contents, files, d0, store.disk, fetched0); }
    ghost var d1, h1 := store.disk, store.history;
    var remaining := CountRemaining(store, missing);
    if remaining + DISK_MARGIN > store.disk.free { return NoSpace; }
    if bounded { MissingIsPlanned(files, missing, store.disk.partials, server); }
    result := Fetch(store, records, files, missing, server, remaining, contents, n, bounded, floor);
    if world {
      AdvancesChain(store.hash, contents, files, d0, fetched0, d1, fetched0, store.disk, store.fetched);
      AllKeepChains(store.hash, contents, files, d0, d1, h1, store.history, n);
    }
  }
}
