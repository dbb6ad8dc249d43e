/**
 * Any history of one model's directory: pulls of changing entries, each perhaps killed after
 * any of its effects, and edits by hand in between.
 */
module Sessions {
  import opened Wrappers
  import opened Models
  import opened ModelStore
  import opened Download
  import opened Pull
  import opened ModelFiles
  import opened RegistryFile
  import opened HandWrittenEntry

  /** `kill`: the pull is killed after this many effects; None if it runs to its end. */
  datatype Session =
    | Pulling(files: seq<ModelFile>, recheck: bool, locked: bool, server: Server, kill: Option<nat>)
    | Editing(edits: seq<Edit>)

  const EMPTY := Disk(map[], map[], Unusable, 0, 0)

  lemma EmptyDiskIsSafe(hash: Hash, free: int)
    ensures Safe(hash, EMPTY.(free := free))
  {
  }

  /**
   * A model, here of one file that the registry accepts, can be complete on a disk so full
   * that the next pull fails the disk check.
   */
  lemma CompleteCanBeFull(hash: Hash)
    requires HexOk(hash([0]), 64)
    ensures var f, x := ModelFile("f", 1, hash([0])), Node([0], 0);
      var full := Disk(map["f" := x], map[], Saved(map["f" := RecordOf(x, f.sha256)], []), 0, 1);
      FilesValid([f]) && Safe(hash, full) && Settled(full, [f]) && full.free < DISK_MARGIN
  {
    FileIsGood();
    hide NameOk, HexOk;
    var f, x := ModelFile("f", 1, hash([0])), Node([0], 0);
    var full := Disk(map["f" := x], map[], Saved(map["f" := RecordOf(x, f.sha256)], []), 0, 1);
    assert LocalStateOf(full, [f]) == Downloaded;
  }

  ghost predicate AllSafe(hash: Hash, disks: seq<Disk>) {
    forall i :: 0 <= i < |disks| ==> Safe(hash, disks[i])
  }

  /** "Downloaded" is believed only where every file really is in place. */
  ghost predicate NeverLies(hash: Hash, disks: seq<Disk>) {
    forall i, files :: 0 <= i < |disks| && LocalStateOf(disks[i], files) == Downloaded ==>
      forall f | f in files :: InPlace(hash, disks[i], f)
  }

  lemma SafeNeverLies(hash: Hash, disks: seq<Disk>)
    requires AllSafe(hash, disks)
    ensures NeverLies(hash, disks)
  {
    hide Safe, LocalStateOf, InPlace;
    forall i, files | 0 <= i < |disks| && LocalStateOf(disks[i], files) == Downloaded
      ensures forall f | f in files :: InPlace(hash, disks[i], f)
    {
      DownloadedMeansVerified(hash, disks[i], files);
    }
  }

  lemma SafeGoesOn(hash: Hash, before: seq<Disk>, after: seq<Disk>, bounded: bool, floor: int)
    requires AllSafe(hash, before) && before <= after && Good(hash, after, |before|, bounded, floor)
    ensures AllSafe(hash, after)
  {
    hide Safe;
  }

  /** How a pull ends that may be killed. */
  datatype Ending = Ended(result: PullResult) | Killed

  /**
   * A pull that is killed after so many effects, if it comes that far.  Whatever is said of
   * every disk on the way is said of the one that is left.
   */
  method PullUntil(store: Store, files: seq<ModelFile>, recheck: bool, locked: bool, server: Server, kill: Option<nat>,
                   ghost contents: Contents)
      returns (ending: Ending)
    requires DistinctNames(files) && Safe(store.hash, store.disk)
    modifies store`disk, store`history, store`fetched, store`requests, store`hashed
    ensures Safe(store.hash, store.disk) && old(store.history) <= store.history
    ensures Good(store.hash, store.history, |old(store.history)|, false, 0)
    ensures kill.None? ==> ending.Ended?
    ensures ending.Ended? && ending.result.Returned? ==>
      Settled(store.disk, files) && forall f | f in files :: InPlace(store.hash, store.disk, f)
    ensures DistinctHashes(files) && AllReliable(store.hash, contents, files, server) && Resumable(old(store.disk), contents, files) ==>
      && Keeps(store.hash, contents, files, old(store.disk), store.disk)
      && (ending.Ended? ==>
            && !ending.result.Mismatched? && (ending.result.AlreadyRunning? ==> locked)
            && Lost(store.hash, store.disk, files) + store.fetched == Lost(store.hash, old(store.disk), files) + old(store.fetched)
            && (ending.result.NoSpace? ==> Lost(store.hash, old(store.disk), files) + DISK_MARGIN > old(store.disk).free))
      && store.fetched >= old(store.fetched)
    ensures ending.Ended? && ending.result.DownloadFailed? ==>
      exists f | f in files :: f.name == ending.result.name && FailsFor(f, server)
    ensures (kill.None? && !locked && AllDelivered(store.hash, contents, files, server) && Resumable(old(store.disk), contents, files)
             && Lost(store.hash, old(store.disk), files) + DISK_MARGIN <= old(store.disk).free) ==> Success(ending)
  {
    hide Safe, Settled, DistinctHashes, InPlace, LocalStateOf, AllBounded, AllHonourRanges, AllReliable, Resumable, Lost, Keeps, AllDelivered, FailsFor;
    ghost var past := store.history;
    var first, start := store.disk, |store.history|;
    var result := Pull.Run(store, files, recheck, locked, server, contents);
    ending := Ended(result);
    if Resumable(first, contents, files) { KeepsItself(store.hash, contents, files, first); }
    LostIsCounted(store.hash, contents, files, first, old(store.fetched), store.disk, store.fetched);
    if kill.Some? && start + kill.value <= |store.history| {
      store.history := store.history[..start + kill.value];
      store.disk := if kill.value == 0 then first else store.history[start + kill.value - 1];
      ending := Killed;
    }
  }

  lemma KeepsItself(hash: Hash, contents: Contents, files: seq<ModelFile>, d: Disk)
    requires Resumable(d, contents, files)
    ensures Keeps(hash, contents, files, d, d)
  {
  }

  lemma LostIsCounted(hash: Hash, contents: Contents, files: seq<ModelFile>, d0: Disk, fetched0: nat, d: Disk, fetched: nat)
    requires fetched >= fetched0
    ensures Advances(hash, contents, files, d0, fetched0, d, fetched) ==>
      Keeps(hash, contents, files, d0, d) && Lost(hash, d, files) + fetched == Lost(hash, d0, files) + fetched0
  {
    hide Resumable, Lost;
  }

  /** One session: afterwards the disk is one that the session passed through. */
  method RunOne(store: Store, session: Session)
    requires session.Pulling? ==> DistinctNames(session.files)
    requires Safe(store.hash, store.disk) && AllSafe(store.hash, store.history)
    modifies store
    ensures Safe(store.hash, store.disk) && AllSafe(store.hash, store.history)
    ensures old(store.history) <= store.history
  {
    hide Safe, Settled, DistinctHashes, InPlace;
    match session
    case Editing(edits) =>
      EditsKeepSafe(store.hash, store.disk, edits);
      store.Commit(AfterEdits(store.disk, edits));
    case Pulling(files, recheck, locked, server, kill) =>
      ghost var past := store.history;
      var ending := PullUntil(store, files, recheck, locked, server, kill, _ => []);
      SafeGoesOn(store.hash, past, store.history, false, 0);
  }

  /**
   * Over any list of sessions, from any safe disk: every disk ever passed through is safe, so
   * that `local_state` never says "downloaded" of files that do not have the registry's hashes,
   * for whatever entry it is asked at whatever moment.
   */
  method RunAll(store: Store, sessions: seq<Session>)
    requires forall s | s in sessions && s.Pulling? :: DistinctNames(s.files)
    requires Safe(store.hash, store.disk) && AllSafe(store.hash, store.history)
    modifies store
    ensures Safe(store.hash, store.disk) && AllSafe(store.hash, store.history)
    ensures NeverLies(store.hash, store.history) && old(store.history) <= store.history
  {
    hide Safe, DistinctNames, NeverLies, AllSafe;
    for i := 0 to |sessions|
      invariant Safe(store.hash, store.disk) && AllSafe(store.hash, store.history)
      invariant old(store.history) <= store.history
    {
      RunOne(store, sessions[i]);
    }
    SafeNeverLies(store.hash, store.history);
  }

  // --- repeated pulls ---

  /** What is still missing before each of a series of pulls, and after the last. */
  ghost function AllLost(hash: Hash, disks: seq<Disk>, files: seq<ModelFile>): (lost: seq<nat>)
    ensures |lost| == |disks| && forall i :: 0 <= i < |lost| ==> lost[i] == Lost(hash, disks[i], files)
  {
    seq(|disks|, i requires 0 <= i < |disks| => Lost(hash, disks[i], files))
  }

  /** Numbers that fall cannot fall for longer than the first allows. */
  lemma {:induction false} FallingEnds(lost: seq<nat>)
    requires lost != [] && forall i :: 0 <= i < |lost| - 1 ==> lost[i + 1] < lost[i]
    ensures |lost| - 1 <= lost[0]
  {
    if |lost| > 1 {
      var rest := lost[1..];
      forall i | 0 <= i < |rest| - 1 ensures rest[i + 1] < rest[i] {
        assert lost[i + 1 + 1] < lost[i + 1];
      }
      FallingEnds(rest);
    }
  }

  lemma KeepsRoom(hash: Hash, contents: Contents, files: seq<ModelFile>, d0: Disk, d: Disk)
    requires Keeps(hash, contents, files, d0, d) && d0.free >= Lost(hash, d0, files) + DISK_MARGIN
    ensures d.free >= Lost(hash, d, files) + DISK_MARGIN && Resumable(d, contents, files)
  {
    hide Lost, Resumable;
  }

  /** One pull of the series: its server, and when it is killed, if it is. */
  datatype Try = Try(server: Server, kill: Option<nat>)

  predicate Success(ending: Ending) {
    ending.Ended? && ending.result.Returned?
  }

  /**
   * One pull of the series: nothing that was there is lost; if it is not killed it fails only
   * by a download without a complete answer, and what is missing falls by what was fetched.
   */
  ghost predicate GoesWell(hash: Hash, contents: Contents, files: seq<ModelFile>, t: Try, ending: Ending, got: nat, d0: Disk, d: Disk) {
    && Keeps(hash, contents, files, d0, d) && (t.kill.None? ==> ending.Ended?)
    && (ending.Ended? ==>
          && (ending.result.DownloadFailed? || ending.result.Returned?)
          && (ending.result.DownloadFailed? ==> exists f | f in files :: f.name == ending.result.name && FailsFor(f, t.server))
          && Lost(hash, d, files) + got == Lost(hash, d0, files))
    && (t.kill.None? && AllDelivered(hash, contents, files, t.server) ==> Success(ending))
  }

  /** Every pull that does not succeed leaves fewer bytes to fetch than it found. */
  ghost predicate Productive(endings: seq<Ending>, lost: seq<nat>)
    requires |lost| == |endings| + 1
  {
    forall i :: 0 <= i < |endings| && !Success(endings[i]) ==> lost[i + 1] < lost[i]
  }

  /**
   * Pulling again and again, each time from a reliable server that may break off anywhere and
   * perhaps killed after any effect, with room for what is missing.  A pull that is not killed
   * ends only by returning or by a failed download, never for want of room; what is missing
   * never grows, and falls by what was fetched.  As long as every pull that does not return
   * leaves less to fetch, there are at most as many of them as bytes were missing; then a pull
   * returns, and every file is in place with the registry's hash.
   */
  method PullRepeatedly(store: Store, files: seq<ModelFile>, tries: seq<Try>, ghost contents: Contents)
      returns (endings: seq<Ending>, got: seq<nat>, ghost disks: seq<Disk>)
    requires DistinctNames(files) && DistinctHashes(files) && Safe(store.hash, store.disk)
    requires forall t | t in tries :: AllReliable(store.hash, contents, files, t.server)
    requires Resumable(store.disk, contents, files)
    requires store.disk.free >= Lost(store.hash, store.disk, files) + DISK_MARGIN
    modifies store`disk, store`history, store`fetched, store`requests, store`hashed
    ensures Safe(store.hash, store.disk) && |endings| == |got| == |disks| - 1 <= |tries|
    ensures disks[0] == old(store.disk) && disks[|endings|] == store.disk
    ensures forall i :: 0 <= i < |endings| ==> GoesWell(store.hash, contents, files, tries[i], endings[i], got[i], disks[i], disks[i + 1])
    ensures forall i :: 0 <= i < |endings| - 1 ==> !Success(endings[i])
    ensures endings != [] && Success(endings[|endings| - 1]) ==>
      Settled(store.disk, files) && forall f | f in files :: InPlace(store.hash, store.disk, f)
    ensures endings == [] || !Success(endings[|endings| - 1]) ==> |endings| == |tries|
    ensures |tries| > Lost(store.hash, old(store.disk), files) && Productive(endings, AllLost(store.hash, disks, files)) ==>
      endings != [] && Success(endings[|endings| - 1])
  {
    hide Safe, DistinctNames, DistinctHashes, AllReliable, Resumable, Lost, Settled, InPlace, Good, LocalStateOf, Keeps, AllLost;
    ghost var d0 := store.disk;
    endings, got, disks := [], [], [d0];
    var i := 0;
    while i < |tries|
      invariant 0 <= i <= |tries| && |endings| == |got| == i && |disks| == i + 1
      invariant disks[0] == d0 && disks[i] == store.disk
      invariant Safe(store.hash, store.disk) && Resumable(store.disk, contents, files)
      invariant store.disk.free >= Lost(store.hash, store.disk, files) + DISK_MARGIN
      invariant forall k :: 0 <= k < i ==> !Success(endings[k])
      invariant forall k :: 0 <= k < i ==> GoesWell(store.hash, contents, files, tries[k], endings[k], got[k], disks[k], disks[k + 1])
    {
      ghost var d1 := store.disk;
      var before := store.fetched;
      assert tries[i] in tries;
      var ending := PullUntil(store, files, false, false, tries[i].server, tries[i].kill, contents);
      KeepsRoom(store.hash, contents, files, d1, store.disk);
      assert GoesWell(store.hash, contents, files, tries[i], ending, store.fetched - before, d1, store.disk);
      hide GoesWell;
      endings, got, disks := endings + [ending], got + [store.fetched - before], disks + [store.disk];
      i := i + 1;
      if Success(ending) { break; }
    }
    if Productive(endings, AllLost(store.hash, disks, files)) && (endings == [] || !Success(endings[|endings| - 1])) {
      AlwaysFalls(store.hash, endings, disks, files);
    }
  }

  lemma AlwaysFalls(hash: Hash, endings: seq<Ending>, disks: seq<Disk>, files: seq<ModelFile>)
    requires |disks| == |endings| + 1 && Productive(endings, AllLost(hash, disks, files))
    requires forall i :: 0 <= i < |endings| ==> !Success(endings[i])
    ensures |endings| <= Lost(hash, disks[0], files)
  {
    hide Lost;
    FallingEnds(AllLost(hash, disks, files));
  }
}
