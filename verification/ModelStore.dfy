/**
 * The directory of one model: the files in place, the partial downloads, the
 * persisted state.json and the free space, and what a reader may conclude from it.
 *
 * `clock` gives every write a modification time of its own.  A partial download is
 * keyed by the sha256 in its file name.
 */
module ModelStore {
  import opened Wrappers
  import opened Models

  type Bytes = seq<bv8>
  type Hash = Bytes -> Sha

  datatype Node = Node(content: Bytes, mtime: nat)

  /** One entry of `verified`; fields missing from the JSON, or of another type, are None. */
  datatype Record = Record(size: Option<int>, mtime: Option<int>, sha256: Option<Sha>)

  type Verified = map<Name, Record>

  /** `Unusable` is a state.json that is missing, unreadable or of another shape. */
  datatype StateFile = Unusable | Saved(verified: Verified, failed: seq<Name>)

  datatype Disk = Disk(
    targets: map<Name, Node>,
    partials: map<Sha, Node>,
    state: StateFile,
    free: int,
    clock: nat)

  datatype LocalState = NotDownloaded | Incomplete | Unverified | Downloaded | FailedVerification

  // --- the effects, one per file-system call ---

  function SizeOf(files: map<string, Node>, key: string): nat {
    if key in files then |files[key].content| else 0
  }

  /** Writes `content` as the whole of a partial file (creating, truncating or appending). */
  function WritePartial(d: Disk, sha: Sha, content: Bytes): Disk {
    d.(partials := d.partials[sha := Node(content, d.clock)],
       clock := d.clock + 1,
       free := d.free + SizeOf(d.partials, sha) - |content|)
  }

  function UnlinkPartial(d: Disk, sha: Sha): Disk {
    d.(partials := d.partials - {sha}, free := d.free + SizeOf(d.partials, sha))
  }

  function UnlinkTarget(d: Disk, name: Name): Disk {
    d.(targets := d.targets - {name}, free := d.free + SizeOf(d.targets, name))
  }

  /** Renames a partial file over a target; the modification time moves with it. */
  function MoveIntoPlace(d: Disk, sha: Sha, name: Name): Disk
    requires sha in d.partials
  {
    d.(targets := d.targets[name := d.partials[sha]],
       partials := d.partials - {sha},
       free := d.free + SizeOf(d.targets, name))
  }

  function SaveState(d: Disk, verified: Verified, failed: seq<Name>): Disk {
    d.(state := Saved(verified, failed))
  }

  // --- records ---

  function LoadVerified(state: StateFile): Verified {
    if state.Saved? then state.verified else map[]
  }

  function LoadFailed(state: StateFile): seq<Name> {
    if state.Saved? then state.failed else []
  }

  predicate Matches(r: Record, x: Node) {
    r.size == Some(|x.content|) && r.mtime == Some(x.mtime)
  }

  /** The recorded sha256 of a file that has not changed since it was hashed. */
  function KnownSha256(verified: Verified, targets: map<Name, Node>, name: Name): Option<Sha> {
    if name in verified && name in targets && Matches(verified[name], targets[name])
    then verified[name].sha256 else None
  }

  function RecordOf(x: Node, sha: Sha): Record {
    Record(Some(|x.content|), Some(x.mtime), Some(sha))
  }

  function RemoveFirst(names: seq<Name>, name: Name): (r: seq<Name>)
    ensures forall n :: n in r ==> n in names
    ensures forall n :: n in names && n != name ==> n in r
  {
    if names == [] then [] else
    if names[0] == name then names[1..] else [names[0]] + RemoveFirst(names[1..], name)
  }

  /** The model's state from the disk and the records alone, without hashing. */
  function LocalStateOf(d: Disk, files: seq<ModelFile>): LocalState {
    var failed := LoadFailed(d.state);
    if exists f :: f in files && f.name in failed then FailedVerification
    else if forall f :: f in files ==> f.name in d.targets then
      if forall f :: f in files ==> KnownSha256(LoadVerified(d.state), d.targets, f.name) == Some(f.sha256)
      then Downloaded else Unverified
    else if (exists f :: f in files && f.name in d.targets) || d.partials != map[] then Incomplete
    else NotDownloaded
  }

  // --- the crash invariant ---

  ghost predicate Says(hash: Hash, r: Record, x: Node) {
    Matches(r, x) && r.sha256.Some? ==> r.sha256.value == hash(x.content)
  }

  /**
   * Every record that matches its file, or that would match one of the partial files if
   * it were moved into place, carries the true hash; no record is dated in the future.
   */
  ghost predicate Truthful(hash: Hash, d: Disk, verified: Verified) {
    && (forall n :: n in verified && n in d.targets ==> Says(hash, verified[n], d.targets[n]))
    && (forall n, p :: n in verified && p in d.partials ==> Says(hash, verified[n], d.partials[p]))
    && (forall n :: n in verified && verified[n].mtime.Some? ==> verified[n].mtime.value < d.clock)
  }

  /** Nothing is dated in the future, and one modification time belongs to one content. */
  ghost predicate Stamped(d: Disk) {
    && (forall n :: n in d.targets ==> d.targets[n].mtime < d.clock)
    && (forall p :: p in d.partials ==> d.partials[p].mtime < d.clock)
    && (forall n, p :: n in d.targets && p in d.partials && d.targets[n].mtime == d.partials[p].mtime
          ==> d.targets[n].content == d.partials[p].content)
    && (forall p, q :: p in d.partials && q in d.partials && d.partials[p].mtime == d.partials[q].mtime
          ==> d.partials[p].content == d.partials[q].content)
  }

  ghost predicate Safe(hash: Hash, d: Disk) {
    Stamped(d) && Truthful(hash, d, LoadVerified(d.state))
  }

  /** A file is in place with the registry's hash. */
  ghost predicate InPlace(hash: Hash, d: Disk, f: ModelFile) {
    f.name in d.targets && hash(d.targets[f.name].content) == f.sha256
  }

  /** On a safe disk, "downloaded" can be trusted, whatever entry is asked about. */
  lemma DownloadedMeansVerified(hash: Hash, d: Disk, files: seq<ModelFile>)
    requires Safe(hash, d)
    requires LocalStateOf(d, files) == Downloaded
    ensures forall f :: f in files ==> InPlace(hash, d, f)
  {
    forall f | f in files
      ensures InPlace(hash, d, f)
    {
      assert KnownSha256(LoadVerified(d.state), d.targets, f.name) == Some(f.sha256);
    }
  }

  /** What the user may do to the directory between two pulls. */
  datatype Edit =
    | WriteTarget(name: Name, content: Bytes)
    | RemoveTarget(name: Name)
    | WritePart(sha: Sha, content: Bytes)
    | RemovePart(sha: Sha)
    | LoseState

  function ApplyEdit(d: Disk, e: Edit): Disk {
    match e
    case WriteTarget(name, content) =>
      d.(targets := d.targets[name := Node(content, d.clock)], clock := d.clock + 1,
         free := d.free + SizeOf(d.targets, name) - |content|)
    case RemoveTarget(name) => UnlinkTarget(d, name)
    case WritePart(sha, content) => WritePartial(d, sha, content)
    case RemovePart(sha) => UnlinkPartial(d, sha)
    case LoseState => d.(state := Unusable)
  }

  /** Editing or deleting files by hand between pulls cannot make a record lie. */
  lemma {:induction false} EditsKeepSafe(hash: Hash, d: Disk, edits: seq<Edit>)
    requires Safe(hash, d)
    ensures Safe(hash, AfterEdits(d, edits))
    decreases |edits|
  {
    if edits != [] {
      EditKeepsSafe(hash, d, edits[0]);
      EditsKeepSafe(hash, ApplyEdit(d, edits[0]), edits[1..]);
    }
  }

  lemma EditKeepsSafe(hash: Hash, d: Disk, e: Edit)
    requires Safe(hash, d)
    ensures Safe(hash, ApplyEdit(d, e))
  {
    var v := LoadVerified(d.state);
    match e
    case WriteTarget(name, content) =>
    case RemoveTarget(name) => UnlinkKeeps(hash, d, name, v);
    case WritePart(sha, content) => WritePartialKeeps(hash, d, sha, content, v);
    case RemovePart(sha) => UnlinkKeeps(hash, d, sha, v);
    case LoseState =>
  }

  function AfterEdits(d: Disk, edits: seq<Edit>): Disk
    decreases |edits|
  {
    if edits == [] then d else AfterEdits(ApplyEdit(d, edits[0]), edits[1..])
  }

  // --- what each effect keeps, for the records in memory as for those on disk ---

  lemma WritePartialKeeps(hash: Hash, d: Disk, sha: Sha, content: Bytes, v: Verified)
    requires Stamped(d) && Truthful(hash, d, v)
    ensures Stamped(WritePartial(d, sha, content)) && Truthful(hash, WritePartial(d, sha, content), v)
  {
  }

  lemma UnlinkKeeps(hash: Hash, d: Disk, key: string, v: Verified)
    requires Stamped(d) && Truthful(hash, d, v)
    ensures Stamped(UnlinkPartial(d, key)) && Truthful(hash, UnlinkPartial(d, key), v)
    ensures Stamped(UnlinkTarget(d, key)) && Truthful(hash, UnlinkTarget(d, key), v)
  {
  }

  lemma MoveKeeps(hash: Hash, d: Disk, sha: Sha, name: Name, v: Verified)
    requires Stamped(d) && Truthful(hash, d, v) && sha in d.partials
    ensures Stamped(MoveIntoPlace(d, sha, name)) && Truthful(hash, MoveIntoPlace(d, sha, name), v)
  {
    var e := MoveIntoPlace(d, sha, name);
    forall n, p | n in e.targets && p in e.partials && e.targets[n].mtime == e.partials[p].mtime
      ensures e.targets[n].content == e.partials[p].content
    {
      if n == name {
        assert d.partials[sha].mtime == d.partials[p].mtime;
      } else {
        assert d.targets[n].mtime == d.partials[p].mtime;
      }
    }
  }

  lemma RememberKeeps(hash: Hash, d: Disk, name: Name, v: Verified)
    requires Stamped(d) && Truthful(hash, d, v) && name in d.targets
    ensures Truthful(hash, d, v[name := RecordOf(d.targets[name], hash(d.targets[name].content))])
  {
    var v' := v[name := RecordOf(d.targets[name], hash(d.targets[name].content))];
    forall n, p | n in v' && p in d.partials
      ensures Says(hash, v'[n], d.partials[p])
    {
      if n == name && Matches(v'[n], d.partials[p]) {
        assert d.targets[name].mtime == d.partials[p].mtime;
      }
    }
  }

  lemma SaveKeeps(hash: Hash, d: Disk, v: Verified, failed: seq<Name>)
    requires Stamped(d) && Truthful(hash, d, v)
    ensures Safe(hash, SaveState(d, v, failed)) && Truthful(hash, SaveState(d, v, failed), v)
  {
  }

  lemma ForgetKeeps(hash: Hash, d: Disk, name: Name, v: Verified)
    requires Truthful(hash, d, v)
    ensures Truthful(hash, d, v - {name})
  {
  }

  lemma KnownIsTrue(hash: Hash, d: Disk, name: Name, v: Verified)
    requires Truthful(hash, d, v) && KnownSha256(v, d.targets, name).Some?
    ensures KnownSha256(v, d.targets, name).value == hash(d.targets[name].content)
  {
  }

  // --- the directory, changed in place ---

  /** `_Records`: the in-memory copy of state.json that a pull updates and saves. */
  class Records {
    var verified: Verified
    var failed: seq<Name>

    constructor Load(d: Disk)
      ensures verified == LoadVerified(d.state) && failed == LoadFailed(d.state)
    {
      verified, failed := LoadVerified(d.state), LoadFailed(d.state);
    }

    method Remember(x: Node, name: Name, sha: Sha)
      modifies this
      ensures verified == old(verified)[name := RecordOf(x, sha)]
      ensures failed == RemoveFirst(old(failed), name)
    {
      verified := verified[name := RecordOf(x, sha)];
      failed := RemoveFirst(failed, name);
    }

    method Forget(name: Name)
      modifies this`verified
      ensures verified == old(verified) - {name}
    {
      verified := verified - {name};
    }
  }

  /**
   * The directory on disk.  `history` holds the disk after every effect so far: a process
   * killed between two effects leaves one of these.  The counters record bytes written
   * from the network, requests sent and files hashed.
   */
  class Store {
    const hash: Hash
    var disk: Disk
    var fetched: nat
    var requests: nat
    var hashed: nat
    var history: seq<Disk>

    constructor (hash: Hash, disk: Disk)
      ensures this.hash == hash && this.disk == disk && history == [disk]
      ensures fetched == requests == hashed == 0
    {
      this.hash, this.disk := hash, disk;
      fetched, requests, hashed := 0, 0, 0;
      history := [disk];
    }

    /** Carries out one effect. */
    method Commit(d: Disk)
      modifies this`disk, this`history
      ensures disk == d && history == old(history) + [d]
    {
      disk := d;
      history := history + [d];
    }

    /** `sha256_file`. */
    method HashOf(content: Bytes) returns (sha: Sha)
      modifies this`hashed
      ensures sha == hash(content) && hashed == old(hashed) + 1
    {
      hashed := hashed + 1;
      sha := hash(content);
    }
  }
}
