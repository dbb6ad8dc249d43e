/**
 * What the effects on a model's directory have in common, and what its states mean: no byte of
 * room is lost or won, and the state follows what happens to the files.
 */
module DiskLaws {
  import opened Wrappers
  import opened Models
  import opened ModelStore
  import opened Sums
  import Pull
  import Sessions

  // --- room ---

  function Lengths(files: map<string, Node>): map<string, nat> {
    map name | name in files :: |files[name].content|
  }

  /** The bytes of all files. */
  ghost function Bytes(files: map<string, Node>): nat {
    Total(Lengths(files), files.Keys)
  }

  /** What the disk could hold besides everything else that is on it. */
  ghost function Capacity(d: Disk): int {
    d.free + Bytes(d.targets) + Bytes(d.partials)
  }

  lemma BytesChange(files: map<string, Node>, name: string, x: Node)
    ensures Bytes(files[name := x]) + SizeOf(files, name) == Bytes(files) + |x.content|
  {
    TotalChanges(Lengths(files), name, |x.content|);
    assert Lengths(files[name := x]) == Lengths(files)[name := |x.content|];
    assert Lengths(files).Keys == files.Keys && Lengths(files[name := x]).Keys == files[name := x].Keys;
  }

  lemma BytesWithout(files: map<string, Node>, name: string)
    ensures Bytes(files - {name}) + SizeOf(files, name) == Bytes(files)
  {
    TotalWithout(Lengths(files), name);
    assert Lengths(files - {name}) == Lengths(files) - {name};
    assert Lengths(files).Keys == files.Keys;
  }

  /** Every effect takes exactly the room that it gives to a file, and gives back what it takes from one. */
  lemma EffectsConserve(d: Disk, sha: Sha, name: Name, content: ModelStore.Bytes, v: Verified, failed: seq<Name>)
    ensures Capacity(WritePartial(d, sha, content)) == Capacity(d)
    ensures Capacity(UnlinkPartial(d, sha)) == Capacity(d) && Capacity(UnlinkTarget(d, name)) == Capacity(d)
    ensures sha in d.partials ==> Capacity(MoveIntoPlace(d, sha, name)) == Capacity(d)
    ensures Capacity(SaveState(d, v, failed)) == Capacity(d)
  {
    BytesChange(d.partials, sha, Node(content, d.clock));
    BytesWithout(d.partials, sha);
    BytesWithout(d.targets, name);
    if sha in d.partials { BytesChange(d.targets, name, d.partials[sha]); }
    hide Bytes;
  }

  /** And so do edits by hand. */
  lemma {:induction false} EditsConserve(d: Disk, edits: seq<Edit>)
    ensures Capacity(AfterEdits(d, edits)) == Capacity(d)
    decreases |edits|
  {
    if edits != [] {
      EditConserves(d, edits[0]);
      EditsConserve(ApplyEdit(d, edits[0]), edits[1..]);
    }
  }

  lemma EditConserves(d: Disk, e: Edit)
    ensures Capacity(ApplyEdit(d, e)) == Capacity(d)
  {
    match e
    case WriteTarget(name, content) => BytesChange(d.targets, name, Node(content, d.clock)); hide Bytes;
    case RemoveTarget(name) => EffectsConserve(d, "", name, [], map[], []);
    case WritePart(sha, content) => EffectsConserve(d, sha, "", content, map[], []);
    case RemovePart(sha) => EffectsConserve(d, sha, "", [], map[], []);
    case LoseState =>
  }

  // --- failures ---

  /** `list.remove`: the first mention goes, all others stay. */
  lemma {:induction false} RemovesTheFirst(a: seq<Name>, name: Name, b: seq<Name>)
    requires name !in a
    ensures RemoveFirst(a + [name] + b, name) == a + b && RemoveFirst(a, name) == a
  {
    var all := a + [name] + b;
    if a == [] {
      assert all[1..] == b && a + b == b;
    } else {
      assert all[1..] == a[1..] + [name] + b;
      RemovesTheFirst(a[1..], name, b);
      assert [a[0]] + (a[1..] + b) == a + b && [a[0]] + a[1..] == a;
    }
  }

  /** What is remembered of a file is known until the file gets another size or another time. */
  lemma RememberedIsKnown(v: Verified, targets: map<Name, Node>, name: Name, x: Node, sha: Sha)
    requires name in targets
    ensures KnownSha256(v[name := RecordOf(x, sha)], targets, name) ==
      if |targets[name].content| == |x.content| && targets[name].mtime == x.mtime then Some(sha) else None
    ensures KnownSha256(v - {name}, targets, name) == None && KnownSha256(v, targets - {name}, name) == None
  {
  }

  // --- states ---

  /** A new directory has nothing of a model that has files. */
  lemma NothingIsDownloaded(files: seq<ModelFile>)
    requires files != []
    ensures LocalStateOf(Sessions.EMPTY, files) == NotDownloaded
  {
    assert files[0] in files;
  }

  /** A file that is written by hand, even with the same content, has to be verified again. */
  lemma EditedIsUnverified(hash: Hash, d: Disk, files: seq<ModelFile>, f: ModelFile, content: ModelStore.Bytes)
    requires Safe(hash, d) && LocalStateOf(d, files) == Downloaded && f in files
    ensures LocalStateOf(ApplyEdit(d, WriteTarget(f.name, content)), files) == Unverified
  {
    var e := ApplyEdit(d, WriteTarget(f.name, content));
    var v := LoadVerified(d.state);
    assert KnownSha256(v, d.targets, f.name) == Some(f.sha256);
    assert v[f.name].mtime.Some? && v[f.name].mtime.value < d.clock;
    assert KnownSha256(v, e.targets, f.name) == None;
  }

  /** A complete model from which a file is removed is incomplete as long as anything of it is left. */
  lemma RemovedIsIncomplete(d: Disk, files: seq<ModelFile>, f: ModelFile)
    requires LocalStateOf(d, files) == Downloaded && f in files
    ensures LocalStateOf(ApplyEdit(d, RemoveTarget(f.name)), files) ==
      if (exists g | g in files :: g.name != f.name) || d.partials != map[] then Incomplete else NotDownloaded
  {
    var e := ApplyEdit(d, RemoveTarget(f.name));
    assert f.name !in e.targets;
    if g :| g in files && g.name != f.name { assert g.name in e.targets; }
  }

  /** Losing the records, a complete model has to be verified again; a failure on record stays a failure. */
  lemma RecordsDecide(d: Disk, files: seq<ModelFile>, v: Verified, failed: seq<Name>)
    requires files != []
    ensures LocalStateOf(d, files) == Downloaded ==> LocalStateOf(ApplyEdit(d, LoseState), files) == Unverified
    ensures (exists f | f in files :: f.name in failed) ==> LocalStateOf(SaveState(d, v, failed), files) == FailedVerification
  {
    assert files[0] in files;
  }
}
