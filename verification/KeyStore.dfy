/** The gateway's cache of `keys.toml`, with writers at any moment. */
module KeyStore {
  import opened Wrappers
  import opened KeyFile
  import opened KeyCommands

  /** (inode, modification time, size). */
  type Stamp = nat

  /** What was at the path at one time. */
  datatype Version = Missing | Present(stamp: Stamp, content: File)

  function FileOf(v: Version): File {
    if v.Missing? then Absent else v.content
  }

  function StampOf(v: Version): Option<Stamp> {
    if v.Missing? then None else Some(v.stamp)
  }

  /** Every write gives the file a stamp it never had before; text is in the printed layout. */
  ghost predicate Proper(versions: seq<Version>) {
    && (forall i, j :: 0 <= i < j < |versions| && versions[i].Present? && versions[j].Present? ==>
          versions[i].stamp != versions[j].stamp)
    && (forall i :: 0 <= i < |versions| ==> Covered(FileOf(versions[i])))
  }

  /** The path, with all its versions; the last one is what a reader sees now. */
  class Path {
    var versions: seq<Version>

    constructor (first: Version)
      ensures versions == [first]
    {
      versions := [first];
    }

    function Now(): Version
      requires versions != []
      reads this
    {
      versions[|versions| - 1]
    }

    method Written(more: seq<Version>)
      requires Proper(versions + more)
      modifies this
      ensures versions == old(versions) + more
    {
      versions := versions + more;
    }
  }

  class Store {
    const path: Path
    var stamp: Option<Stamp>
    var hashes: Keys
    /** The version whose stamp is remembered, and the version that was read for it. */
    ghost var statAt: nat
    ghost var loadedAt: nat

    /** The cached list is that of a version no older than the stamp. */
    ghost predicate Valid()
      reads this, path
    {
      && path.versions != []
      && Proper(path.versions)
      && (stamp.Some? ==>
            && statAt <= loadedAt < |path.versions|
            && stamp == StampOf(path.versions[statAt])
            && hashes == Accepted(FileOf(path.versions[loadedAt])))
    }

    constructor (path: Path)
      requires path.versions != [] && Proper(path.versions)
      ensures Valid() && this.path == path && stamp == None
    {
      this.path := path;
      stamp := None;
      hashes := [];
    }

    /**
     * Other processes write the file before this call looks at the stamp, and between that
     * look and the load. The list is that of some version within the call, and if the stamp
     * was known, of the version that was current at the look, whose stamp is then remembered. Bytes that are not UTF-8 make the
     * call raise, and then the cache stays as it was.
     */
    method Refresh(beforeStat: seq<Version>, beforeLoad: seq<Version>) returns (raised: bool, ghost at: nat)
      requires Valid() && Proper(path.versions + beforeStat + beforeLoad)
      modifies this, path
      ensures Valid() && path.versions == old(path.versions) + beforeStat + beforeLoad
      ensures |old(path.versions)| + |beforeStat| - 1 <= at < |path.versions|
      ensures raised ==> FileOf(path.versions[at]).Undecodable? && stamp == old(stamp) && hashes == old(hashes)
      ensures !raised ==> hashes == Accepted(FileOf(path.versions[at]))
      ensures !raised ==> stamp == StampOf((old(path.versions) + beforeStat)[|old(path.versions)| + |beforeStat| - 1])
      ensures old(stamp).Some? && old(stamp) == StampOf((old(path.versions) + beforeStat)[|old(path.versions)| + |beforeStat| - 1]) ==>
                !raised && hashes == old(hashes) && at == |old(path.versions)| + |beforeStat| - 1
    {
      hide Accepted, Loaded, Covered;
      Prefix(path.versions + beforeStat, beforeLoad);
      path.Written(beforeStat);
      ghost var looked := |path.versions| - 1;
      var current := StampOf(path.Now());
      path.Written(beforeLoad);
      if current == stamp && current.Some? {
        assert path.versions[statAt].stamp == path.versions[looked].stamp;
        assert statAt == loadedAt == looked;
        return false, looked;
      }
      var now := FileOf(path.Now());
      var loaded := Load(now);
      AcceptsWhatItLoads(now);
      at := |path.versions| - 1;
      raised := loaded.Err? && loaded.error.NotUtf8?;
      if !raised {
        hashes := match loaded { case Ok(keys) => keys case Err(_) => [] };
        stamp := current;
        statAt, loadedAt := looked, at;
      }
    }

    /**
     * Every check answers as a full scan of one version of the file within the call, or raises
     * because that version is not UTF-8.
     */
    method Check(hash: string, beforeStat: seq<Version>, beforeLoad: seq<Version>)
      returns (raised: bool, found: Option<string>, ghost at: nat)
      requires Valid() && Proper(path.versions + beforeStat + beforeLoad)
      modifies this, path
      ensures Valid() && path.versions == old(path.versions) + beforeStat + beforeLoad
      ensures |old(path.versions)| - 1 <= at < |path.versions|
      ensures raised ==> FileOf(path.versions[at]).Undecodable?
      ensures !raised ==> found == AnswerOf(FileOf(path.versions[at]), hash)
    {
      raised, at := Refresh(beforeStat, beforeLoad);
      found := None;
      if !raised {
        for i := 0 to |hashes|
          invariant found == Answer(hashes[..i], hash)
        {
          assert hashes[..i + 1][..i] == hashes[..i];
          if hashes[i].hash == hash { found := Some(hashes[i].name); }
        }
        assert hashes[..|hashes|] == hashes;
      }
    }
  }

  lemma AcceptsWhatItLoads(file: File)
    ensures Accepted(file) == match Loaded(file) { case Ok(keys) => keys case Err(_) => [] }
    ensures Loaded(file) == Err(NotUtf8) ==> file.Undecodable?
  {
    if Parsed(file).Some? { ErrorsAgree(Parsed(file).value); }
  }

  lemma Prefix(versions: seq<Version>, more: seq<Version>)
    requires Proper(versions + more)
    ensures Proper(versions)
  {
    hide Covered;
    forall i | 0 <= i < |versions| ensures Covered(FileOf(versions[i])) {
      assert (versions + more)[i] == versions[i];
    }
    forall i, j | 0 <= i < j < |versions| && versions[i].Present? && versions[j].Present?
      ensures versions[i].stamp != versions[j].stamp
    {
      assert (versions + more)[i] == versions[i] && (versions + more)[j] == versions[j];
    }
  }
}
