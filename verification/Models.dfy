/** A registry entry: the files of a model, each pinned by size and sha256. */
module Models {
  type Name = string
  type Sha = string

  datatype ModelFile = ModelFile(name: Name, size: nat, sha256: Sha)

  datatype ModelEntry = ModelEntry(
    id: string,
    description: string,
    repo: string,
    revision: string,
    diskSpace: nat,
    files: seq<ModelFile>)

  /** The registry parser refuses an entry that lists a name twice. */
  predicate DistinctNames(files: seq<ModelFile>) {
    forall i, j :: 0 <= i < j < |files| ==> files[i].name != files[j].name
  }

  ghost predicate DistinctHashes(files: seq<ModelFile>) {
    forall i, j :: 0 <= i < j < |files| ==> files[i].sha256 != files[j].sha256
  }
}
