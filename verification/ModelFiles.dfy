/** The list of files in a registry entry: what is accepted, and where the names lead. */
module ModelFiles {
  import opened Json
  import opened Models
  import opened Text

  /** `_file_name_problem` finds none. */
  predicate NameOk(name: string) {
    && name != "" && name[0] != '/' && '\\' !in name
    && (forall part | part in Parts('/', name) :: part !in {"", ".", ".."})
    && Parts('/', name)[0] != ".alab"
  }

  predicate HexOk(s: string, length: nat) {
    |s| == length && forall c | c in s :: '0' <= c <= '9' || 'a' <= c <= 'f'
  }

  predicate ItemOk(item: Json) {
    && item.Obj? && item.fields.Keys <= {"name", "size", "sha256"}
    && var name, size, sha := Get(item.fields, "name"), Get(item.fields, "size"), Get(item.fields, "sha256");
       name.Str? && NameOk(name.s) && size.Int? && size.n >= 0 && sha.Str? && HexOk(sha.s, 64)
  }

  function FileOf(item: Json): ModelFile
    requires ItemOk(item)
  {
    ModelFile(item.fields["name"].s, item.fields["size"].n, item.fields["sha256"].s)
  }

  predicate ItemsOk(items: seq<Json>) {
    forall i :: 0 <= i < |items| ==> ItemOk(items[i])
  }

  function FilesFrom(items: seq<Json>): (files: seq<ModelFile>)
    requires ItemsOk(items)
    ensures |files| == |items| && forall i :: 0 <= i < |items| ==> files[i] == FileOf(items[i])
  {
    seq(|items|, i requires 0 <= i < |items| => FileOf(items[i]))
  }

  predicate FilesOk(value: Json) {
    value.Arr? && value.items != [] && ItemsOk(value.items) && DistinctNames(FilesFrom(value.items))
  }

  function FilesOf(value: Json): seq<ModelFile>
    requires FilesOk(value)
  {
    FilesFrom(value.items)
  }

  function TotalSize(files: seq<ModelFile>): nat {
    if files == [] then 0 else TotalSize(files[..|files| - 1]) + files[|files| - 1].size
  }

  // ---- Where a name leads ----

  /** Following a relative path from a directory, part by part. */
  function Walk(at: seq<string>, parts: seq<string>): seq<string>
    decreases |parts|
  {
    if parts == [] then at
    else
      var next :=
        if parts[0] == "" || parts[0] == "." then at
        else if parts[0] == ".." then (if at == [] then at else at[..|at| - 1])
        else at + [parts[0]];
      Walk(next, parts[1..])
  }

  lemma {:induction false} WalkGoesDown(at: seq<string>, parts: seq<string>)
    requires forall part | part in parts :: part !in {"", ".", ".."}
    ensures Walk(at, parts) == at + parts
    decreases |parts|
  {
    if parts != [] {
      assert parts[0] in parts && forall part | part in parts[1..] :: part in parts;
      WalkGoesDown(at + [parts[0]], parts[1..]);
      assert at + [parts[0]] + parts[1..] == at + parts;
    }
  }

  /** Every accepted name stays inside the model's directory and away from its download state. */
  lemma NamesStayInside(directory: seq<string>, name: string)
    requires NameOk(name)
    ensures var at := Walk(directory, Parts('/', name));
      && directory <= at && |at| > |directory| && at[|directory|] != ".alab"
  {
    WalkGoesDown(directory, Parts('/', name));
  }

  lemma {:induction false} WalkIsNoLonger(at: seq<string>, parts: seq<string>)
    ensures |Walk(at, parts)| <= |at| + |parts|
    ensures |Walk(at, parts)| == |at| + |parts| ==> forall part | part in parts :: part !in {"", ".", ".."}
    decreases |parts|
  {
    if parts != [] {
      WalkIsNoLonger(if parts[0] == "" || parts[0] == "." then at
        else if parts[0] == ".." then (if at == [] then at else at[..|at| - 1]) else at + [parts[0]], parts[1..]);
      assert parts == [parts[0]] + parts[1..];
    }
  }

  /**
   * A name is accepted exactly if it has no backslash, following it from any directory goes down
   * part by part, and the first part is not the one that is reserved.
   */
  lemma AcceptedNamesGoDown(name: string)
    ensures NameOk(name) <==>
      && '\\' !in name && Parts('/', name)[0] != ".alab"
      && forall at: seq<string> :: Walk(at, Parts('/', name)) == at + Parts('/', name)
  {
    var parts := Parts('/', name);
    if NameOk(name) {
      forall at: seq<string> ensures Walk(at, parts) == at + parts { WalkGoesDown(at, parts); }
    }
    if forall at: seq<string> :: Walk(at, parts) == at + parts {
      assert Walk([], parts) == [] + parts;
      WalkIsNoLonger([], parts);
      assert parts[0] in parts && parts[0] != "";
      assert name != "" && name[0] != '/';
    }
  }

  /** Different accepted names lead to different files. */
  lemma NamesDoNotCollide(directory: seq<string>, a: string, b: string)
    requires NameOk(a) && NameOk(b) && a != b
    ensures Walk(directory, Parts('/', a)) != Walk(directory, Parts('/', b))
  {
    var p, q := Parts('/', a), Parts('/', b);
    WalkGoesDown(directory, p);
    WalkGoesDown(directory, q);
    if p == q { PartsAreUnique('/', a, b); }
    assert (directory + p)[|directory|..] == p && (directory + q)[|directory|..] == q;
  }
}
