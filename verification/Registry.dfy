/** The model registry: validating its tables. */
module Registry {
  import opened Wrappers
  import opened Json
  import opened Models
  import opened ModelFiles
  import opened Section
  import Order
  import Sizes

  type Entries = map<string, ModelEntry>

  ghost const ENTRY: Rules := map[
    "id" := Rule.Text(EntryId),
    "description" := Rule.Text(AnyText),
    "repo" := Rule.Text(Repository),
    "revision" := Rule.Text(Revision),
    "disk_space" := Rule.Size,
    "files" := Rule.FileList]

  lemma EntryRules()
    ensures ENTRY.Keys == {"id", "description", "repo", "revision", "disk_space", "files"}
    ensures ENTRY["id"] == Rule.Text(EntryId) && ENTRY["description"] == Rule.Text(AnyText)
    ensures ENTRY["repo"] == Rule.Text(Repository) && ENTRY["revision"] == Rule.Text(Revision)
    ensures ENTRY["disk_space"] == Rule.Size && ENTRY["files"] == Rule.FileList
  {
  }

  function FilesIn(table: Fields): seq<ModelFile> {
    var j := Get(table, "files");
    if FilesOk(j) then FilesOf(j) else []
  }

  function EntryOf(table: Fields): ModelEntry {
    ModelEntry(
      TextOf(table, "id"), TextOf(table, "description"), TextOf(table, "repo"),
      TextOf(table, "revision"), SizeOf(table, "disk_space"), FilesIn(table))
  }

  /** The declared space covers the files; a space that was not read is not compared. */
  predicate Covers(e: ModelEntry) {
    e.files == [] || e.diskSpace == 0 || e.diskSpace >= TotalSize(e.files)
  }

  ghost predicate TableOk(j: Json) {
    && j.Obj? && j.fields.Keys <= ENTRY.Keys
    && (forall key | key in ENTRY :: Good(ENTRY[key], j.fields, key))
    && Covers(EntryOf(j.fields))
  }

  function IdOf(j: Json): string {
    TextOf(TableOf(j), "id")
  }

  ghost predicate TablesOk(tables: seq<Json>) {
    && (forall i :: 0 <= i < |tables| ==> TableOk(tables[i]))
    && forall i, j :: 0 <= i < j < |tables| && IdOf(tables[i]) != "" ==> IdOf(tables[i]) != IdOf(tables[j])
  }

  /** Without an id (which TOML cannot express) an entry is not kept. */
  function EntriesOf(tables: seq<Json>): Entries {
    if tables == [] then map[]
    else
      var last := tables[|tables| - 1];
      var before := EntriesOf(tables[..|tables| - 1]);
      if IdOf(last) == "" then before else before[IdOf(last) := EntryOf(TableOf(last))]
  }

  lemma {:induction false} EntriesKeys(tables: seq<Json>)
    ensures forall id :: id in EntriesOf(tables) <==> id != "" && exists t | t in tables :: IdOf(t) == id
  {
    hide IdOf, EntryOf;
    if tables != [] {
      var before, last := tables[..|tables| - 1], tables[|tables| - 1];
      EntriesKeys(before);
      assert forall t :: t in tables <==> t in before || t == last;
    }
  }

  /** The `model` array; a missing one is empty. */
  function TablesIn(data: Fields): Json {
    if "model" in data then data["model"] else Arr([])
  }

  ghost predicate RegistryOk(data: Fields) {
    data.Keys <= {"model"} && TablesIn(data).Arr? && TablesOk(TablesIn(data).items)
  }

  // ---- The files of one entry ----

  predicate ShapeOk(item: Json, names: set<string>) {
    ItemOk(item) && item.fields["name"].s !in names
  }

  /**
   * `_parse_files`: one problem or more exactly if the list is not acceptable; every problem
   * is placed at the list.
   */
  method ParseFiles(section: string, value: Json, errors: Errors) returns (files: seq<ModelFile>)
    modifies errors
    ensures Named(errors.list) == Named(old(errors.list)) + if FilesOk(value) then {} else {Place(section, "files")}
    ensures FilesOk(value) ==> files == FilesOf(value)
  {
    hide Named, NameOk, HexOk;
    files := [];
    if !value.Arr? || value.items == [] {
      errors.Add(section, "files", WrongType);
      return;
    }
    var items := value.items;
    var seen: set<string> := {};
    ghost var clean := true;
    for i := 0 to |items|
      invariant clean <==> ItemsOk(items[..i]) && DistinctNames(FilesFrom(items[..i]))
      invariant clean ==> files == FilesFrom(items[..i]) && seen == set f | f in files :: f.name
      invariant Named(errors.list) == Named(old(errors.list)) + if clean then {} else {Place(section, "files")}
    {
      var item := items[i];
      OneMoreItem(items[..i], item);
      assert items[..i + 1] == items[..i] + [item];
      clean := clean && ShapeOk(item, seen);
      if !item.Obj? {
        errors.Add(section, "files", WrongType);
      } else {
        var file := ParseItem(section, item.fields, seen, errors);
        if file.Some? {
          seen := seen + {file.value.name};
          files := files + [file.value];
        }
      }
    }
    assert items[..|items|] == items;
  }

  lemma OneMoreItem(items: seq<Json>, item: Json)
    ensures ItemsOk(items + [item]) <==> ItemsOk(items) && ItemOk(item)
    ensures ItemsOk(items) && ItemOk(item) ==> FilesFrom(items + [item]) == FilesFrom(items) + [FileOf(item)]
    ensures ItemsOk(items) && ItemOk(item) ==>
      (DistinctNames(FilesFrom(items + [item])) <==>
       DistinctNames(FilesFrom(items)) && forall f | f in FilesFrom(items) :: f.name != FileOf(item).name)
  {
    hide ItemOk;
    var more := items + [item];
    assert more[|items|] == item && forall i :: 0 <= i < |items| ==> more[i] == items[i];
    if ItemsOk(more) {
      forall i | 0 <= i < |items| ensures ItemOk(items[i]) { assert ItemOk(more[i]); }
    }
    if ItemsOk(items) && ItemOk(item) {
      var before, last := FilesFrom(items), FileOf(item);
      assert FilesFrom(more) == before + [last];
      OneMoreName(before, last);
    }
  }

  lemma OneMoreName(files: seq<ModelFile>, last: ModelFile)
    ensures DistinctNames(files + [last]) <==> DistinctNames(files) && forall f | f in files :: f.name != last.name
  {
    var more := files + [last];
    assert more[|files|] == last && forall i :: 0 <= i < |files| ==> more[i] == files[i];
    if DistinctNames(more) {
      forall i, j | 0 <= i < j < |files| ensures files[i].name != files[j].name {
        assert more[i].name != more[j].name;
      }
      forall f | f in files ensures f.name != last.name {
        var i :| 0 <= i < |files| && files[i] == f;
        assert more[i].name != more[|files|].name;
      }
    }
  }

  /** One item: a file if its own fields are good, even beside an unknown one. */
  method ParseItem(section: string, item: Fields, seen: set<string>, errors: Errors)
    returns (file: Option<ModelFile>)
    modifies errors
    ensures Named(errors.list) == Named(old(errors.list)) + if ShapeOk(Obj(item), seen) then {} else {Place(section, "files")}
    ensures ShapeOk(Obj(item), seen) ==> file == Some(FileOf(Obj(item)))
  {
    hide Named, NameOk, HexOk;
    var unknown := Order.Sorted(item.Keys - {"name", "size", "sha256"});
    UnknownIsEmpty(unknown, item.Keys - {"name", "size", "sha256"});
    for i := 0 to |unknown|
      invariant Named(errors.list) == Named(old(errors.list)) + if i == 0 then {} else {Place(section, "files")}
    {
      errors.Add(section, "files", UnknownField);
    }
    var name, size, sha := Get(item, "name"), Get(item, "size"), Get(item, "sha256");
    var ok := true;
    if !name.Str? {
      errors.Add(section, "files", WrongType);
      ok := false;
    } else if !NameOk(name.s) || name.s in seen {
      errors.Add(section, "files", Rejected);
      ok := false;
    }
    if !size.Int? || size.n < 0 {
      errors.Add(section, "files", WrongType);
      ok := false;
    }
    if !sha.Str? || !HexOk(sha.s, 64) {
      errors.Add(section, "files", Rejected);
      ok := false;
    }
    file := if ok then Some(ModelFile(name.s, size.n, sha.s)) else None;
  }

  lemma UnknownIsEmpty(unknown: seq<string>, keys: set<string>)
    requires Order.Elements(unknown) == keys
    ensures unknown == [] <==> keys == {}
  {
    if unknown != [] { assert unknown[0] in Order.Elements(unknown); }
  }

  // ---- One table ----

  method ReadFiles(s: Section) returns (files: seq<ModelFile>)
    requires s.Ready("files", Rule.FileList)
    modifies s, s.errors
    ensures s.Valid() && s.seen == old(s.seen) + {"files"}
    ensures FilesOk(Get(s.table, "files")) ==> files == FilesOf(Get(s.table, "files"))
  {
    hide Named, BadAmong, FilesOk;
    BadAmongOneMore(s.name, s.table, s.rules, s.seen, "files");
    NullIsNoList();
    s.seen := s.seen + {"files"};
    files := [];
    if s.valid {
      files := ParseFiles(s.name, Get(s.table, "files"), s.errors);
    }
  }

  lemma NullIsNoList()
    ensures !FilesOk(Null)
  {
  }

  method ReadTable(title: string, j: Json, errors: Errors) returns (e: ModelEntry)
    modifies errors
    ensures Named(errors.list) == Named(old(errors.list)) + BadPlaces(title, j, ENTRY)
    ensures e.id == IdOf(j) && (BadPlaces(title, j, ENTRY) == {} ==> e == EntryOf(TableOf(j)))
  {
    hide Named, BadAmong, BadPlaces, TextOf, SizeOf, TableOf, FilesOk, Good, ENTRY;
    EntryRules();
    ghost var start := Named(errors.list);
    var s := new Section(title, j, errors, ENTRY);
    var id := s.Text("id", EntryId);
    var description := s.Text("description", AnyText);
    var repo := s.Text("repo", Repository);
    var revision := s.Text("revision", Revision);
    var space := s.Size("disk_space");
    var files := ReadFiles(s);
    s.Finish(start, j);
    e := ModelEntry(id, description, repo, revision, space, files);
    FilesAreGood(title, j);
  }

  lemma FilesAreGood(title: string, j: Json)
    ensures BadPlaces(title, j, ENTRY) == {} ==> FilesOk(Get(TableOf(j), "files"))
  {
    hide BadPlaces, FilesOk, ENTRY;
    EntryRules();
    NothingBad(title, j, ENTRY);
  }

  function Title(j: Json, i: nat): string {
    var id := Get(TableOf(j), "id");
    if id.Str? then "model " + id.s else "model #" + Sizes.Decimal(i + 1)
  }

  // ---- The whole registry ----

  ghost predicate NewId(tables: seq<Json>, id: string) {
    id != "" ==> forall t | t in tables :: IdOf(t) != id
  }

  lemma OneMoreTable(tables: seq<Json>, j: Json)
    ensures TablesOk(tables + [j]) <==> TablesOk(tables) && TableOk(j) && NewId(tables, IdOf(j))
    ensures EntriesOf(tables + [j]) ==
      if IdOf(j) == "" then EntriesOf(tables) else EntriesOf(tables)[IdOf(j) := EntryOf(TableOf(j))]
  {
    hide TableOk, IdOf, EntryOf;
    var more := tables + [j];
    assert more[..|tables|] == tables;
    if TablesOk(more) {
      forall i | 0 <= i < |tables| ensures TableOk(tables[i]) && (IdOf(j) != "" ==> IdOf(tables[i]) != IdOf(j)) {
        assert more[i] == tables[i] && more[|tables|] == j;
      }
      assert forall i, k :: 0 <= i < k < |tables| ==> more[i] == tables[i] && more[k] == tables[k];
    }
  }

  lemma TableIsOk(title: string, j: Json)
    ensures TableOk(j) <==> BadPlaces(title, j, ENTRY) == {} && Covers(EntryOf(TableOf(j)))
  {
    hide BadPlaces, EntryOf, Covers, ENTRY;
    NothingBad(title, j, ENTRY);
  }

  /** What has to be named for one table: its bad fields, and its id if that was there before. */
  ghost function Faults(title: string, j: Json, repeated: bool): set<Place> {
    BadPlaces(title, j, ENTRY) + if repeated then {Place(title, "id")} else {}
  }

  function Ids(tables: seq<Json>): set<string> {
    (set t | t in tables :: IdOf(t)) - {""}
  }

  /** What has to be named for all tables. */
  ghost function AllFaults(tables: seq<Json>): set<Place> {
    if tables == [] then {}
    else
      var n := |tables| - 1;
      AllFaults(tables[..n]) + Faults(Title(tables[n], n), tables[n], IdOf(tables[n]) in Ids(tables[..n]))
  }

  /** One table of the array; an id that was there before is a problem. */
  method AddTable(j: Json, i: nat, entries: Entries, errors: Errors) returns (r: Entries)
    modifies errors
    ensures Named(errors.list) == {} <==> Named(old(errors.list)) == {} && TableOk(j) && IdOf(j) !in entries
    ensures Named(errors.list) == {} ==> r == if IdOf(j) == "" then entries else entries[IdOf(j) := EntryOf(TableOf(j))]
    ensures r.Keys == entries.Keys + if IdOf(j) == "" then {} else {IdOf(j)}
    ensures Named(errors.list) >= Named(old(errors.list)) + Faults(Title(j, i), j, IdOf(j) in entries)
  {
    hide Named, BadPlaces, TableOk, EntryOf, Covers, IdOf, Title;
    var title := Title(j, i);
    TableIsOk(title, j);
    var e := ReadTable(title, j, errors);
    r := entries;
    if e.id in entries {
      errors.Add(title, "id", Rejected);
    } else {
      if !Covers(e) {
        errors.Add(title, "disk_space", TooSmall);
      }
      if e.id != "" { r := r[e.id := e]; }
    }
  }

  ghost function StrangeKeys(data: Fields): set<Place> {
    set k | k in data && k != "model" :: Place(k, "")
  }

  /** Top-level keys other than `model`. */
  method ReportStrangeKeys(data: Fields, errors: Errors)
    modifies errors
    ensures Named(errors.list) == Named(old(errors.list)) + StrangeKeys(data)
  {
    hide Named;
    var unknown := Order.Sorted(data.Keys - {"model"});
    ghost var known := Named(errors.list);
    for i := 0 to |unknown|
      invariant Named(errors.list) == known + set k | k in unknown[..i] :: Place(k, "")
    {
      assert unknown[..i + 1] == unknown[..i] + [unknown[i]];
      errors.Add(unknown[i], "", UnknownField);
    }
    assert unknown[..|unknown|] == unknown;
    assert forall k :: k in unknown <==> k in Order.Elements(unknown);
  }

  /** The loop over the tables. */
  method ReadTables(tables: seq<Json>, errors: Errors) returns (entries: Entries)
    modifies errors
    ensures Named(errors.list) == {} <==> Named(old(errors.list)) == {} && TablesOk(tables)
    ensures Named(errors.list) == {} ==> entries == EntriesOf(tables)
    ensures Named(old(errors.list)) + AllFaults(tables) <= Named(errors.list)
  {
    hide Named, TableOk, TablesOk, IdOf, EntryOf, EntriesOf, Faults, Title;
    entries := map[];
    ghost var known := Named(errors.list);
    NoTables();
    assert tables[..0] == [];
    for i := 0 to |tables|
      invariant Named(errors.list) == {} <==> known == {} && TablesOk(tables[..i])
      invariant Named(errors.list) == {} ==> entries == EntriesOf(tables[..i])
      invariant entries.Keys == Ids(tables[..i]) && known + AllFaults(tables[..i]) <= Named(errors.list)
    {
      var before := tables[..i];
      OneMoreFault(before, tables[i]);
      OneMoreTable(before, tables[i]);
      KnownIds(before, IdOf(tables[i]));
      IdsAreKeys(before);
      assert tables[..i + 1] == before + [tables[i]];
      entries := AddTable(tables[i], i, entries, errors);
    }
    assert tables[..|tables|] == tables;
  }

  lemma OneMoreFault(tables: seq<Json>, j: Json)
    ensures AllFaults(tables + [j]) == AllFaults(tables) + Faults(Title(j, |tables|), j, IdOf(j) in Ids(tables))
    ensures Ids(tables + [j]) == Ids(tables) + if IdOf(j) == "" then {} else {IdOf(j)}
  {
    hide Faults, Title, IdOf;
    assert (tables + [j])[..|tables|] == tables;
    assert forall t :: t in tables + [j] <==> t in tables || t == j;
  }

  lemma IdsAreKeys(tables: seq<Json>)
    ensures EntriesOf(tables).Keys == Ids(tables)
  {
    hide IdOf;
    EntriesKeys(tables);
  }

  /**
   * `parse_registry`: accepted exactly if every table is good, with distinct ids; then it is
   * their map. A refusal names every bad, missing, unknown and repeated field of every table.
   */
  method ParseRegistry(data: Fields) returns (r: Result<Entries, seq<Problem>>)
    ensures r.Ok? <==> RegistryOk(data)
    ensures r.Ok? ==> r.value == EntriesOf(TablesIn(data).items) && data.Keys <= {"model"}
    ensures r.Err? ==> r.error != [] && StrangeKeys(data) <= Named(r.error)
    ensures r.Err? && TablesIn(data).Arr? ==> AllFaults(TablesIn(data).items) <= Named(r.error)
  {
    hide Named, TablesOk, EntriesOf, AllFaults;
    var errors := new Errors();
    NoneNamed(errors.list);
    ReportStrangeKeys(data, errors);
    assert StrangeKeys(data) == {} <==> data.Keys <= {"model"} by {
      assert forall k | k in data && k != "model" :: Place(k, "") in StrangeKeys(data);
    }
    var raw, tables := TablesIn(data), [];
    if raw.Arr? {
      tables := raw.items;
    } else {
      errors.Add("model", "", WrongType);
    }
    var entries := ReadTables(tables, errors);
    NoneNamed(errors.list);
    r := if errors.list == [] then Ok(entries) else Err(errors.list);
  }

  lemma NoTables()
    ensures TablesOk([]) && EntriesOf([]) == map[]
  {
  }

  lemma KnownIds(tables: seq<Json>, id: string)
    ensures id !in EntriesOf(tables) <==> NewId(tables, id)
  {
    hide IdOf;
    EntriesKeys(tables);
  }
}
