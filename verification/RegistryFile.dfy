/** `write_entry`: what the registry file holds after an entry was added or replaced. */
module RegistryFile {
  import opened Wrappers
  import opened Json
  import opened Models
  import opened ModelFiles
  import opened Section
  import opened Registry
  import opened RegistryText
  import Order
  import Sizes
  import Toml

  /** What validation asks of an entry, apart from its disk space. */
  predicate FilesValid(files: seq<ModelFile>) {
    && files != [] && DistinctNames(files)
    && forall i :: 0 <= i < |files| ==> NameOk(files[i].name) && HexOk(files[i].sha256, 64)
  }

  predicate EntryValid(e: ModelEntry) {
    && e.id != "" && Passes(EntryId, e.id) && e.description != ""
    && e.repo != "" && Passes(Repository, e.repo) && e.revision != "" && Passes(Revision, e.revision)
    && FilesValid(e.files)
  }

  /** The entry with the disk space that printing gives it. */
  function Normalized(e: ModelEntry): ModelEntry {
    e.(diskSpace := Sizes.TenthsSize(Sizes.TenthsFor(TotalSize(e.files))))
  }

  lemma FilesReadBack(files: seq<ModelFile>)
    ensures FilesOk(Arr(FileJsons(files))) <==> FilesValid(files)
    ensures FilesValid(files) ==> FilesOf(Arr(FileJsons(files))) == files
  {
    hide NameOk, HexOk;
    var items := FileJsons(files);
    forall i | 0 <= i < |files|
      ensures ItemOk(items[i]) <==> NameOk(files[i].name) && HexOk(files[i].sha256, 64)
      ensures ItemOk(items[i]) ==> FileOf(items[i]) == files[i]
    {
    }
    if ItemsOk(items) {
      assert forall i :: 0 <= i < |items| ==> ItemOk(items[i]);
      assert FilesFrom(items) == files;
    } else {
      var i :| 0 <= i < |items| && !ItemOk(items[i]);
    }
    assert items == [] <==> files == [];
  }

  lemma SpaceReadsBack(e: ModelEntry)
    ensures Sizes.ParseSize(SpaceText(e)) == Some(Normalized(e).diskSpace)
    ensures Normalized(e).diskSpace > 0 && Normalized(e).diskSpace >= TotalSize(e.files)
  {
    hide Sizes.ParseSize, Sizes.TenthsText;
    var tenths := Sizes.TenthsFor(TotalSize(e.files));
    Sizes.TenthsReadBack(tenths);
    Sizes.TenthsForIsLeast(TotalSize(e.files), tenths);
  }

  /** The table printed for an entry is accepted exactly if the entry is valid, and means it. */
  lemma TableReadsBack(e: ModelEntry)
    ensures TableOk(TableFor(e)) <==> EntryValid(e)
    ensures EntryValid(e) ==> EntryOf(TableFor(e).fields) == Normalized(e)
    ensures IdOf(TableFor(e)) == e.id
  {
    hide Sizes.ParseSize, FilesOk, FilesOf, FilesValid, SpaceText, Normalized, Passes, TotalSize, ENTRY;
    FilesReadBack(e.files);
    SpaceReadsBack(e);
    NormalizedIsTheRest(e);
    FieldsAreGood(e);
  }

  lemma FieldsAreGood(e: ModelEntry)
    ensures var t := TableFor(e).fields;
      (forall key | key in ENTRY :: Good(ENTRY[key], t, key)) <==>
      && e.id != "" && Passes(EntryId, e.id) && e.description != ""
      && e.repo != "" && Passes(Repository, e.repo) && e.revision != "" && Passes(Revision, e.revision)
      && FilesOk(Arr(FileJsons(e.files)))
    ensures TableFor(e).fields.Keys == ENTRY.Keys
  {
    hide Sizes.ParseSize, FilesOk, SpaceText, Normalized, TotalSize, Passes, Good, ENTRY;
    EntryRules();
    SpaceReadsBack(e);
    var t := TableFor(e).fields;
    GoodText(EntryId, t, "id", e.id);
    GoodText(AnyText, t, "description", e.description);
    GoodText(Repository, t, "repo", e.repo);
    GoodText(Revision, t, "revision", e.revision);
    GoodOthers(e, t);
    assert Passes(AnyText, e.description) by { AnyTextPasses(e.description); }
  }

  lemma AnyTextPasses(s: string)
    ensures Passes(AnyText, s)
  {
  }

  lemma GoodText(check: Check, t: Fields, key: string, s: string)
    requires key in t && t[key] == Str(s)
    ensures Good(Rule.Text(check), t, key) <==> s != "" && Passes(check, s)
  {
    hide Passes;
  }

  lemma GoodOthers(e: ModelEntry, t: Fields)
    requires "disk_space" in t && t["disk_space"] == Str(SpaceText(e))
    requires "files" in t && t["files"] == Arr(FileJsons(e.files))
    ensures Good(Rule.Size, t, "disk_space")
    ensures Good(Rule.FileList, t, "files") <==> FilesOk(Arr(FileJsons(e.files)))
  {
    hide Sizes.ParseSize, FilesOk, SpaceText, Normalized, TotalSize, Passes;
    SpaceReadsBack(e);
  }

  lemma NormalizedIsTheRest(e: ModelEntry)
    ensures Normalized(e) == ModelEntry(e.id, e.description, e.repo, e.revision, Normalized(e).diskSpace, e.files)
  {
  }

  // ---- The file ----

  /**
   * No file, one that cannot be read or is not TOML, text in the printed layout, or TOML in
   * another one, given by what it means.
   */
  datatype File = Missing | Unreadable | Content(text: string) | Foreign(data: Fields)

  /** Text is in the layout that the reader knows: it can be read, or was printed for some entries. */
  ghost predicate Covered(file: File) {
    file.Content? ==> ReadFileText(file.text).Some? || exists entries :: file.text == FileText(entries)
  }

  /** TOML has no null. */
  predicate NoNulls(t: Json) {
    t.Obj? ==> forall key | key in t.fields :: !t.fields[key].Null?
  }

  /** The document in the file; None if there is none that can be read. */
  function Document(file: File): Option<Fields> {
    match file
    case Missing => None
    case Unreadable => None
    case Content(text) => ReadFileText(text)
    case Foreign(data) =>
      var tables := TablesIn(data);
      if tables.Arr? ==> forall t | t in tables.items :: NoNulls(t) then Some(data) else None
  }

  /** The entries in the file, if it can be read and is valid. */
  ghost function Loaded(file: File): Option<Entries> {
    match Document(file)
    case None => None
    case Some(data) => if RegistryOk(data) then Some(EntriesOf(TablesIn(data).items)) else None
  }

  /** What a write starts from. */
  ghost function Before(file: File): Option<Entries> {
    if file.Missing? then Some(map[]) else Loaded(file)
  }

  function Listed(ids: seq<string>, m: Entries): (entries: seq<ModelEntry>)
    requires forall id | id in ids :: id in m
    ensures |entries| == |ids| && forall i :: 0 <= i < |ids| ==> entries[i] == m[ids[i]]
  {
    seq(|ids|, i requires 0 <= i < |ids| => m[ids[i]])
  }

  /** Every entry is stored under its own id. */
  ghost predicate Keyed(m: Entries) {
    forall id | id in m :: m[id].id == id
  }

  ghost predicate Writable(m: Entries) {
    forall id | id in m :: Printable(m[id]) && EntryValid(m[id])
  }

  function NormalizedAll(m: Entries): Entries {
    map id | id in m :: Normalized(m[id])
  }

  /** The file lists exactly these entries, in the order of their ids. */
  ghost predicate Lists(file: File, m: Entries) {
    file.Content? && exists ids ::
      Order.Ascending(ids) && Order.Elements(ids) == m.Keys && file.text == FileText(Listed(ids, m))
  }

  ghost predicate CanWrite(file: File, e: ModelEntry) {
    Before(file).Some? && Writable(Before(file).value[e.id := e])
  }

  /** The file after a successful write. */
  ghost predicate Writes(before: File, e: ModelEntry, after: File) {
    && CanWrite(before, e)
    && Lists(after, Before(before).value[e.id := e])
    && Loaded(after) == Some(NormalizedAll(Before(before).value[e.id := e]))
  }

  // ---- Reading what was written ----

  lemma {:induction false} TablesReadBack(ids: seq<string>, m: Entries)
    requires Order.Ascending(ids) && Keyed(m) && forall id | id in ids :: id in m
    ensures var tables := TablesFor(Listed(ids, m));
      && (TablesOk(tables) <==> forall id | id in ids :: EntryValid(m[id]))
      && (TablesOk(tables) ==> EntriesOf(tables) == map id | id in ids :: Normalized(m[id]))
  {
    hide TableFor, TableOk, EntryOf, IdOf, TablesOk, EntriesOf, EntryValid, Normalized, Order.Below, NewId;
    if ids == [] {
      NoTables();
      assert TablesFor(Listed(ids, m)) == [];
    } else {
      var before, last := ids[..|ids| - 1], ids[|ids| - 1];
      var tables, table := TablesFor(Listed(before, m)), TableFor(m[last]);
      assert forall id :: id in ids <==> id in before || id == last;
      TablesReadBack(before, m);
      assert TablesFor(Listed(ids, m)) == tables + [table];
      OneMoreTable(tables, table);
      TableReadsBack(m[last]);
      EarlierIdsDiffer(ids, m);
      TableIsAnObject(m[last]);
      ValidHasId(m[last]);
    }
  }

  lemma ValidHasId(e: ModelEntry)
    ensures EntryValid(e) ==> e.id != ""
  {
  }

  lemma EarlierIdsDiffer(ids: seq<string>, m: Entries)
    requires ids != [] && Order.Ascending(ids) && Keyed(m) && forall id | id in ids :: id in m
    ensures NewId(TablesFor(Listed(ids[..|ids| - 1], m)), ids[|ids| - 1])
  {
    hide TableFor, IdOf, Order.Below, TableOk, EntryValid, EntryOf, Normalized;
    var before, last := ids[..|ids| - 1], ids[|ids| - 1];
    var tables := TablesFor(Listed(before, m));
    forall t | t in tables ensures IdOf(t) != last {
      var i :| 0 <= i < |tables| && tables[i] == t;
      TableReadsBack(m[before[i]]);
      assert before[i] == ids[i] && Order.Below(ids[i], last);
      Order.Total(ids[i], last);
    }
  }

  lemma TableIsAnObject(e: ModelEntry)
    ensures TableOf(TableFor(e)) == TableFor(e).fields
  {
  }

  /** A list of entries reads back as their map if all can be written, and is refused otherwise. */
  lemma FileReadsBack(ids: seq<string>, m: Entries)
    requires Order.Ascending(ids) && Order.Elements(ids) == m.Keys && Keyed(m)
    ensures Loaded(Content(FileText(Listed(ids, m)))) == if Writable(m) then Some(NormalizedAll(m)) else None
  {
    hide TablesOk, EntriesOf, FileText, ReadFileText, TableFor, Printable, EntryValid, Normalized, Order.Ascending;
    var entries := Listed(ids, m);
    assert forall id :: id in ids <==> id in Order.Elements(ids);
    TablesReadBack(ids, m);
    ReadsFileText(entries);
    assert AllPrintable(entries) <==> forall id | id in m :: Printable(m[id]) by {
      forall id | id in m ensures m[id] in entries {
        var i :| 0 <= i < |ids| && ids[i] == id;
        assert entries[i] == m[id];
      }
    }
    NoTables();
    if AllPrintable(entries) {
      var tables := TablesFor(entries);
      var data: Fields := if entries == [] then map[] else map["model" := Arr(tables)];
      assert entries == [] ==> tables == [];
      assert ReadFileText(FileText(entries)) == Some(data) && TablesIn(data) == Arr(tables);
      assert RegistryOk(data) <==> TablesOk(tables);
      assert TablesOk(tables) <==> forall id | id in m :: EntryValid(m[id]);
      assert TablesOk(tables) ==> EntriesOf(tables) == NormalizedAll(m);
      var file := Content(FileText(entries));
      assert Loaded(file) == if RegistryOk(data) then Some(EntriesOf(tables)) else None;
    }
  }

  class RegistryPath {
    var file: File

    constructor (file: File)
      ensures this.file == file
    {
      this.file := file;
    }

    /** `load_registry`. */
    method Load() returns (r: Option<Entries>)
      requires Covered(file)
      ensures r == Loaded(file)
    {
      hide Document, RegistryOk, EntriesOf;
      var data := Document(file);
      if data.None? {
        return None;
      }
      var parsed := ParseRegistry(data.value);
      r := if parsed.Ok? then Some(parsed.value) else None;
    }

    /**
     * `write_entry`: succeeds exactly if all entries can be printed and read back, and then the
     * file lists them in order and loads as them; otherwise the file is untouched.
     */
    method WriteEntry(e: ModelEntry) returns (ok: bool)
      requires Covered(file)
      modifies this
      ensures ok <==> CanWrite(old(file), e)
      ensures ok ==> Writes(old(file), e, file)
      ensures !ok ==> file == old(file)
      ensures Covered(file)
    {
      hide Loaded, Writable, EntryText, EntriesText, RegistryText.HEADER, Keyed, NormalizedAll, Order.Ascending;
      var registry: Entries := map[];
      if !file.Missing? {
        var loaded := Load();
        if loaded.None? {
          return false;
        }
        registry := loaded.value;
      }
      LoadedIsKeyed(file);
      var wanted := registry[e.id := e];
      var ids := Order.Sorted(wanted.Keys);
      assert forall id :: id in ids <==> id in Order.Elements(ids);
      var text := RenderAll(Listed(ids, wanted));
      PrintedIsCovered(Listed(ids, wanted));
      hide Covered;
      var parsed := new RegistryPath(Content(text));
      var readBack := parsed.Load();
      WantedReadsBack(registry, e, ids);
      ok := readBack.Some?;
      if ok { file := Content(text); }
    }
  }

  lemma {:induction false} EntriesAreKeyed(tables: seq<Json>)
    ensures Keyed(EntriesOf(tables))
  {
    if tables != [] { EntriesAreKeyed(tables[..|tables| - 1]); }
  }

  lemma PrintedIsCovered(entries: seq<ModelEntry>)
    ensures Covered(Content(FileText(entries)))
  {
  }

  lemma LoadedIsKeyed(file: File)
    ensures Before(file).Some? ==> Keyed(Before(file).value)
  {
    hide Document, TablesOk, EntriesOf;
    if Before(file).Some? && !file.Missing? {
      EntriesAreKeyed(TablesIn(Document(file).value).items);
    }
  }

  lemma WantedReadsBack(registry: Entries, e: ModelEntry, ids: seq<string>)
    requires Keyed(registry)
    requires Order.Ascending(ids) && Order.Elements(ids) == registry[e.id := e].Keys
    ensures var m := registry[e.id := e];
      Loaded(Content(FileText(Listed(ids, m)))) == if Writable(m) then Some(NormalizedAll(m)) else None
  {
    FileReadsBack(ids, registry[e.id := e]);
  }

  method RenderAll(entries: seq<ModelEntry>) returns (text: string)
    ensures text == FileText(entries)
  {
    hide EntryText, HEADER;
    text := HEADER;
    assert entries[0..] == entries;
    for i := 0 to |entries|
      invariant FileText(entries) == text + EntriesText(entries[i..])
    {
      var one := RenderEntry(entries[i]);
      var rest := EntriesText(entries[i + 1..]);
      EntryBefore(entries[i], rest);
      assert entries[i..][1..] == entries[i + 1..];
      assert text + ("\n" + (one + rest)) == text + ("\n" + one) + rest;
      text := text + ("\n" + one);
    }
    assert entries[|entries|..] == [];
    assert text + "" == text;
  }

  // ---- What a write means ----

  /** Printing ignores the disk space, so it prints an entry and its normal form alike. */
  lemma {:induction false} NormalFormsPrintAlike(a: seq<ModelEntry>, b: seq<ModelEntry>)
    requires |a| == |b| && forall i :: 0 <= i < |a| ==> Normalized(a[i]) == Normalized(b[i])
    ensures EntriesText(a) == EntriesText(b)
  {
    hide Field, FileLines, Sizes.TenthsText, Sizes.TenthsFor;
    if a != [] {
      NormalFormsPrintAlike(a[1..], b[1..]);
      assert Normalized(a[0]) == Normalized(b[0]);
      assert a[0].(diskSpace := 0) == b[0].(diskSpace := 0);
    }
  }

  lemma NormalizedTwice(e: ModelEntry)
    ensures Normalized(Normalized(e)) == Normalized(e)
  {
  }

  lemma SameNormalForms(ids: seq<string>, m: Entries, n: Entries)
    requires Order.Elements(ids) == m.Keys && NormalizedAll(m) == NormalizedAll(n) && m.Keys == n.Keys
    requires forall id | id in ids :: id in m
    ensures EntriesText(Listed(ids, m)) == EntriesText(Listed(ids, n))
  {
    hide EntriesText, Normalized;
    forall i | 0 <= i < |ids| ensures Normalized(m[ids[i]]) == Normalized(n[ids[i]]) {
      assert NormalizedAll(m)[ids[i]] == NormalizedAll(n)[ids[i]];
    }
    NormalFormsPrintAlike(Listed(ids, m), Listed(ids, n));
  }

  /** There is only one file that lists these entries, whatever disk space they claim. */
  lemma ListsIsUnique(f: File, g: File, m: Entries, n: Entries)
    requires Lists(f, m) && Lists(g, n) && NormalizedAll(m) == NormalizedAll(n)
    ensures f == g
  {
    hide EntriesText, Normalized, Order.Ascending, RegistryText.HEADER;
    var ids :| Order.Ascending(ids) && Order.Elements(ids) == m.Keys && f.text == FileText(Listed(ids, m));
    var others :| Order.Ascending(others) && Order.Elements(others) == n.Keys && g.text == FileText(Listed(others, n));
    assert m.Keys == NormalizedAll(m).Keys == NormalizedAll(n).Keys == n.Keys;
    Order.AscendingIsUnique(ids, others);
    SameNormalForms(ids, m, n);
  }

  /** Entries as they are loaded after a write of `e` are again all printable and valid. */
  lemma WrittenCanBeWritten(m: Entries, e: ModelEntry)
    requires Writable(m) && e.id in m && m[e.id] == e
    ensures Writable(NormalizedAll(m)[e.id := e])
    ensures NormalizedAll(NormalizedAll(m)[e.id := e]) == NormalizedAll(m)
  {
    hide Normalized, Toml.ControlFree, FilesPrintable, FilesValid, Passes;
    var again := NormalizedAll(m)[e.id := e];
    forall id | id in m
      ensures Printable(again[id]) && EntryValid(again[id]) && Normalized(again[id]) == Normalized(m[id])
    {
      NormalizedIsTheRest(m[id]);
      NormalizedTwice(m[id]);
    }
    assert again.Keys == m.Keys;
  }

  /** Writing the same entry again succeeds and leaves the very same file. */
  lemma WriteIsIdempotent(before: File, e: ModelEntry, after: File, again: File)
    requires Writes(before, e, after)
    ensures CanWrite(after, e)
    ensures Writes(after, e, again) ==> again == after
  {
    hide Loaded, Lists, Writable, NormalizedAll;
    var m := Before(before).value[e.id := e];
    WrittenCanBeWritten(m, e);
    assert Lists(after, m) ==> after.Content? by { ListsIsContent(after, m); }
    if Writes(after, e, again) {
      ListsIsUnique(after, again, m, NormalizedAll(m)[e.id := e]);
    }
  }

  lemma ListsIsContent(f: File, m: Entries)
    ensures Lists(f, m) ==> f.Content?
  {
  }

  /**
   * A write stores the entry and keeps the ids of all others. Another entry stays exactly as it
   * was if and only if its disk space was the one that printing computes.
   */
  lemma WriteKeepsTheOthers(before: File, e: ModelEntry, after: File, id: string)
    requires Writes(before, e, after)
    ensures Loaded(after).value.Keys == Before(before).value.Keys + {e.id}
    ensures Loaded(after).value[e.id] == Normalized(e)
    ensures id in Before(before).value && id != e.id ==>
      (Loaded(after).value[id] == Before(before).value[id] <==>
       Before(before).value[id].diskSpace == Normalized(Before(before).value[id]).diskSpace)
  {
    hide Loaded, Lists, Writable, Normalized;
    if id in Before(before).value {
      NormalizedIsTheRest(Before(before).value[id]);
    }
  }

  // ---- When a write succeeds ----

  lemma {:induction false} ReadTablesHaveNoNulls(s: string)
    ensures var r := ReadEntries(s); r.Some? ==> forall t | t in r.value :: NoNulls(t)
    decreases |s|
  {
    hide ReadField, ReadTail, NoNulls;
    if s != "" && After(s, "\n").Some? {
      var t := After(s, "\n").value;
      var e := ReadEntry(t);
      if e.Some? {
        EntryHasNoNulls(t);
        ReadTablesHaveNoNulls(e.value.rest);
      }
    }
  }

  lemma EntryHasNoNulls(s: string)
    ensures ReadEntry(s).Some? ==> NoNulls(ReadEntry(s).value.value) && ReadEntry(s).value.value.Obj?
  {
    hide ReadField, ReadTail, After;
  }

  /** A table that was read and accepted means a valid entry. */
  lemma AcceptedTableIsValid(t: Json)
    requires NoNulls(t) && TableOk(t)
    ensures EntryValid(EntryOf(t.fields))
  {
    hide Passes, Sizes.ParseSize, NameOk, HexOk, Covers, ENTRY;
    EntryRules();
    var fields := t.fields;
    assert Good(ENTRY["id"], fields, "id") && Good(ENTRY["description"], fields, "description");
    assert Good(ENTRY["repo"], fields, "repo") && Good(ENTRY["revision"], fields, "revision");
    assert Good(ENTRY["files"], fields, "files");
    var items := fields["files"].items;
    assert FilesIn(fields) == FilesFrom(items);
    forall i | 0 <= i < |items| ensures NameOk(FileOf(items[i]).name) && HexOk(FileOf(items[i]).sha256, 64) {
      assert ItemOk(items[i]);
    }
  }

  lemma {:induction false} EntriesAreValid(tables: seq<Json>)
    requires forall t | t in tables :: NoNulls(t) && TableOk(t)
    ensures forall id | id in EntriesOf(tables) :: EntryValid(EntriesOf(tables)[id])
  {
    hide NoNulls, TableOk, EntryValid, EntryOf, IdOf;
    if tables != [] {
      var before, last := tables[..|tables| - 1], tables[|tables| - 1];
      assert last in tables;
      EntriesAreValid(before);
      AcceptedTableIsValid(last);
      ObjectIsItsTable(last);
    }
  }

  lemma ObjectIsItsTable(t: Json)
    requires TableOk(t)
    ensures t.Obj? && TableOf(t) == t.fields
  {
  }

  lemma LoadedIsValid(file: File)
    ensures Before(file).Some? ==> forall id | id in Before(file).value :: EntryValid(Before(file).value[id])
  {
    hide ReadEntries, TableOk, NoNulls, EntriesOf, EntryValid, RegistryText.HEADER;
    if Before(file).Some? && !file.Missing? {
      if file.Content? { ReadTablesHaveNoNulls(After(file.text, RegistryText.HEADER).value); }
      var tables := TablesIn(Document(file).value).items;
      assert forall t | t in tables :: TableOk(t) && NoNulls(t);
      EntriesAreValid(tables);
    }
  }

  /**
   * A write succeeds exactly if the file could be loaded (or is not there), the new entry is
   * valid, and no string in it or in any entry that stays has a control character.
   */
  lemma WriteSucceeds(file: File, e: ModelEntry)
    requires Covered(file)
    ensures CanWrite(file, e) <==>
      && Before(file).Some? && EntryValid(e) && Printable(e)
      && forall id | id in Before(file).value && id != e.id :: Printable(Before(file).value[id])
  {
    hide Loaded, Printable, EntryValid, Covered;
    LoadedIsValid(file);
    if Before(file).Some? {
      var m := Before(file).value[e.id := e];
      assert e.id in m && m[e.id] == e;
      assert forall id | id in Before(file).value && id != e.id :: id in m && m[id] == Before(file).value[id];
    }
  }
}
