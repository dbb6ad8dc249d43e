/**
 * The disk space of a registry entry against what a pull counts: two definitions that do not
 * know of each other.
 */
module DiskSpace {
  import opened Wrappers
  import opened Json
  import opened Models
  import opened ModelFiles
  import opened Section
  import opened Registry
  import opened RegistryFile
  import Order
  import RegistryText
  import Sizes
  import ModelStore
  import Pull
  import Sessions

  lemma {:induction false} TotalSizeAppend(a: seq<ModelFile>, b: seq<ModelFile>)
    ensures TotalSize(a + b) == TotalSize(a) + TotalSize(b)
  {
    if b == [] {
      assert a + b == a;
    } else {
      assert (a + b)[..|a + b| - 1] == a + b[..|b| - 1];
      TotalSizeAppend(a, b[..|b| - 1]);
    }
  }

  lemma TotalSizeOne(f: ModelFile)
    ensures TotalSize([f]) == f.size
  {
    assert [f][..0] == [];
  }

  /** Without partial files a pull counts every byte of every file. */
  lemma {:induction false} CountedFromNothing(files: seq<ModelFile>)
    ensures Pull.Remaining(files, map[]) == TotalSize(files)
  {
    if files != [] {
      CountedFromNothing(files[1..]);
      TotalSizeOne(files[0]);
      TotalSizeAppend([files[0]], files[1..]);
      assert files == [files[0]] + files[1..];
    }
  }

  lemma {:induction false} NothingIsThere(hash: ModelStore.Hash, d: ModelStore.Disk, files: seq<ModelFile>)
    requires d.targets == map[]
    ensures Pull.NotInPlace(hash, d, files) == files
  {
    if files != [] {
      var before, last := files[..|files| - 1], files[|files| - 1];
      NothingIsThere(hash, d, before);
      assert !ModelStore.InPlace(hash, d, last);
      hide ModelStore.InPlace;
      assert files == before + [last];
    }
  }

  /** So does a pull onto an empty disk. */
  lemma LostFromNothing(hash: ModelStore.Hash, files: seq<ModelFile>)
    ensures Pull.Lost(hash, Sessions.EMPTY, files) == Pull.Remaining(files, map[])
  {
    NothingIsThere(hash, Sessions.EMPTY, files);
  }

  /**
   * The printed disk space is the least number of tenths of a GB that covers what a pull onto an
   * empty disk will count.
   */
  lemma PrintedSpaceCovers(e: ModelEntry, t: nat)
    requires t >= 1
    ensures var counted := Pull.Remaining(e.files, map[]);
      match Sizes.ParseSize(RegistryText.SpaceText(e))
      case None => false
      case Some(space) => space >= counted && (Sizes.TenthsSize(t) >= counted ==> Sizes.TenthsSize(t) >= space)
  {
    hide Sizes.ParseSize, RegistryText.SpaceText, Sizes.TenthsFor, TotalSize;
    SpaceReadsBack(e);
    CountedFromNothing(e.files);
    var least := Sizes.TenthsFor(TotalSize(e.files));
    Sizes.TenthsForIsLeast(TotalSize(e.files), t);
    if Sizes.TenthsSize(t) >= TotalSize(e.files) { MoreTenths(least, t); }
    IsNormal(e);
  }

  lemma IsNormal(e: ModelEntry)
    ensures Normalized(e).diskSpace == Sizes.TenthsSize(Sizes.TenthsFor(TotalSize(e.files)))
  {
  }

  lemma MoreTenths(a: nat, b: nat)
    requires a <= b
    ensures Sizes.TenthsSize(a) <= Sizes.TenthsSize(b)
  {
    assert a * Sizes.GIB <= b * Sizes.GIB;
  }

  /** A table with good fields is refused for its space exactly if that is less than a pull counts. */
  lemma AcceptedSpaceCovers(j: Json)
    requires j.Obj? && j.fields.Keys <= ENTRY.Keys && forall key | key in ENTRY :: Good(ENTRY[key], j.fields, key)
    ensures var e := EntryOf(j.fields);
      TableOk(j) <==> e.diskSpace == 0 || e.diskSpace >= Pull.Remaining(e.files, map[])
  {
    CountedFromNothing(EntryOf(j.fields).files);
    hide ENTRY, Good;
  }

  /** The declared space of an entry that was read, which TOML cannot leave out, always covers the pull. */
  lemma {:induction false} ReadEntriesCover(tables: seq<Json>)
    requires TablesOk(tables) && forall t | t in tables :: NoNulls(t)
    ensures forall id | id in EntriesOf(tables) ::
      var e := EntriesOf(tables)[id];
      e.diskSpace > 0 && e.diskSpace >= Pull.Remaining(e.files, map[])
  {
    hide TableOk, EntryOf, IdOf, NoNulls, TotalSize;
    if tables != [] {
      var before, last := tables[..|tables| - 1], tables[|tables| - 1];
      assert last in tables && tables[|tables| - 1] == last;
      assert forall t | t in before :: t in tables;
      ReadEntriesCover(before);
      OneCovers(last);
    }
  }

  lemma OneCovers(j: Json)
    requires TableOk(j) && NoNulls(j)
    ensures var e := EntryOf(TableOf(j)); e.diskSpace > 0 && e.diskSpace >= Pull.Remaining(e.files, map[])
  {
    CountedFromNothing(EntryOf(j.fields).files);
    hide Sizes.ParseSize, TotalSize, FilesOk;
    hide ENTRY;
    EntryRules();
    assert Good(ENTRY["disk_space"], j.fields, "disk_space");
  }

  /** So a registry that loads, whoever wrote it, promises enough for every model. */
  lemma LoadedEntriesCover(file: File)
    requires Loaded(file).Some?
    ensures forall id | id in Loaded(file).value ::
      var e := Loaded(file).value[id];
      e.diskSpace > 0 && e.diskSpace >= Pull.Remaining(e.files, map[])
  {
    hide RegistryText.ReadEntries, TableOk, NoNulls, EntriesOf, RegistryText.HEADER;
    if file.Content? { ReadTablesHaveNoNulls(RegistryText.After(file.text, RegistryText.HEADER).value); }
    ReadEntriesCover(TablesIn(Document(file).value).items);
  }
}
