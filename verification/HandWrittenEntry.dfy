/** A registry entry that was written by hand: it loads, but then nothing can be written any more. */
module HandWrittenEntry {
  import opened Wrappers
  import opened Json
  import opened Models
  import opened ModelFiles
  import opened Section
  import opened Registry
  import opened RegistryFile
  import opened Text
  import RegistryText
  import Toml

  /** A description that ends a line, and how TOML wants it written. */
  const LINE_END := "\n"
  const ESCAPED := "\\n"

  /** The file with one entry whose description is escaped by hand. */
  function HandWritten(e: ModelEntry): File {
    Content(RegistryText.HEADER + ("\n" + ("[[model]]\n" + RegistryText.Field("id", e.id, "description = \"" + (ESCAPED + "\"" + ("\n" +
      RegistryText.Field("repo", e.repo, RegistryText.Field("revision", e.revision, RegistryText.Field("disk_space", RegistryText.SpaceText(e),
        "files = [\n" + RegistryText.FileLines(e.files, ""))))))))))
  }

  lemma EscapedIsRead(rest: string)
    ensures Toml.Chars(ESCAPED + "\"" + rest) == Some(Toml.Parsed(LINE_END, rest))
  {
    var end := "\"" + rest;
    var text := ESCAPED + "\"" + rest;
    assert end[1..] == rest && Toml.Chars(end) == Some(Toml.Parsed("", rest));
    assert text[0] == '\\' && text[1] == 'n' && text[2..] == end;
    assert ['\n'] + "" == LINE_END;
  }

  lemma DescriptionIsRead(rest: string)
    ensures RegistryText.ReadField("description = \"" + (ESCAPED + "\"" + ("\n" + rest)), "description") == Some(RegistryText.Read(LINE_END, rest))
  {
    var quoted := ESCAPED + "\"" + ("\n" + rest);
    EscapedIsRead("\n" + rest);
    RegistryText.AfterPiece("description = ", "\"" + quoted);
    assert "description = " + ("\"" + quoted) == "description = \"" + quoted;
    assert "description" + " = " == "description = ";
    assert ("\"" + quoted)[1..] == quoted;
    RegistryText.AfterPiece("\n", rest);
  }

  lemma HandWrittenIsRead(e: ModelEntry)
    requires RegistryText.Printable(e)
    ensures RegistryText.ReadFileText(HandWritten(e).text) == Some(map["model" := Arr([RegistryText.TableFor(e.(description := LINE_END))])])
  {
    hide RegistryText.ReadField, RegistryText.Field, RegistryText.FileLines, RegistryText.ReadFiles, RegistryText.After, RegistryText.SpaceText, Toml.ControlFree, RegistryText.FilesPrintable, RegistryText.EntryJson;
    hide RegistryText.HEADER;
    var a := "files = [\n" + RegistryText.FileLines(e.files, "");
    var b := RegistryText.Field("disk_space", RegistryText.SpaceText(e), a);
    var c := RegistryText.Field("revision", e.revision, b);
    var d := RegistryText.Field("repo", e.repo, c);
    var f := "description = \"" + (ESCAPED + "\"" + ("\n" + d));
    var g := RegistryText.Field("id", e.id, f);
    var entry := "[[model]]\n" + g;
    RegistryText.AfterPiece(RegistryText.HEADER, "\n" + entry);
    RegistryText.AfterPiece("\n", entry);
    RegistryText.AfterPiece("[[model]]\n", g);
    RegistryText.ReadsField("id", e.id, f);
    DescriptionIsRead(d);
    RegistryText.ReadsField("repo", e.repo, c);
    RegistryText.ReadsField("revision", e.revision, b);
    RegistryText.ReadsField("disk_space", RegistryText.SpaceText(e), a);
    RegistryText.SpaceIsPrintable(e);
    RegistryText.AfterPiece("files = [\n", RegistryText.FileLines(e.files, ""));
    RegistryText.ReadsFiles(e.files, "");
    SameSpace(e, LINE_END);
    assert RegistryText.ReadEntry(entry) == Some(RegistryText.Read(RegistryText.TableFor(e.(description := LINE_END)), ""));
    assert HandWritten(e).text == RegistryText.HEADER + ("\n" + entry);
    hide RegistryText.ReadEntry;
    assert RegistryText.ReadEntries("") == Some([]);
    assert RegistryText.ReadEntries("\n" + entry) == Some([RegistryText.TableFor(e.(description := LINE_END))] + []);
    assert [RegistryText.TableFor(e.(description := LINE_END))] + [] == [RegistryText.TableFor(e.(description := LINE_END))];
  }

  lemma SameSpace(e: ModelEntry, description: string)
    ensures RegistryText.SpaceText(e.(description := description)) == RegistryText.SpaceText(e)
  {
  }

  lemma DescriptionIsFree(e: ModelEntry)
    requires EntryValid(e)
    ensures EntryValid(e.(description := LINE_END))
  {
    hide Passes, FilesValid;
    assert LINE_END != "";
  }

  lemma HandWrittenLoads(e: ModelEntry)
    requires EntryValid(e) && RegistryText.Printable(e)
    ensures Loaded(HandWritten(e)) == Some(map[e.id := Normalized(e.(description := LINE_END))])
  {
    var e' := e.(description := LINE_END);
    HandWrittenIsRead(e);
    DescriptionIsFree(e);
    IsText(e);
    OneTable(e');
    hide HandWritten, EntryValid, Normalized, RegistryText.TableFor, RegistryText.Printable, RegistryOk, EntriesOf, Loaded;
    LoadsOneTable(HandWritten(e), RegistryText.TableFor(e'));
  }

  lemma LoadsOneTable(file: File, table: Json)
    requires file.Content? && RegistryText.ReadFileText(file.text) == Some(map["model" := Arr([table])])
    requires RegistryOk(map["model" := Arr([table])])
    ensures Loaded(file) == Some(EntriesOf([table]))
  {
    hide RegistryText.ReadFileText, TablesOk, EntriesOf;
  }

  /**
   * Every valid entry can be written by hand so that it loads with a line end in its
   * description, and then no other entry, however good, can be written to that file.
   */
  lemma HandWrittenBlocksWrites(e: ModelEntry, other: ModelEntry)
    requires EntryValid(e) && RegistryText.Printable(e) && other.id != e.id
    ensures Loaded(HandWritten(e)) == Some(map[e.id := Normalized(e.(description := LINE_END))])
    ensures !CanWrite(HandWritten(e), other)
  {
    HandWrittenLoads(e);
    HandWrittenIsRead(e);
    assert Covered(HandWritten(e)) by { hide HandWritten; }
    LineEndStays(e);
    IsText(e);
    hide HandWritten, EntryValid, Normalized, RegistryText.Printable, Loaded, CanWrite, Covered;
    OneUnprintableBlocks(HandWritten(e), map[e.id := Normalized(e.(description := LINE_END))], e.id, other);
  }

  lemma IsText(e: ModelEntry)
    ensures HandWritten(e).Content?
  {
  }

  lemma LineEndStays(e: ModelEntry)
    ensures !RegistryText.Printable(Normalized(e.(description := LINE_END)))
  {
    var e' := Normalized(e.(description := LINE_END));
    assert LINE_END[0] in LINE_END && Toml.Control(LINE_END[0]) && e'.description == LINE_END;
  }

  lemma OneUnprintableBlocks(file: File, before: Entries, id: string, other: ModelEntry)
    requires Covered(file) && Before(file) == Some(before) && id in before && id != other.id && !RegistryText.Printable(before[id])
    ensures !CanWrite(file, other)
  {
    hide Before, CanWrite, EntryValid, RegistryText.Printable, Covered;
    WriteSucceeds(file, other);
  }

  lemma OneTable(e: ModelEntry)
    requires EntryValid(e)
    ensures RegistryOk(map["model" := Arr([RegistryText.TableFor(e)])])
    ensures EntriesOf([RegistryText.TableFor(e)]) == map[e.id := Normalized(e)]
  {
    hide RegistryText.TableFor, TableOk, EntryOf, IdOf, Normalized, EntryValid;
    TableReadsBack(e);
    NoTables();
    OneMoreTable([], RegistryText.TableFor(e));
    assert [] + [RegistryText.TableFor(e)] == [RegistryText.TableFor(e)];
    TableIsAnObject(e);
    ValidHasId(e);
    TableIsObject(e);
  }

  lemma TableIsObject(e: ModelEntry)
    ensures RegistryText.TableFor(e).Obj?
  {
  }

  function Zeros(n: nat): (s: string)
    ensures |s| == n && forall c | c in s :: c == '0'
  {
    seq(n, _ => '0')
  }

  lemma OnePart(c: char)
    requires c != '/'
    ensures Parts('/', [c]) == [[c]]
  {
    assert [c][1..] == "" && Parts('/', "") == [""] && [c] + "" == [c];
  }

  function SomeEntry(): ModelEntry {
    ModelEntry("m", "d", "o/r", Zeros(40), 0, [ModelFile("f", 0, Zeros(64))])
  }

  /** There are such entries. */
  lemma SomeEntryIsValid()
    ensures EntryValid(SomeEntry()) && RegistryText.Printable(SomeEntry())
  {
    NamesAreGood();
    StringsArePlain();
    hide Passes, NameOk, HexOk, Toml.ControlFree;
    assert SomeEntry().files[0] == ModelFile("f", 0, Zeros(64));
  }

  lemma NamesAreGood()
    ensures Passes(EntryId, "m") && Passes(Repository, "o/r") && Passes(Revision, Zeros(40))
    ensures NameOk("f") && HexOk(Zeros(64), 64)
  {
    RepoIsGood();
    FileIsGood();
    OthersAreGood();
  }

  lemma RepoIsGood()
    ensures Passes(Repository, "o/r")
  {
    OnePart('r');
    assert "/r"[1..] == "r" && Parts('/', "/r") == ["", "r"];
    assert "o/r"[1..] == "/r" && ['o'] + "" == "o" && Parts('/', "o/r") == ["o", "r"];
    hide Parts;
  }

  lemma FileIsGood()
    ensures NameOk("f")
  {
    OnePart('f');
    hide Parts;
    assert ["f"] == [['f']];
  }

  lemma OthersAreGood()
    ensures Passes(EntryId, "m") && Passes(Revision, Zeros(40)) && HexOk(Zeros(64), 64)
  {
  }

  lemma StringsArePlain()
    ensures Toml.ControlFree("m") && Toml.ControlFree("d") && Toml.ControlFree("o/r") && Toml.ControlFree("f")
    ensures Toml.ControlFree(Zeros(40)) && Toml.ControlFree(Zeros(64))
  {
  }

  /** An entry that declares a byte more than printing computes comes back without it. */
  lemma DeclaredSpaceIsLost(e: ModelEntry)
    requires EntryValid(e)
    ensures var more := e.(diskSpace := Normalized(e).diskSpace + 1);
      && EntryValid(more) && TableOk(RegistryText.TableFor(more))
      && EntryOf(RegistryText.TableFor(more).fields) != more
  {
    var more := e.(diskSpace := Normalized(e).diskSpace + 1);
    assert EntryValid(more) && Normalized(more).diskSpace == Normalized(e).diskSpace by {
      hide Passes, FilesValid;
    }
    TableReadsBack(more);
  }
}
