/**
 * Printing registry entries and reading them back. The reader takes the layout that is printed,
 * in which TOML v1.0.0 leaves no other reading; it refuses everything else.
 */
module RegistryText {
  import opened Wrappers
  import opened Json
  import opened Models
  import opened ModelFiles
  import opened Text
  import Sizes
  import Toml

  /** `render_entry` computes the disk space from the files. */
  function SpaceText(e: ModelEntry): string {
    Sizes.TenthsText(Sizes.TenthsFor(TotalSize(e.files)))
  }

  // ---- Printing, each piece in front of what follows it ----

  function Quoted(value: string, rest: string): string {
    Toml.TomlString(value) + rest
  }

  function Field(key: string, value: string, rest: string): string {
    key + " = " + Quoted(value, "\n" + rest)
  }

  function FileLine(f: ModelFile, rest: string): string {
    "  { name = " + Quoted(f.name, ", size = " + (Sizes.Decimal(f.size) + (", sha256 = " + Quoted(f.sha256, " },\n" + rest))))
  }

  function FileLines(files: seq<ModelFile>, rest: string): string {
    if files == [] then "]\n" + rest else FileLine(files[0], FileLines(files[1..], rest))
  }

  function EntryText(e: ModelEntry, rest: string): string {
    "[[model]]\n" + Field("id", e.id, Field("description", e.description, Field("repo", e.repo,
      Field("revision", e.revision, Field("disk_space", SpaceText(e), "files = [\n" + FileLines(e.files, rest))))))
  }

  /** Stands for the comment at the top: all that matters is that it is skipped as it was printed. */
  const HEADER := "# registry\n"

  function EntriesText(entries: seq<ModelEntry>): string {
    if entries == [] then "" else "\n" + EntryText(entries[0], EntriesText(entries[1..]))
  }

  function FileText(entries: seq<ModelEntry>): string {
    HEADER + EntriesText(entries)
  }

  /** The lines ended one by one, which is what joining them and a last newline make. */
  function Ended(lines: seq<string>): string {
    if lines == [] then "" else lines[0] + "\n" + Ended(lines[1..])
  }

  lemma {:induction false} JoinedIsEnded(lines: seq<string>)
    requires lines != []
    ensures Join(lines) + "\n" == Ended(lines)
  {
    if |lines| == 1 {
      assert Ended(lines[1..]) == "";
    } else {
      JoinedIsEnded(lines[1..]);
      assert lines[0] + "\n" + Join(lines[1..]) + "\n" == lines[0] + "\n" + (Join(lines[1..]) + "\n");
    }
  }

  function FieldLine(key: string, value: string): string {
    key + " = " + Toml.TomlString(value)
  }

  function TableLine(f: ModelFile): string {
    "  { name = " + Toml.TomlString(f.name) + ", size = " + Sizes.Decimal(f.size)
    + ", sha256 = " + Toml.TomlString(f.sha256) + " },"
  }

  function HeadLines(e: ModelEntry, space: string): seq<string> {
    ["[[model]]", FieldLine("id", e.id), FieldLine("description", e.description), FieldLine("repo", e.repo),
     FieldLine("revision", e.revision), FieldLine("disk_space", space), "files = ["]
  }

  /** `render_entry`. */
  method RenderEntry(e: ModelEntry) returns (text: string)
    ensures text == EntryText(e, "")
  {
    hide Join, EntryText, TableLine, HeadLines, TotalSize, Sizes.TenthsText, Sizes.TenthsFor;
    hide Sizes.ParseSize, Sizes.TenthsSize, Sizes.CeilDiv;
    var total := TotalSize(e.files);
    var space := Sizes.DiskSpaceFor(total, Sizes.CeilDiv(total * 10, Sizes.GIB));
    var head, rows := HeadLines(e, space), [];
    for i := 0 to |e.files|
      invariant |rows| == i && forall k :: 0 <= k < i ==> rows[k] == TableLine(e.files[k])
    {
      rows := rows + [TableLine(e.files[i])];
    }
    LinesAreTheText(e, space, rows);
    text := Join(head + rows + ["]"]) + "\n";
  }

  lemma LinesAreTheText(e: ModelEntry, space: string, rows: seq<string>)
    requires var total := TotalSize(e.files);
      var exact, estimate := Sizes.TenthsFor(total), Sizes.CeilDiv(total * 10, Sizes.GIB);
      space == Sizes.TenthsText(if estimate < exact then exact else estimate)
    requires |rows| == |e.files| && forall k :: 0 <= k < |rows| ==> rows[k] == TableLine(e.files[k])
    ensures Join(HeadLines(e, space) + rows + ["]"]) + "\n" == EntryText(e, "")
  {
    hide Field, TableLine, HeadLines, Ended, Join, Sizes.TenthsText;
    HeadIsEnded(e, rows + ["]"], space);
    FilesAreEnded(e.files, rows);
    assert HeadLines(e, space) + rows + ["]"] == HeadLines(e, space) + (rows + ["]"]);
    JoinedIsEnded(HeadLines(e, space) + rows + ["]"]);
  }

  lemma EndedOneMore(line: string, lines: seq<string>)
    ensures Ended([line] + lines) == line + "\n" + Ended(lines)
  {
    assert ([line] + lines)[1..] == lines;
  }

  lemma FieldIsEnded(key: string, value: string, lines: seq<string>)
    ensures Ended([FieldLine(key, value)] + lines) == Field(key, value, Ended(lines))
  {
    EndedOneMore(FieldLine(key, value), lines);
    assert key + " = " + Toml.TomlString(value) + "\n" + Ended(lines)
        == key + " = " + (Toml.TomlString(value) + ("\n" + Ended(lines)));
  }

  lemma HeadIsEnded(e: ModelEntry, rest: seq<string>, space: string)
    requires space == SpaceText(e)
    ensures Ended(HeadLines(e, space) + rest) == "[[model]]\n" + Field("id", e.id, Field("description", e.description, Field("repo", e.repo,
           Field("revision", e.revision, Field("disk_space", SpaceText(e), "files = [\n" + Ended(rest))))))
  {
    hide Ended, FieldLine, Field, SpaceText;
    var a := ["files = ["] + rest;
    var b := [FieldLine("disk_space", space)] + a;
    var c := [FieldLine("revision", e.revision)] + b;
    var d := [FieldLine("repo", e.repo)] + c;
    var f := [FieldLine("description", e.description)] + d;
    var g := [FieldLine("id", e.id)] + f;
    EndedOneMore("files = [", rest);
    FieldIsEnded("disk_space", space, a);
    FieldIsEnded("revision", e.revision, b);
    FieldIsEnded("repo", e.repo, c);
    FieldIsEnded("description", e.description, d);
    FieldIsEnded("id", e.id, f);
    EndedOneMore("[[model]]", g);
    assert "files = [" + "\n" == "files = [\n" && "[[model]]" + "\n" == "[[model]]\n";
    assert ["[[model]]"] + g == HeadLines(e, space) + rest;
  }

  lemma {:induction false} FilesAreEnded(files: seq<ModelFile>, lines: seq<string>)
    requires |lines| == |files| && forall k :: 0 <= k < |files| ==> lines[k] == TableLine(files[k])
    ensures Ended(lines + ["]"]) == FileLines(files, "")
  {
    if files == [] {
      assert lines + ["]"] == ["]"] && ["]"][1..] == [];
      assert "]" + "\n" + "" == "]\n" + "";
    } else {
      FilesAreEnded(files[1..], lines[1..]);
      assert lines + ["]"] == [lines[0]] + (lines[1..] + ["]"]);
      EndedOneMore(lines[0], lines[1..] + ["]"]);
      LineIsEnded(files[0], FileLines(files[1..], ""));
    }
  }

  lemma LineIsEnded(f: ModelFile, rest: string)
    ensures TableLine(f) + "\n" + rest == FileLine(f, rest)
  {
    var n, h, d := Toml.TomlString(f.name), Toml.TomlString(f.sha256), Sizes.Decimal(f.size);
    assert " }," + "\n" == " },\n";
    assert "  { name = " + n + ", size = " + d + ", sha256 = " + h + " }," + "\n" + rest
        == "  { name = " + (n + (", size = " + (d + (", sha256 = " + (h + (" },\n" + rest))))));
  }

  /** What follows an entry can as well be added to its text. */
  lemma EntryBefore(e: ModelEntry, rest: string)
    ensures EntryText(e, rest) == EntryText(e, "") + rest
  {
    hide Field, FileLines;
    FilesBefore(e.files, rest);
    var a := "files = [\n" + FileLines(e.files, "");
    assert "files = [\n" + FileLines(e.files, rest) == a + rest;
    var b := Field("disk_space", SpaceText(e), a);
    FieldBefore("disk_space", SpaceText(e), a, rest);
    var c := Field("revision", e.revision, b);
    FieldBefore("revision", e.revision, b, rest);
    var d := Field("repo", e.repo, c);
    FieldBefore("repo", e.repo, c, rest);
    var f := Field("description", e.description, d);
    FieldBefore("description", e.description, d, rest);
    FieldBefore("id", e.id, f, rest);
    assert "[[model]]\n" + (Field("id", e.id, f) + rest) == "[[model]]\n" + Field("id", e.id, f) + rest;
  }

  lemma FieldBefore(key: string, value: string, a: string, rest: string)
    ensures Field(key, value, a + rest) == Field(key, value, a) + rest
  {
    assert key + " = " + (Toml.TomlString(value) + ("\n" + (a + rest)))
        == key + " = " + (Toml.TomlString(value) + ("\n" + a)) + rest;
  }

  lemma {:induction false} FilesBefore(files: seq<ModelFile>, rest: string)
    ensures FileLines(files, rest) == FileLines(files, "") + rest
  {
    if files == [] {
      assert "]\n" + rest == "]\n" + "" + rest;
    } else {
      hide FileLine;
      FilesBefore(files[1..], rest);
      var a := FileLines(files[1..], "");
      LineIsEnded(files[0], a + rest);
      LineIsEnded(files[0], a);
      assert TableLine(files[0]) + "\n" + (a + rest) == TableLine(files[0]) + "\n" + a + rest;
    }
  }

  // ---- Reading ----

  datatype Read<T> = Read(value: T, rest: string)

  /** The text after a fixed piece. */
  function After(s: string, piece: string): (r: Option<string>)
    ensures r.Some? ==> s == piece + r.value
  {
    if piece <= s then Some(s[|piece|..]) else None
  }

  lemma AfterPiece(piece: string, rest: string)
    ensures After(piece + rest, piece) == Some(rest)
  {
  }

  function ReadQuoted(s: string, after: string): (r: Option<Read<string>>)
    ensures r.Some? ==> |r.value.rest| < |s|
  {
    match Toml.BasicString(s)
    case None => None
    case Some(p) => match After(p.rest, after) {
      case None => None
      case Some(rest) => Some(Read(p.value, rest))
    }
  }

  function ReadField(s: string, key: string): Option<Read<string>> {
    match After(s, key + " = ")
    case None => None
    case Some(t) => ReadQuoted(t, "\n")
  }

  /** A decimal number without leading zeros. */
  function ReadNumber(s: string): (r: Option<Read<nat>>)
    ensures r.Some? ==> |r.value.rest| <= |s|
  {
    var digits := Sizes.LeadingDigits(s);
    if digits != "" && Sizes.Decimal(Sizes.ValueOf(digits)) == digits then
      Some(Read(Sizes.ValueOf(digits), s[|digits|..]))
    else None
  }

  function FileJson(name: string, size: int, sha: string): Json {
    Obj(map["name" := Str(name), "size" := Int(size), "sha256" := Str(sha)])
  }

  function ReadSize(s: string): (r: Option<Read<nat>>)
    ensures r.Some? ==> |r.value.rest| <= |s|
  {
    match ReadNumber(s)
    case None => None
    case Some(n) => match After(n.rest, ", sha256 = ") {
      case None => None
      case Some(t) => Some(Read(n.value, t))
    }
  }

  function ReadFile(s: string): (r: Option<Read<Json>>)
    ensures r.Some? ==> |r.value.rest| < |s|
  {
    match After(s, "  { name = ")
    case None => None
    case Some(t) => match ReadQuoted(t, ", size = ") {
      case None => None
      case Some(name) => match ReadSize(name.rest) {
        case None => None
        case Some(size) => match ReadQuoted(size.rest, " },\n") {
          case None => None
          case Some(sha) => Some(Read(FileJson(name.value, size.value, sha.value), sha.rest))
        }
      }
    }
  }

  function ReadFiles(s: string): (r: Option<Read<seq<Json>>>)
    ensures r.Some? ==> |r.value.rest| <= |s|
    decreases |s|
  {
    if s != "" && s[0] == ']' then
      match After(s, "]\n") { case None => None case Some(rest) => Some(Read([], rest)) }
    else match ReadFile(s) {
      case None => None
      case Some(f) => match ReadFiles(f.rest) {
        case None => None
        case Some(more) => Some(Read([f.value] + more.value, more.rest))
      }
    }
  }

  lemma ReadsQuoted(value: string, after: string, rest: string)
    ensures ReadQuoted(Quoted(value, after + rest), after) ==
      if Toml.ControlFree(value) then Some(Read(value, rest)) else None
  {
    hide Toml.BasicString, Toml.TomlString, Toml.ControlFree;
    Toml.TomlStringRoundTrips(value, after + rest);
    AfterPiece(after, rest);
  }

  lemma ReadsField(key: string, value: string, rest: string)
    ensures ReadField(Field(key, value, rest), key) ==
      if Toml.ControlFree(value) then Some(Read(value, rest)) else None
  {
    AfterPiece(key + " = ", Quoted(value, "\n" + rest));
    ReadsQuoted(value, "\n", rest);
  }

  lemma ReadsSize(size: nat, rest: string)
    ensures ReadSize(Sizes.Decimal(size) + (", sha256 = " + rest)) == Some(Read(size, rest))
  {
    var digits := Sizes.Decimal(size);
    var s := digits + (", sha256 = " + rest);
    Sizes.DigitsEnd(digits, ", sha256 = " + rest);
    assert s[..|digits|] == digits && s[|digits|..] == ", sha256 = " + rest;
    Sizes.DecimalReadsBack(size);
    AfterPiece(", sha256 = ", rest);
  }

  ghost predicate FilePrintable(f: ModelFile) {
    Toml.ControlFree(f.name) && Toml.ControlFree(f.sha256)
  }

  lemma ReadsFile(f: ModelFile, rest: string)
    ensures ReadFile(FileLine(f, rest)) ==
      if FilePrintable(f) then Some(Read(FileJson(f.name, f.size, f.sha256), rest)) else None
    ensures FileLine(f, rest)[0] != ']'
  {
    hide ReadQuoted, ReadSize, Quoted, After, Toml.ControlFree;
    var c := Quoted(f.sha256, " },\n" + rest);
    var b := Sizes.Decimal(f.size) + (", sha256 = " + c);
    var a := Quoted(f.name, ", size = " + b);
    AfterPiece("  { name = ", a);
    ReadsQuoted(f.name, ", size = ", b);
    ReadsSize(f.size, c);
    ReadsQuoted(f.sha256, " },\n", rest);
  }

  ghost predicate FilesPrintable(files: seq<ModelFile>) {
    forall f | f in files :: FilePrintable(f)
  }

  function FileJsons(files: seq<ModelFile>): seq<Json> {
    seq(|files|, i requires 0 <= i < |files| => FileJson(files[i].name, files[i].size, files[i].sha256))
  }

  lemma {:induction false} ReadsFiles(files: seq<ModelFile>, rest: string)
    ensures ReadFiles(FileLines(files, rest)) ==
      if FilesPrintable(files) then Some(Read(FileJsons(files), rest)) else None
  {
    hide ReadFile, FileLine, FilePrintable, FileJson;
    if files == [] {
      AfterPiece("]\n", rest);
      assert FileJsons(files) == [];
    } else {
      var f, more := files[0], FileLines(files[1..], rest);
      ReadsFile(f, more);
      ReadsFiles(files[1..], rest);
      assert files == [f] + files[1..];
      assert FileJsons(files) == [FileJson(f.name, f.size, f.sha256)] + FileJsons(files[1..]);
      assert FilesPrintable(files) <==> FilePrintable(f) && FilesPrintable(files[1..]);
    }
  }

  // ---- Entries ----

  function EntryJson(id: string, description: string, repo: string, revision: string, space: string, files: seq<Json>): Json {
    Obj(map[
      "id" := Str(id), "description" := Str(description), "repo" := Str(repo), "revision" := Str(revision),
      "disk_space" := Str(space), "files" := Arr(files)])
  }

  function ReadTail(s: string): (r: Option<Read<seq<Json>>>)
    ensures r.Some? ==> |r.value.rest| < |s|
  {
    match After(s, "files = [\n")
    case None => None
    case Some(t) => ReadFiles(t)
  }

  function ReadEntry(s: string): (r: Option<Read<Json>>)
    ensures r.Some? ==> |r.value.rest| < |s|
  {
    match After(s, "[[model]]\n")
    case None => None
    case Some(t) => match ReadField(t, "id") {
      case None => None
      case Some(id) => match ReadField(id.rest, "description") {
        case None => None
        case Some(description) => match ReadField(description.rest, "repo") {
          case None => None
          case Some(repo) => match ReadField(repo.rest, "revision") {
            case None => None
            case Some(revision) => match ReadField(revision.rest, "disk_space") {
              case None => None
              case Some(space) => match ReadTail(space.rest) {
                case None => None
                case Some(files) => Some(Read(
                  EntryJson(id.value, description.value, repo.value, revision.value, space.value, files.value),
                  files.rest))
              }
            }
          }
        }
      }
    }
  }

  function ReadEntries(s: string): Option<seq<Json>>
    decreases |s|
  {
    if s == "" then Some([])
    else match After(s, "\n") {
      case None => None
      case Some(t) => match ReadEntry(t) {
        case None => None
        case Some(e) => match ReadEntries(e.rest) {
          case None => None
          case Some(more) => Some([e.value] + more)
        }
      }
    }
  }

  /** The document in a registry file; None where it is not TOML (or not in this layout). */
  function ReadFileText(text: string): Option<Fields> {
    match After(text, HEADER)
    case None => None
    case Some(s) => match ReadEntries(s) {
      case None => None
      case Some(tables) => Some(if tables == [] then map[] else map["model" := Arr(tables)])
    }
  }

  /** No string of the entry needs an escape that the printer does not make. */
  ghost predicate Printable(e: ModelEntry) {
    && Toml.ControlFree(e.id) && Toml.ControlFree(e.description) && Toml.ControlFree(e.repo)
    && Toml.ControlFree(e.revision) && FilesPrintable(e.files)
  }

  function TableFor(e: ModelEntry): Json {
    EntryJson(e.id, e.description, e.repo, e.revision, SpaceText(e), FileJsons(e.files))
  }

  lemma SpaceIsPrintable(e: ModelEntry)
    ensures Toml.ControlFree(SpaceText(e))
  {
    var s := SpaceText(e);
    forall c | c in s ensures !Toml.Control(c) {
      assert Sizes.IsDigit(c) || c == '.' || c == 'G' || c == 'B';
    }
  }

  /** A printed entry is read back, or nothing is if one of its strings has a control character. */
  lemma ReadsEntry(e: ModelEntry, rest: string)
    ensures ReadEntry(EntryText(e, rest)) == if Printable(e) then Some(Read(TableFor(e), rest)) else None
  {
    hide ReadField, Field, FileLines, ReadFiles, After, SpaceText, Toml.ControlFree, FilesPrintable, EntryJson;
    var a := "files = [\n" + FileLines(e.files, rest);
    var b := Field("disk_space", SpaceText(e), a);
    var c := Field("revision", e.revision, b);
    var d := Field("repo", e.repo, c);
    var f := Field("description", e.description, d);
    var g := Field("id", e.id, f);
    AfterPiece("[[model]]\n", g);
    ReadsField("id", e.id, f);
    ReadsField("description", e.description, d);
    ReadsField("repo", e.repo, c);
    ReadsField("revision", e.revision, b);
    ReadsField("disk_space", SpaceText(e), a);
    SpaceIsPrintable(e);
    AfterPiece("files = [\n", FileLines(e.files, rest));
    ReadsFiles(e.files, rest);
  }

  function TablesFor(entries: seq<ModelEntry>): (tables: seq<Json>)
    ensures |tables| == |entries| && forall i :: 0 <= i < |tables| ==> tables[i] == TableFor(entries[i])
  {
    seq(|entries|, i requires 0 <= i < |entries| => TableFor(entries[i]))
  }

  ghost predicate AllPrintable(entries: seq<ModelEntry>) {
    forall e | e in entries :: Printable(e)
  }

  lemma {:induction false} ReadsEntries(entries: seq<ModelEntry>)
    ensures ReadEntries(EntriesText(entries)) == if AllPrintable(entries) then Some(TablesFor(entries)) else None
  {
    hide ReadEntry, EntryText, TableFor, Printable;
    if entries != [] {
      var e, more := entries[0], EntriesText(entries[1..]);
      AfterPiece("\n", EntryText(e, more));
      ReadsEntry(e, more);
      ReadsEntries(entries[1..]);
      assert entries == [e] + entries[1..];
      assert TablesFor(entries) == [TableFor(e)] + TablesFor(entries[1..]);
      assert AllPrintable(entries) <==> Printable(e) && AllPrintable(entries[1..]);
    }
  }

  lemma ReadsFileText(entries: seq<ModelEntry>)
    ensures ReadFileText(FileText(entries)) ==
      if !AllPrintable(entries) then None
      else Some(if entries == [] then map[] else map["model" := Arr(TablesFor(entries))])
  {
    hide ReadEntries, EntriesText, AllPrintable, HEADER;
    AfterPiece(HEADER, EntriesText(entries));
    ReadsEntries(entries);
  }
}
