/**
 * `keys.toml`: how the key commands print it and how it is read back, and what `alab keys
 * create` and `revoke` do to the answers of the gateway. The reader takes the part of TOML
 * v1.0.0 that is printed: comments, tables with bare keys and basic strings.
 */
module KeyFile {
  import opened Wrappers
  import opened Text
  import Toml

  datatype KeyEntry = KeyEntry(name: string, hash: string, created: string)

  type Keys = seq<KeyEntry>

  /** All but `NotUtf8` are a KeysError; that one is a UnicodeDecodeError, which nobody catches. */
  datatype Error = BadName | CannotRead | NotUtf8 | InvalidEntry | AlreadyExists | NoSuchKey

  predicate NameStart(c: char) {
    'a' <= c <= 'z' || '0' <= c <= '9'
  }

  predicate NameOk(name: string) {
    && 1 <= |name| <= 64
    && NameStart(name[0])
    && forall c | c in name :: NameStart(c) || c == '_' || c == '-'
  }

  predicate HashOk(hash: string) {
    && |hash| == 71
    && hash[..7] == "sha256:"
    && forall c | c in hash[7..] :: '0' <= c <= '9' || 'a' <= c <= 'f'
  }

  /** What every list of keys that was read or made satisfies. */
  ghost predicate Valid(keys: Keys) {
    && (forall i :: 0 <= i < |keys| ==> NameOk(keys[i].name) && HashOk(keys[i].hash))
    && forall i, j :: 0 <= i < j < |keys| ==> keys[i].name != keys[j].name
  }

  ghost predicate PlainDates(keys: Keys) {
    forall i :: 0 <= i < |keys| ==> Toml.Plain(keys[i].created)
  }

  // ---- Printing ----

  const HEADER := "# API keys for the gateway, " + "managed by `alab keys`. " + "Only hashes are stored."

  function NameLine(e: KeyEntry): string {
    "[keys." + e.name + "]"
  }

  function Assign(key: string, value: string): string {
    key + " = \"" + value + "\""
  }

  function EntryLines(e: KeyEntry): seq<string> {
    [NameLine(e), Assign("hash", e.hash), Assign("created", e.created), ""]
  }

  function Lines(keys: Keys): (lines: seq<string>)
    ensures lines != []
  {
    if keys == [] then [HEADER, ""] else Lines(keys[..|keys| - 1]) + EntryLines(keys[|keys| - 1])
  }

  function Printed(keys: Keys): string {
    Join(Lines(keys))
  }

  method Render(keys: Keys) returns (text: string)
    ensures text == Printed(keys)
  {
    var lines := [HEADER, ""];
    for i := 0 to |keys|
      invariant lines == Lines(keys[..i])
    {
      assert keys[..i + 1][..i] == keys[..i];
      lines := lines + EntryLines(keys[i]);
    }
    assert keys[..|keys|] == keys;
    text := Join(lines);
  }

  // ---- Reading ----

  datatype Table = Table(name: string, fields: map<string, string>)

  /** None stands for a text that is not TOML. */
  type Document = Option<seq<Table>>

  datatype Field = Field(key: string, value: string)

  predicate Bare(c: char) {
    'a' <= c <= 'z' || 'A' <= c <= 'Z' || '0' <= c <= '9' || c == '_' || c == '-'
  }

  function BareLength(s: string): (n: nat)
    ensures n <= |s|
  {
    if s != "" && Bare(s[0]) then 1 + BareLength(s[1..]) else 0
  }

  function ReadField(line: string): Option<Field> {
    var n := BareLength(line);
    if n == 0 || |line| < n + 3 || line[n..n + 3] != " = " then None
    else match Toml.BasicString(line[n + 3..]) {
      case None => None
      case Some(p) => if p.rest == "" then Some(Field(line[..n], p.value)) else None
    }
  }

  function ReadName(line: string): Option<string> {
    if |line| < 8 || line[..6] != "[keys." || line[|line| - 1] != ']' then None
    else
      var name := line[6..|line| - 1];
      if BareLength(name) == |name| then Some(name) else None
  }

  predicate Has(tables: seq<Table>, name: string) {
    exists t | t in tables :: t.name == name
  }

  function ReadLine(doc: Document, line: string): Document {
    if doc.None? then None
    else if line == "" then doc
    else if line[0] == '#' then
      if forall c | c in line :: !Toml.Control(c) then doc else None
    else if line[0] == '[' then
      match ReadName(line) {
        case None => None
        case Some(name) => if Has(doc.value, name) then None else Some(doc.value + [Table(name, map[])])
      }
    else
      match ReadField(line) {
        case None => None
        case Some(f) => SetField(doc.value, f)
      }
  }

  function SetField(tables: seq<Table>, f: Field): Document {
    if tables == [] || f.key in tables[|tables| - 1].fields then None
    else
      var last := tables[|tables| - 1];
      Some(tables[..|tables| - 1] + [Table(last.name, last.fields[f.key := f.value])])
  }

  function ReadLines(doc: Document, lines: seq<string>): Document
    decreases |lines|
  {
    if lines == [] then doc
    else ReadLines(ReadLine(doc, lines[0]), lines[1..])
  }

  function EntryOf(t: Table): Option<KeyEntry> {
    if NameOk(t.name) && "hash" in t.fields && HashOk(t.fields["hash"]) then
      Some(KeyEntry(t.name, t.fields["hash"], if "created" in t.fields then t.fields["created"] else ""))
    else None
  }

  function EntriesOf(tables: seq<Table>): (r: Result<Keys, Error>)
    ensures r.Ok? <==> forall t | t in tables :: EntryOf(t).Some?
    ensures r.Ok? ==> |r.value| == |tables|
    ensures r.Ok? ==> forall i :: 0 <= i < |tables| ==> EntryOf(tables[i]) == Some(r.value[i])
  {
    if tables == [] then Ok([])
    else
      var last := tables[|tables| - 1];
      match EntriesOf(tables[..|tables| - 1]) {
        case Err(e) => Err(e)
        case Ok(keys) => match EntryOf(last) {
          case None => Err(InvalidEntry)
          case Some(e) => Ok(keys + [e])
        }
      }
  }

  /**
   * What is at the path: nothing, something that cannot be read or is not TOML, bytes that are
   * not UTF-8, text in the printed layout, or TOML in another one, given by the tables it means.
   */
  datatype File = Absent | Unreadable | Undecodable | Content(text: string) | Foreign(tables: seq<Table>)

  predicate IsField(line: string) {
    line != "" && line[0] != '#' && line[0] != '[' && ReadField(line).Some?
  }

  /** A blank line, a comment, the name of a table, or a field. */
  predicate InLayout(line: string) {
    || line == "" || (line[0] == '#' && forall c | c in line :: !Toml.Control(c))
    || (line[0] == '[' && ReadName(line).Some?) || IsField(line)
  }

  /** Some line up to here names a table. */
  ghost predicate InTable(lines: seq<string>, i: nat) {
    exists j :: 0 <= j < i && j < |lines| && ReadName(lines[j]).Some?
  }

  ghost predicate AllInLayout(lines: seq<string>) {
    forall i :: 0 <= i < |lines| ==> InLayout(lines[i]) && (IsField(lines[i]) ==> InTable(lines, i))
  }

  /** Text is in the layout that the reader knows, so that what it refuses TOML refuses too. */
  ghost predicate Covered(file: File) {
    file.Content? ==> AllInLayout(Split(file.text))
  }

  predicate DistinctTables(tables: seq<Table>) {
    forall i, j :: 0 <= i < j < |tables| ==> tables[i].name != tables[j].name
  }

  /** The tables of the file; TOML refuses a table that is defined twice. */
  function Parsed(file: File): Document {
    match file
    case Content(text) => ReadLines(Some([]), Split(text))
    case Foreign(tables) => if DistinctTables(tables) then Some(tables) else None
    case _ => None
  }

  function Loaded(file: File): Result<Keys, Error> {
    if file.Absent? then Ok([])
    else if file.Undecodable? then Err(NotUtf8)
    else match Parsed(file) {
      case None => Err(CannotRead)
      case Some(tables) => EntriesOf(tables)
    }
  }

  method Load(file: File) returns (r: Result<Keys, Error>)
    requires Covered(file)
    ensures r == Loaded(file)
  {
    hide ReadLines;
    if file.Absent? {
      return Ok([]);
    }
    if file.Undecodable? {
      return Err(NotUtf8);
    }
    var doc := Parsed(file);
    if doc.None? {
      return Err(CannotRead);
    }
    var tables, keys, i := doc.value, [], 0;
    r := Ok([]);
    while i < |tables| && r.Ok?
      invariant 0 <= i <= |tables|
      invariant r.Ok? ==> EntriesOf(tables[..i]) == Ok(keys)
      invariant r.Err? ==> r == EntriesOf(tables)
      decreases |tables| - i, r.Ok?
    {
      assert tables[..i + 1][..i] == tables[..i];
      var entry := EntryOf(tables[i]);
      if entry.None? {
        assert tables[i] in tables;
        ErrorsAgree(tables);
        r := Err(InvalidEntry);
      } else {
        keys := keys + [entry.value];
        i := i + 1;
      }
    }
    if r.Ok? {
      assert tables[..i] == tables;
      r := Ok(keys);
    }
  }

  lemma {:induction false} ErrorsAgree(tables: seq<Table>)
    ensures EntriesOf(tables).Err? ==> EntriesOf(tables) == Err(InvalidEntry)
  {
    if tables != [] { ErrorsAgree(tables[..|tables| - 1]); }
  }

  // ---- Reading line by line ----

  lemma {:induction false} ReadAppend(doc: Document, a: seq<string>, b: seq<string>)
    ensures ReadLines(doc, a + b) == ReadLines(ReadLines(doc, a), b)
    decreases |a|
  {
    if a == [] {
      assert a + b == b;
    } else {
      assert (a + b)[1..] == a[1..] + b;
      ReadAppend(ReadLine(doc, a[0]), a[1..], b);
    }
  }

  /** Everything in `earlier` is still there, unchanged, in `later`. */
  ghost predicate Kept(earlier: seq<Table>, later: seq<Table>) {
    && |earlier| <= |later|
    && forall i :: 0 <= i < |earlier| ==>
         && earlier[i].name == later[i].name
         && forall k | k in earlier[i].fields :: k in later[i].fields && later[i].fields[k] == earlier[i].fields[k]
  }

  /** What a line has set, no later line changes. */
  lemma {:induction false} LinesKeepWhatWasSet(tables: seq<Table>, lines: seq<string>)
    ensures var r := ReadLines(Some(tables), lines); r.Some? ==> Kept(tables, r.value)
    decreases |lines|
  {
    if lines != [] {
      var next := ReadLine(Some(tables), lines[0]);
      if next.Some? {
        assert Kept(tables, next.value);
        LinesKeepWhatWasSet(next.value, lines[1..]);
      } else {
        NoneStays(lines[1..]);
      }
    }
  }

  lemma {:induction false} NoneStays(lines: seq<string>)
    ensures ReadLines(None, lines) == None
  {
    if lines != [] { NoneStays(lines[1..]); }
  }

  lemma {:induction false} TablesAreDistinct(tables: seq<Table>, lines: seq<string>)
    requires DistinctTables(tables)
    ensures var r := ReadLines(Some(tables), lines); r.Some? ==> DistinctTables(r.value)
    decreases |lines|
  {
    if lines != [] {
      var next := ReadLine(Some(tables), lines[0]);
      if next.Some? {
        TablesAreDistinct(next.value, lines[1..]);
      } else {
        NoneStays(lines[1..]);
      }
    }
  }

  /** Whatever the file holds, a list that is read has good, distinct names and good hashes. */
  lemma LoadedIsValid(file: File)
    ensures Loaded(file).Ok? ==> Valid(Loaded(file).value)
  {
    var doc := Parsed(file);
    if file.Content? { TablesAreDistinct([], Split(file.text)); }
    if doc.Some? && EntriesOf(doc.value).Ok? {
      var tables, keys := doc.value, EntriesOf(doc.value).value;
      assert DistinctTables(tables);
      forall i | 0 <= i < |keys| ensures keys[i].name == tables[i].name && NameOk(keys[i].name) && HashOk(keys[i].hash) {
        assert EntryOf(tables[i]) == Some(keys[i]);
      }
    }
  }

  /** The first lines of those that can be read are in the layout, and so are the others. */
  lemma {:induction false} ReadLinesAreInLayout(tables: seq<Table>, lines: seq<string>)
    requires ReadLines(Some(tables), lines).Some?
    ensures forall i :: 0 <= i < |lines| ==> InLayout(lines[i]) && (IsField(lines[i]) ==> tables != [] || InTable(lines, i))
    decreases |lines|
  {
    hide ReadName, ReadField;
    if lines != [] {
      var line, rest, next := lines[0], lines[1..], ReadLine(Some(tables), lines[0]);
      if next.None? { NoneStays(rest); }
      ReadLinesAreInLayout(next.value, rest);
      forall i | 0 < i < |lines|
        ensures InLayout(lines[i]) && (IsField(lines[i]) ==> tables != [] || InTable(lines, i))
      {
        assert lines[i] == rest[i - 1];
        if IsField(lines[i]) && tables == [] {
          if ReadName(line).Some? {
            assert InTable(lines, i);
          } else {
            assert next.value == [] && InTable(rest, i - 1);
            var j :| 0 <= j < i - 1 && j < |rest| && ReadName(rest[j]).Some?;
            assert lines[j + 1] == rest[j];
          }
        }
      }
    }
  }

  /** Whatever text loads is in the layout. */
  lemma ReadableIsCovered(file: File)
    requires Loaded(file).Ok?
    ensures Covered(file)
  {
    hide ReadLines, EntriesOf, InLayout;
    if file.Content? { ReadLinesAreInLayout([], Split(file.text)); }
  }

  // ---- Reading what was printed ----

  lemma {:induction false} BareWhole(key: string, rest: string)
    requires forall c | c in key :: Bare(c)
    requires rest != "" ==> !Bare(rest[0])
    ensures BareLength(key + rest) == |key|
  {
    if key == "" {
      assert key + rest == rest;
    } else {
      assert key[0] in key && (key + rest)[1..] == key[1..] + rest;
      BareWhole(key[1..], rest);
    }
  }

  lemma ReadsName(e: KeyEntry)
    requires NameOk(e.name)
    ensures ReadName(NameLine(e)) == Some(e.name) && NameLine(e)[0] == '[' && '\n' !in NameLine(e)
  {
    BareWhole(e.name, "");
    assert e.name + "" == e.name;
    assert NameLine(e)[6..|NameLine(e)| - 1] == e.name;
  }

  lemma SlicesAfter(a: string, b: string, n: nat)
    requires n <= |b|
    ensures (a + b)[|a|..|a| + n] == b[..n] && (a + b)[|a| + n..] == b[n..]
  {
    assert forall i :: 0 <= i < n ==> (a + b)[|a|..|a| + n][i] == b[..n][i];
    assert forall i :: 0 <= i < |b| - n ==> (a + b)[|a| + n..][i] == b[n..][i];
  }

  /** A field line reads as whatever its quoted part reads as. */
  lemma ReadsField(key: string, quoted: string)
    requires key == "hash" || key == "created"
    ensures var line := key + " = \"" + quoted;
      && line[0] != '#' && line[0] != '['
      && ReadField(line) ==
         match Toml.Chars(quoted) {
           case None => None
           case Some(p) => if p.rest == "" then Some(Field(key, p.value)) else None
         }
  {
    hide BareLength, Toml.Chars;
    var line, rest := key + " = \"" + quoted, " = " + ("\"" + quoted);
    assert line == key + rest;
    assert rest[..3] == " = " && rest[3..] == "\"" + quoted;
    BareWhole(key, rest) by { assert rest[0] == ' '; }
    SlicesAfter(key, rest, 3);
    assert ("\"" + quoted)[1..] == quoted;
    assert line[..|key|] == key;
    assert key[0] != '#' && key[0] != '[';
  }

  function HalfTable(e: KeyEntry): Table {
    Table(e.name, map["hash" := e.hash])
  }

  function TableOf(e: KeyEntry): Table {
    Table(e.name, map["hash" := e.hash, "created" := e.created])
  }

  function Tables(keys: Keys): (r: seq<Table>)
    ensures |r| == |keys| && forall i :: 0 <= i < |r| ==> r[i] == TableOf(keys[i])
  {
    if keys == [] then [] else Tables(keys[..|keys| - 1]) + [TableOf(keys[|keys| - 1])]
  }

  lemma HashIsPlain(hash: string)
    requires HashOk(hash)
    ensures Toml.Plain(hash) && '\n' !in hash
  {
    forall c | c in hash ensures !Toml.Control(c) && c != '"' && c != '\\' {
      var i :| 0 <= i < |hash| && hash[i] == c;
      if i < 7 {
        assert c == "sha256:"[i];
      } else {
        assert hash[7..][i - 7] == c;
        assert c in hash[7..];
      }
    }
  }

  /** Reading the first two lines of an entry. */
  lemma ReadsNameAndHash(tables: seq<Table>, e: KeyEntry)
    requires NameOk(e.name) && HashOk(e.hash) && !Has(tables, e.name)
    ensures ReadLines(Some(tables), [NameLine(e), Assign("hash", e.hash)]) == Some(tables + [HalfTable(e)])
    ensures '\n' !in NameLine(e) && '\n' !in Assign("hash", e.hash)
  {
    ReadsName(e);
    var named := tables + [Table(e.name, map[])];
    assert ReadLine(Some(tables), NameLine(e)) == Some(named);
    HashIsPlain(e.hash);
    Toml.PlainReadsBack(e.hash, "");
    assert e.hash + "\"" + "" == e.hash + "\"";
    assert Assign("hash", e.hash) == "hash" + " = \"" + (e.hash + "\"");
    ReadsField("hash", e.hash + "\"");
    assert ReadLine(Some(named), Assign("hash", e.hash)) == SetField(named, Field("hash", e.hash));
    assert named[..|tables|] == tables;
    assert map[]["hash" := e.hash] == map["hash" := e.hash];
    ReadTwo(Some(tables), NameLine(e), Assign("hash", e.hash));
  }

  lemma ReadTwo(doc: Document, a: string, b: string)
    ensures ReadLines(doc, [a, b]) == ReadLine(ReadLine(doc, a), b)
  {
    assert [a, b][1..] == [b] && [b][1..] == [];
    assert ReadLines(ReadLine(doc, a), [b]) == ReadLines(ReadLine(ReadLine(doc, a), b), []);
  }

  /** Reading the line with the date: what is between the quotes need not be what was written. */
  lemma ReadsCreated(tables: seq<Table>, e: KeyEntry, quoted: string)
    ensures ReadLine(Some(tables + [HalfTable(e)]), "created = \"" + quoted) ==
      match Toml.Chars(quoted) {
        case None => None
        case Some(p) => if p.rest == "" then Some(tables + [TableOf(e.(created := p.value))]) else None
      }
  {
    hide Toml.Chars, ReadField;
    ReadsField("created", quoted);
    assert "created" + " = \"" + quoted == "created = \"" + quoted;
    var half := tables + [HalfTable(e)];
    assert half[..|tables|] == tables;
    assert forall v: string :: HalfTable(e).fields["created" := v] == map["hash" := e.hash, "created" := v];
  }

  /** An entry whose date is plain is read back. */
  lemma ReadsEntry(tables: seq<Table>, e: KeyEntry)
    requires NameOk(e.name) && HashOk(e.hash) && Toml.Plain(e.created) && !Has(tables, e.name)
    ensures ReadLines(Some(tables), EntryLines(e)) == Some(tables + [TableOf(e)])
    ensures forall line | line in EntryLines(e) :: '\n' !in line
  {
    hide ReadLine, NameOk, HashOk, NameLine, Has;
    ReadsNameAndHash(tables, e);
    var first, second := [NameLine(e), Assign("hash", e.hash)], [Assign("created", e.created), ""];
    assert EntryLines(e) == first + second;
    ReadAppend(Some(tables), first, second);
    Toml.PlainReadsBack(e.created, "");
    assert e.created + "\"" + "" == e.created + "\"";
    assert Assign("created", e.created) == "created = \"" + (e.created + "\"");
    ReadsCreated(tables, e, e.created + "\"");
    assert e.(created := e.created) == e;
    ReadTwo(Some(tables + [HalfTable(e)]), Assign("created", e.created), "");
    BlankIsSkipped(tables + [TableOf(e)]);
    assert '\n' !in e.created;
  }

  lemma BlankIsSkipped(tables: seq<Table>)
    ensures ReadLine(Some(tables), "") == Some(tables)
  {
  }

  predicate Shown(s: string) {
    forall i :: 0 <= i < |s| ==> !Toml.Control(s[i])
  }

  lemma HeaderIsAComment()
    ensures HEADER != "" && HEADER[0] == '#' && '\n' !in HEADER
    ensures forall c | c in HEADER :: !Toml.Control(c)
  {
    assert Shown("# API keys for the gateway, ");
    assert Shown("managed by `alab keys`. ");
    assert Shown("Only hashes are stored.");
    assert Shown(HEADER) && Toml.Control('\n');
  }

  lemma ReadsHeader()
    ensures ReadLines(Some([]), [HEADER, ""]) == Some([]) && '\n' !in HEADER
  {
    hide HEADER;
    HeaderIsAComment();
    ReadTwo(Some([]), HEADER, "");
  }

  lemma {:induction false} ReadsAll(keys: Keys)
    requires Valid(keys) && PlainDates(keys)
    ensures ReadLines(Some([]), Lines(keys)) == Some(Tables(keys))
    ensures forall line | line in Lines(keys) :: '\n' !in line
  {
    hide ReadLine, NameOk, HashOk, NameLine, EntryLines, Toml.Plain;
    if keys == [] {
      ReadsHeader();
    } else {
      var before, e := keys[..|keys| - 1], keys[|keys| - 1];
      ReadsAll(before);
      ReadAppend(Some([]), Lines(before), EntryLines(e));
      assert !Has(Tables(before), e.name);
      ReadsEntry(Tables(before), e);
    }
  }

  lemma TablesAreTheEntries(keys: Keys)
    requires Valid(keys)
    ensures EntriesOf(Tables(keys)) == Ok(keys)
  {
    var tables := Tables(keys);
    forall i | 0 <= i < |keys| ensures EntryOf(tables[i]) == Some(keys[i]) {
      assert tables[i] == TableOf(keys[i]);
    }
    assert EntriesOf(tables).value == keys;
  }

  /** Plain dates are enough: what is printed is read back, entry by entry. */
  lemma PlainRoundTrips(keys: Keys)
    requires Valid(keys) && PlainDates(keys)
    ensures Loaded(Content(Printed(keys))) == Ok(keys)
  {
    ReadsAll(keys);
    SplitJoin(Lines(keys));
    TablesAreTheEntries(keys);
  }

  // ---- Dates that are not plain ----

  /** Complete lines in front of a text are its first lines. */
  lemma {:induction false} SplitLines(lines: seq<string>, rest: string)
    requires lines != [] && forall l | l in lines :: '\n' !in l
    ensures Split(Join(lines) + "\n" + rest) == lines + Split(rest)
  {
    hide Split;
    assert lines[0] in lines;
    if |lines| == 1 {
      SplitLine(lines[0], rest);
      assert lines == [lines[0]];
    } else {
      SplitLines(lines[1..], rest);
      var tail := Join(lines[1..]) + "\n" + rest;
      SplitLine(lines[0], tail);
      assert Join(lines) + "\n" + rest == lines[0] + "\n" + tail;
      assert [lines[0]] + (lines[1..] + Split(rest)) == lines + Split(rest);
    }
  }

  lemma {:induction false} JoinAppend(a: seq<string>, b: seq<string>)
    requires a != [] && b != []
    ensures Join(a + b) == Join(a) + "\n" + Join(b)
  {
    assert (a + b)[0] == a[0];
    if |a| == 1 {
      assert (a + b)[1..] == b;
    } else {
      assert (a + b)[1..] == a[1..] + b;
      JoinAppend(a[1..], b);
    }
  }

  /** The lines up to the date of one entry, which come first whatever follows. */
  function LinesBefore(keys: Keys, k: nat): seq<string>
    requires k < |keys|
  {
    Lines(keys[..k]) + [NameLine(keys[k]), Assign("hash", keys[k].hash)]
  }

  /** The text around a date: what stands in front of it, and after its closing quote. */
  lemma {:induction false} TextAroundDate(keys: Keys, k: nat) returns (rest: string)
    requires k < |keys|
    ensures Printed(keys) ==
      Join(LinesBefore(keys, k)) + "\n" + ("created = \"" + (keys[k].created + "\"\n" + rest))
    decreases |keys|
  {
    hide NameLine;
    var before, e := keys[..|keys| - 1], keys[|keys| - 1];
    if k == |keys| - 1 {
      var last := [Assign("created", e.created), ""];
      assert Lines(keys) == LinesBefore(keys, k) + last;
      JoinAppend(LinesBefore(keys, k), last);
      assert last[1..] == [""] && Join([""]) == "";
      rest := "";
      assert Join(last) == "created = \"" + (e.created + "\"\n" + rest);
    } else {
      var r := TextAroundDate(before, k);
      JoinAppend(Lines(before), EntryLines(e));
      assert before[..k] == keys[..k];
      rest := r + "\n" + Join(EntryLines(e));
      var front, date := Join(LinesBefore(keys, k)) + "\n", "created = \"";
      assert front + (date + (keys[k].created + "\"\n" + r)) + "\n" + Join(EntryLines(e))
          == front + (date + (keys[k].created + "\"\n" + rest));
    }
  }

  /** The quoted part of the line that a date starts, and why it is not read as that date. */
  lemma UnplainIsNotRead(created: string, rest: string) returns (quoted: string, more: seq<string>)
    requires !Toml.Plain(created)
    ensures Split("created = \"" + (created + "\"\n" + rest)) == ["created = \"" + quoted] + more
    ensures var p := Toml.Chars(quoted); p.Some? && p.value.rest == "" ==> p.value.value != created
  {
    hide Split;
    var line := "created = \"";
    var all := created + "\"\n" + rest;
    assert '\n' !in line;
    SplitPrefix(line, all);
    quoted, more := Split(all)[0], Split(all)[1..];
    if '\n' in created {
      assert all == created + ("\"\n" + rest);
      FirstLineIsShorter(created, "\"\n" + rest);
    } else {
      assert all == (created + "\"") + "\n" + rest;
      assert '\n' !in created + "\"";
      SplitLine(created + "\"", rest);
      assert quoted == created + "\"" + "";
      Toml.PlainReadsBack(created, "");
    }
  }

  /** A date that is not plain spoils the file, or is read as something else. */
  lemma UnplainDoesNotRoundTrip(keys: Keys, k: nat)
    requires Valid(keys) && k < |keys| && PlainDates(keys[..k]) && !Toml.Plain(keys[k].created)
    ensures Loaded(Content(Printed(keys))) != Ok(keys)
  {
    hide Split, Join, ReadLine, NameOk, HashOk, Toml.Plain, Toml.Chars;
    var e, start := keys[k], Tables(keys[..k]);
    var rest := TextAroundDate(keys, k);
    var quoted, more := UnplainIsNotRead(e.created, rest);
    ReadsAll(keys[..k]);
    ReadsNameAndHash(start, e);
    SplitLines(LinesBefore(keys, k), "created = \"" + (e.created + "\"\n" + rest));
    var front, line := LinesBefore(keys, k), "created = \"" + quoted;
    assert Split(Printed(keys)) == front + ([line] + more);
    ReadAppend(Some([]), front, [line] + more);
    ReadAppend(Some([]), Lines(keys[..k]), [NameLine(e), Assign("hash", e.hash)]);
    ReadAppend(Some(start + [HalfTable(e)]), [line], more);
    ReadOne(Some(start + [HalfTable(e)]), line);
    ReadsCreated(start, e, quoted);
    var doc := ReadLine(Some(start + [HalfTable(e)]), line);
    if doc.None? {
      NoneStays(more);
    } else {
      LinesKeepWhatWasSet(doc.value, more);
      WrongDateStaysWrong(keys, k, doc.value, ReadLines(doc, more));
    }
  }

  lemma ReadOne(doc: Document, line: string)
    ensures ReadLines(doc, [line]) == ReadLine(doc, line)
  {
    assert [line][1..] == [];
  }

  lemma WrongDateStaysWrong(keys: Keys, k: nat, tables: seq<Table>, doc: Document)
    requires k < |keys| && |tables| == k + 1
    requires "created" in tables[k].fields && tables[k].fields["created"] != keys[k].created
    requires doc.Some? ==> Kept(tables, doc.value)
    ensures doc.Some? ==> EntriesOf(doc.value) != Ok(keys)
  {
    if doc.Some? && EntriesOf(doc.value).Ok? {
      assert EntryOf(doc.value[k]) == Some(EntriesOf(doc.value).value[k]);
    }
  }

  lemma {:induction false} FirstUnplain(keys: Keys) returns (k: nat)
    requires !PlainDates(keys)
    ensures k < |keys| && PlainDates(keys[..k]) && !Toml.Plain(keys[k].created)
  {
    var before := keys[..|keys| - 1];
    if PlainDates(before) {
      k := |keys| - 1;
    } else {
      k := FirstUnplain(before);
      assert before[..k] == keys[..k];
    }
  }

  /**
   * Loading what is printed gives back the same entries in the same order, exactly if every
   * date can stand between quotes as it is: `_render` does not escape.
   */
  lemma RoundTrip(keys: Keys)
    requires Valid(keys)
    ensures Loaded(Content(Printed(keys))) == Ok(keys) <==> PlainDates(keys)
  {
    if PlainDates(keys) {
      PlainRoundTrips(keys);
    } else {
      var k := FirstUnplain(keys);
      UnplainDoesNotRoundTrip(keys, k);
    }
  }
}
