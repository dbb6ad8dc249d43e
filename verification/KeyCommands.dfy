/** `alab keys create` and `revoke`, and what any run of them does to which key is accepted. */
module KeyCommands {
  import opened Wrappers
  import opened KeyFile
  import opened Text
  import Toml

  /** A command, with the hash of the key that is made and the time it is made at. */
  datatype Command = Create(name: string, hash: string, created: string) | Revoke(name: string)

  predicate Named(keys: Keys, name: string) {
    exists e | e in keys :: e.name == name
  }

  function Without(keys: Keys, name: string): Keys {
    if keys == [] then []
    else
      var last := keys[|keys| - 1];
      Without(keys[..|keys| - 1], name) + if last.name == name then [] else [last]
  }

  lemma {:induction false} WithoutRemoves(keys: Keys, name: string)
    ensures forall e :: e in Without(keys, name) <==> e in keys && e.name != name
    ensures |Without(keys, name)| <= |keys|
    ensures |Without(keys, name)| == |keys| <==> !Named(keys, name)
  {
    if keys != [] {
      var before, last := keys[..|keys| - 1], keys[|keys| - 1];
      WithoutRemoves(before, name);
      assert forall e :: e in keys <==> e in before || e == last;
      assert Named(keys, name) <==> Named(before, name) || last.name == name;
    }
  }

  /** What a command makes of the keys in the file, or why it fails. */
  function Outcome(file: File, c: Command): Result<Keys, Error> {
    if c.Create? && !NameOk(c.name) then Err(BadName)
    else match Loaded(file) {
      case Err(e) => Err(e)
      case Ok(keys) =>
        match c
        case Create(name, hash, created) =>
          if Named(keys, name) then Err(AlreadyExists) else Ok(keys + [KeyEntry(name, hash, created)])
        case Revoke(name) =>
          if Named(keys, name) then Ok(Without(keys, name)) else Err(NoSuchKey)
    }
  }

  /** The file after a command: replaced as a whole, or untouched. */
  function After(file: File, c: Command): File {
    match Outcome(file, c)
    case Err(_) => file
    case Ok(keys) => Content(Printed(keys))
  }

  /** A key can be created exactly under a good name that no entry has, and revoked exactly if one has it. */
  lemma CommandsSucceed(file: File, c: Command)
    ensures Outcome(file, c).Ok? <==>
      && Loaded(file).Ok?
      && match c {
           case Create(name, _, _) => NameOk(name) && forall e | e in Loaded(file).value :: e.name != name
           case Revoke(name) => exists e | e in Loaded(file).value :: e.name == name
         }
    ensures Outcome(file, c).Ok? ==>
      forall e :: e in Outcome(file, c).value <==>
        match c
        case Create(name, hash, created) => e in Loaded(file).value || e == KeyEntry(name, hash, created)
        case Revoke(name) => e in Loaded(file).value && e.name != name
  {
    hide Loaded, NameOk;
    if Loaded(file).Ok? && c.Revoke? { WithoutRemoves(Loaded(file).value, c.name); }
  }

  class KeysFile {
    var file: File

    constructor ()
      ensures file == Absent
    {
      file := Absent;
    }

    method Save(keys: Keys)
      modifies this
      ensures file == Content(Printed(keys))
    {
      var text := Render(keys);
      file := Content(text);
    }

    method Create(name: string, hash: string, created: string) returns (error: Option<Error>)
      requires Covered(file)
      modifies this
      ensures var command := Command.Create(name, hash, created);
        && file == After(old(file), command)
        && error == match Outcome(old(file), command) { case Err(e) => Some(e) case Ok(_) => None }
    {
      error := None;
      if !NameOk(name) {
        return Some(BadName);
      }
      var loaded := Load(file);
      if loaded.Err? {
        return Some(loaded.error);
      }
      var keys := loaded.value;
      var taken := IsTaken(keys, name);
      hide Named, Loaded, Printed, NameOk;
      if taken {
        return Some(AlreadyExists);
      }
      Save(keys + [KeyEntry(name, hash, created)]);
    }

    method Revoke(name: string) returns (error: Option<Error>)
      requires Covered(file)
      modifies this
      ensures var command := Command.Revoke(name);
        && file == After(old(file), command)
        && error == match Outcome(old(file), command) { case Err(e) => Some(e) case Ok(_) => None }
    {
      error := None;
      var loaded := Load(file);
      if loaded.Err? {
        return Some(loaded.error);
      }
      var keys := loaded.value;
      var kept := Others(keys, name);
      WithoutRemoves(keys, name);
      hide Named, Loaded, Printed, Without;
      if |kept| == |keys| {
        return Some(NoSuchKey);
      }
      Save(kept);
    }
  }

  method IsTaken(keys: Keys, name: string) returns (taken: bool)
    ensures taken <==> Named(keys, name)
  {
    taken := false;
    for i := 0 to |keys|
      invariant !taken && forall j :: 0 <= j < i ==> keys[j].name != name
    {
      if keys[i].name == name {
        assert keys[i] in keys;
        return true;
      }
    }
  }

  /** The entries under other names. */
  method Others(keys: Keys, name: string) returns (kept: Keys)
    ensures kept == Without(keys, name)
  {
    kept := [];
    for i := 0 to |keys|
      invariant kept == Without(keys[..i], name)
    {
      assert keys[..i + 1][..i] == keys[..i];
      if keys[i].name != name { kept := kept + [keys[i]]; }
    }
    assert keys[..|keys|] == keys;
  }

  // ---- Which key is accepted ----

  /** The name under which a hash is accepted: every entry is compared, the last match counts. */
  function Answer(keys: Keys, hash: string): Option<string> {
    if keys == [] then None
    else
      var last := keys[|keys| - 1];
      if last.hash == hash then Some(last.name) else Answer(keys[..|keys| - 1], hash)
  }

  /** A file that cannot be loaded accepts no key. */
  function Accepted(file: File): Keys {
    match Loaded(file)
    case Ok(keys) => keys
    case Err(_) => []
  }

  function AnswerOf(file: File, hash: string): Option<string> {
    Answer(Accepted(file), hash)
  }

  /** The hash and the date of a new key are made by the program, not typed. */
  ghost predicate Generated(c: Command) {
    c.Create? ==> HashOk(c.hash) && Toml.Plain(c.created)
  }

  ghost predicate Readable(file: File) {
    Loaded(file).Ok? && PlainDates(Loaded(file).value)
  }

  lemma {:induction false} WithoutIsValid(keys: Keys, name: string)
    requires Valid(keys)
    ensures Valid(Without(keys, name)) && (PlainDates(keys) ==> PlainDates(Without(keys, name)))
  {
    hide NameOk, HashOk, Toml.Plain, Named;
    if keys != [] {
      var before, last := keys[..|keys| - 1], keys[|keys| - 1];
      FrontIsValid(keys);
      WithoutIsValid(before, name);
      if last.name == name {
        assert Without(keys, name) == Without(before, name);
      } else {
        AddKeepsValid(Without(before, name), before, name, last);
      }
    }
  }

  lemma FrontIsValid(keys: Keys)
    requires Valid(keys) && keys != []
    ensures Valid(keys[..|keys| - 1]) && (PlainDates(keys) ==> PlainDates(keys[..|keys| - 1]))
    ensures forall e | e in keys[..|keys| - 1] :: e.name != keys[|keys| - 1].name
  {
    hide NameOk, HashOk, Toml.Plain;
  }

  lemma AddKeepsValid(kept: Keys, before: Keys, name: string, last: KeyEntry)
    requires kept == Without(before, name) && Valid(kept) && NameOk(last.name) && HashOk(last.hash)
    requires forall e | e in before :: e.name != last.name
    ensures Valid(kept + [last])
    ensures PlainDates(kept) && Toml.Plain(last.created) ==> PlainDates(kept + [last])
  {
    hide NameOk, HashOk, Toml.Plain, Without, Named;
    WithoutRemoves(before, name);
    forall i | 0 <= i < |kept| ensures kept[i].name != last.name {
      assert kept[i] in before;
    }
  }

  lemma OutcomeIsValid(file: File, c: Command)
    requires Generated(c)
    ensures Outcome(file, c).Ok? ==> Valid(Outcome(file, c).value)
    ensures Outcome(file, c).Ok? && Readable(file) ==> PlainDates(Outcome(file, c).value)
  {
    hide HashOk, Toml.Plain, Loaded;
    LoadedIsValid(file);
    if Outcome(file, c).Ok? {
      var keys := Loaded(file).value;
      if c.Revoke? {
        WithoutIsValid(keys, c.name);
      } else {
        assert forall i :: 0 <= i < |keys| ==> keys[i] in keys;
      }
    }
  }

  /**
   * After a command that succeeds the file holds exactly the list that the command meant to
   * store, if and only if no date in it needs escaping.
   */
  lemma CommandStoresItsList(file: File, c: Command)
    requires Generated(c) && Outcome(file, c).Ok?
    ensures Loaded(After(file, c)) == Ok(Outcome(file, c).value) <==> PlainDates(Outcome(file, c).value)
  {
    hide Valid, PlainDates, Loaded;
    OutcomeIsValid(file, c);
    RoundTrip(Outcome(file, c).value);
  }

  lemma CommandKeepsReadable(file: File, c: Command)
    requires Generated(c) && Readable(file)
    ensures Readable(After(file, c))
    ensures Accepted(After(file, c)) == match Outcome(file, c) { case Ok(keys) => keys case Err(_) => Accepted(file) }
  {
    OutcomeIsValid(file, c);
    if Outcome(file, c).Ok? { CommandStoresItsList(file, c); }
  }

  lemma AnswerAppend(keys: Keys, last: KeyEntry, hash: string)
    ensures Answer(keys + [last], hash) == if last.hash == hash then Some(last.name) else Answer(keys, hash)
  {
    assert (keys + [last])[..|keys|] == keys;
  }

  lemma {:induction false} WithoutAnswers(keys: Keys, name: string, hash: string)
    ensures Answer(keys, hash) != Some(name) ==> Answer(Without(keys, name), hash) == Answer(keys, hash)
    ensures Answer(Without(keys, name), hash) != Some(name)
  {
    if keys != [] {
      var before, last := keys[..|keys| - 1], keys[|keys| - 1];
      WithoutAnswers(before, name, hash);
      if last.name == name {
        assert Without(keys, name) == Without(before, name);
      } else {
        AnswerAppend(Without(before, name), last, hash);
      }
    }
  }

  /** A command changes the answer to a hash only by creating that very hash or revoking its name. */
  ghost predicate Touches(file: File, c: Command, hash: string) {
    match c
    case Create(_, h, _) => h == hash
    case Revoke(name) => AnswerOf(file, hash) == Some(name)
  }

  lemma OthersKeepTheirAnswer(file: File, c: Command, hash: string)
    requires Generated(c) && Readable(file) && !Touches(file, c, hash)
    ensures AnswerOf(After(file, c), hash) == AnswerOf(file, hash)
  {
    CommandKeepsReadable(file, c);
    if Outcome(file, c).Ok? {
      var keys := Loaded(file).value;
      match c {
        case Create(name, h, created) =>
          assert (keys + [KeyEntry(name, h, created)])[..|keys|] == keys;
        case Revoke(name) => WithoutAnswers(keys, name, hash);
      }
    }
  }

  function Run(file: File, commands: seq<Command>): File
    decreases |commands|
  {
    if commands == [] then file else Run(After(file, commands[0]), commands[1..])
  }

  ghost predicate AllGenerated(commands: seq<Command>) {
    forall c | c in commands :: Generated(c)
  }

  /** Over any run of commands the list stays readable, with distinct names. */
  lemma {:induction false} RunsKeepTheList(file: File, commands: seq<Command>)
    requires AllGenerated(commands) && Readable(file)
    ensures Readable(Run(file, commands)) && Valid(Loaded(Run(file, commands)).value) && Covered(Run(file, commands))
    decreases |commands|
  {
    hide After, Valid, Loaded, Generated, Covered;
    ReadableIsCovered(file);
    LoadedIsValid(file);
    if commands != [] {
      assert commands[0] in commands;
      CommandKeepsReadable(file, commands[0]);
      RunsKeepTheList(After(file, commands[0]), commands[1..]);
    }
  }

  /** No command creates this hash or revokes this name. */
  ghost predicate LeaveAlone(commands: seq<Command>, name: Option<string>, hash: string) {
    forall c | c in commands ::
      match c
      case Create(_, h, _) => h != hash
      case Revoke(n) => name != Some(n)
  }

  /** The answer to a hash stays what it is until its name is revoked or the hash is created. */
  lemma {:induction false} AnswerStays(file: File, commands: seq<Command>, hash: string)
    requires AllGenerated(commands) && Readable(file)
    requires LeaveAlone(commands, AnswerOf(file, hash), hash)
    ensures AnswerOf(Run(file, commands), hash) == AnswerOf(file, hash)
    decreases |commands|
  {
    hide After, Loaded, Accepted, Answer, Generated, Readable;
    if commands != [] {
      var c := commands[0];
      assert c in commands;
      CommandKeepsReadable(file, c);
      OthersKeepTheirAnswer(file, c, hash);
      assert forall d | d in commands[1..] :: d in commands;
      AnswerStays(After(file, c), commands[1..], hash);
    }
  }

  /** A new key answers with its own name until that name is revoked, even if its hash was known. */
  lemma CreatedUntilRevoked(file: File, c: Command, later: seq<Command>)
    requires Readable(file) && c.Create? && Generated(c) && Outcome(file, c).Ok?
    requires AllGenerated(later) && LeaveAlone(later, Some(c.name), c.hash)
    ensures AnswerOf(Run(After(file, c), later), c.hash) == Some(c.name)
  {
    CommandKeepsReadable(file, c);
    AnswerStays(After(file, c), later, c.hash);
  }

  ghost predicate OnlyUnder(keys: Keys, hash: string, name: string) {
    forall e | e in keys :: e.hash == hash ==> e.name == name
  }

  lemma WithoutItsOnlyName(keys: Keys, name: string, hash: string)
    requires OnlyUnder(keys, hash, name)
    ensures Answer(Without(keys, name), hash) == None
  {
    hide Without, Answer;
    WithoutRemoves(keys, name);
    AnswerIsAnEntry(Without(keys, name), hash);
  }

  /** A revoked key is refused until its hash is created again, if no other name has that hash. */
  lemma RevokedIsRefused(file: File, name: string, hash: string, later: seq<Command>)
    requires Readable(file) && Outcome(file, Revoke(name)).Ok?
    requires OnlyUnder(Accepted(file), hash, name)
    requires AllGenerated(later) && LeaveAlone(later, None, hash)
    ensures AnswerOf(Run(After(file, Revoke(name)), later), hash) == None
  {
    hide After, Readable, Run, AllGenerated, LeaveAlone, Loaded, Without, Answer, OnlyUnder;
    var file' := After(file, Revoke(name));
    CommandKeepsReadable(file, Revoke(name));
    WithoutItsOnlyName(Accepted(file), name, hash);
    AnswerStays(file', later, hash);
  }

  lemma {:induction false} AnswerIsAnEntry(keys: Keys, hash: string)
    ensures Answer(keys, hash) == None <==> forall e | e in keys :: e.hash != hash
    ensures var r := Answer(keys, hash); r.Some? ==> exists e | e in keys :: e.hash == hash && e.name == r.value
  {
    if keys != [] {
      var before, last := keys[..|keys| - 1], keys[|keys| - 1];
      AnswerIsAnEntry(before, hash);
      assert forall e :: e in keys <==> e in before || e == last;
    }
  }

  /** A file that cannot be loaded is never touched: every command fails and no key is accepted. */
  lemma {:induction false} BrokenStaysBroken(file: File, commands: seq<Command>)
    requires Covered(file) && Loaded(file).Err?
    ensures Run(file, commands) == file && forall hash :: AnswerOf(Run(file, commands), hash) == None
    decreases |commands|
  {
    hide Loaded, Covered;
    if commands != [] { BrokenStaysBroken(file, commands[1..]); }
  }

  // ---- A date that was edited by hand ----

  function SomeHash(): (hash: string)
    ensures HashOk(hash)
  {
    "sha256:" + Zeros(64)
  }

  function Zeros(n: nat): (s: string)
    ensures |s| == n && forall c | c in s :: c == '0'
  {
    seq(n, _ => '0')
  }

  /** A date that is a quote, which TOML wants escaped. */
  const EDITED := "\""

  /** One key, whose date was edited by hand. */
  function EditedFile(): File {
    Content(Join(EditedLines()))
  }

  function EditedLines(): seq<string> {
    [NameLine(EditedEntry()), Assign("hash", SomeHash()), "created = \"" + EditedQuote()]
  }

  function EditedEntry(): KeyEntry {
    KeyEntry("a", SomeHash(), EDITED)
  }

  function EditedQuote(): string {
    Toml.Escape(EDITED) + "\"" + ""
  }

  /**
   * The file loads, and a second key can be created; but the file that is then written does
   * not load as the two keys.
   */
  lemma EditedDateSpoilsTheFile(c: Command)
    requires c == Create("b", SomeHash(), "2025") && Generated(c)
    ensures Loaded(EditedFile()) == Ok([EditedEntry()])
    ensures Outcome(EditedFile(), c).Ok? && Loaded(After(EditedFile(), c)) != Ok(Outcome(EditedFile(), c).value)
  {
    EditedFileLoads();
    hide EditedFile, SomeHash, Loaded;
    CommandStoresItsList(EditedFile(), c);
    assert Outcome(EditedFile(), c).value[0].created == EDITED;
    assert EDITED[0] in EDITED && !Toml.Plain(EDITED);
  }

  lemma EditedFileLoads()
    ensures Loaded(EditedFile()) == Ok([EditedEntry()])
  {
    EditedLinesAreRead();
    LinesHaveNoEnds();
    assert EditedLines() != [];
    hide ReadLines, EditedLines, EditedEntry, EntryOf, TableOf;
    SplitJoin(EditedLines());
    var tables := [TableOf(EditedEntry())];
    assert tables[..0] == [] && [] + [EditedEntry()] == [EditedEntry()];
    assert EntriesOf(tables) == Ok([EditedEntry()]);
  }

  lemma LinesHaveNoEnds()
    ensures forall l | l in EditedLines() :: '\n' !in l
    ensures EntryOf(TableOf(EditedEntry())) == Some(EditedEntry())
  {
    ReadsNameAndHash([], EditedEntry());
    assert Toml.Escape(EDITED[1..]) == "" && Toml.Escape(EDITED) == "\\\"";
    hide NameLine, Assign;
    assert '\n' !in "created = \"" + EditedQuote();
  }

  lemma EditedLinesAreRead()
    ensures ReadLines(Some([]), EditedLines()) == Some([TableOf(EditedEntry())])
  {
    var e := EditedEntry();
    ReadsNameAndHash([], e);
    QuoteIsRead();
    ReadsCreated([], e, EditedQuote());
    hide ReadLine, SomeHash, Toml.Chars, EditedQuote, NameLine, Assign, NameOk, HashOk;
    assert e.(created := EDITED) == e;
    var first, last := [NameLine(e), Assign("hash", e.hash)], "created = \"" + EditedQuote();
    assert EditedLines() == first + [last];
    ReadAppend(Some([]), first, [last]);
    assert [] + [HalfTable(e)] == [HalfTable(e)] && [] + [TableOf(e)] == [TableOf(e)];
    ReadOne(Some([HalfTable(e)]), last);
  }

  lemma QuoteIsRead()
    ensures Toml.Chars(EditedQuote()) == Some(Toml.Parsed(EDITED, ""))
  {
    Toml.EscapeReadsBack(EDITED, "");
    assert Toml.ControlFree(EDITED);
  }
}
