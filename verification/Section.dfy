/** Reading typed fields from one TOML table, collecting every problem instead of stopping at the first. */
module Section {
  import opened Wrappers
  import opened Json
  import ModelFiles
  import Order
  import Sizes
  import opened Text

  /** What is wrong in a message; its place is what the messages promise to name. */
  datatype Kind =
    | NoSection | NotATable | Missing | WrongType | TooSmall | TooLarge | OutOfRange | Rejected
    | NotASize | NotPositive | UnknownField | Conflict

  datatype Place = Place(section: string, key: string)

  datatype Problem = Problem(place: Place, kind: Kind)

  function Named(problems: seq<Problem>): set<Place> {
    set p | p in problems :: p.place
  }

  lemma NamedAppend(problems: seq<Problem>, p: Problem)
    ensures Named(problems + [p]) == Named(problems) + {p.place}
  {
    assert forall q :: q in problems + [p] <==> q in problems || q == p;
  }

  lemma NoneNamed(problems: seq<Problem>)
    ensures Named(problems) == {} <==> problems == []
  {
    if problems != [] { assert problems[0].place in Named(problems); }
  }

  /** The `errors` list that the sections of one file share. */
  class Errors {
    var list: seq<Problem>

    constructor ()
      ensures list == []
    {
      list := [];
    }

    method Add(section: string, key: string, kind: Kind)
      modifies this
      ensures list == old(list) + [Problem(Place(section, key), kind)]
      ensures Named(list) == Named(old(list)) + {Place(section, key)}
    {
      NamedAppend(list, Problem(Place(section, key), kind));
      list := list + [Problem(Place(section, key), kind)];
    }
  }

  // ---- What each field has to be ----

  datatype Check = AnyText | ModelName | ToolParser | Hostname | EntryId | Repository | Revision

  datatype Rule =
    | Integer(minimum: int, maximum: Option<int>)
    | Number(low: real, high: real)
    | Text(check: Check)
    | Flag
    | Size
    | FileList

  predicate Lower(c: char) { 'a' <= c <= 'z' }
  predicate Digit(c: char) { '0' <= c <= '9' }
  predicate Alnum(c: char) { Lower(c) || 'A' <= c <= 'Z' || Digit(c) }
  predicate Dotted(c: char) { Alnum(c) || c == '.' || c == '_' || c == '-' }

  predicate Label(s: string) {
    && 1 <= |s| <= 63
    && (forall c | c in s :: Lower(c) || Digit(c) || c == '-')
    && s[0] != '-' && s[|s| - 1] != '-'
  }

  predicate Passes(check: Check, s: string) {
    match check
    case AnyText => true
    case ModelName => 1 <= |s| <= 64 && Alnum(s[0]) && forall c | c in s :: Dotted(c)
    case ToolParser =>
      s != "" && Lower(s[0]) && forall c | c in s :: Lower(c) || Digit(c) || c == '_'
    case Hostname =>
      var labels := Parts('.', s);
      var last := labels[|labels| - 1];
      && |s| <= 253 && |labels| >= 2
      && (forall i | 0 <= i < |labels| - 1 :: Label(labels[i]))
      && 2 <= |last| <= 63 && (forall c | c in last :: Lower(c))
    case EntryId =>
      && s != "" && (Lower(s[0]) || Digit(s[0]))
      && forall c | c in s :: Lower(c) || Digit(c) || c == '.' || c == '_' || c == '-'
    case Repository =>
      var halves := Parts('/', s);
      |halves| == 2 && forall h | h in halves :: h != "" && Alnum(h[0]) && forall c | c in h :: Dotted(c)
    case Revision => |s| == 40 && forall c | c in s :: Digit(c) || 'a' <= c <= 'f'
  }

  /** One to 63 small letters, digits and dashes, no dash at an end. */
  predicate Unbroken(s: string) {
    && s != "" && |s| < 64 && s[0] != '-' && s[|s| - 1] != '-'
    && forall c | c in s :: 'a' <= c <= 'z' || '0' <= c <= '9' || c == '-'
  }

  /** A host name is its labels, joined by points: two or more, the last of letters only. */
  lemma HostsByLabel(labels: seq<string>)
    requires labels != [] && forall part | part in labels :: '.' !in part
    ensures var last := |labels| - 1;
      Passes(Hostname, Glued('.', labels)) <==>
      && |Glued('.', labels)| <= 253 && last >= 1 && (forall i :: 0 <= i < last ==> Unbroken(labels[i]))
      && 2 <= |labels[last]| <= 63 && forall c | c in labels[last] :: 'a' <= c <= 'z'
  {
    hide Parts, Glued, Label, Unbroken;
    PartsOfGlued('.', labels);
    forall i | 0 <= i < |labels| ensures Label(labels[i]) <==> Unbroken(labels[i]) { LabelsAreUnbroken(labels[i]); }
  }

  lemma LabelsAreUnbroken(s: string)
    ensures Label(s) <==> Unbroken(s)
  {
  }

  /** A repository is an owner and a name, joined by a slash. */
  lemma RepositoriesByHalf(owner: string, name: string)
    requires '/' !in owner && '/' !in name
    ensures Passes(Repository, owner + ['/'] + name) <==>
      && owner != "" && name != "" && Alnum(owner[0]) && Alnum(name[0])
      && (forall c | c in owner :: Dotted(c)) && (forall c | c in name :: Dotted(c))
  {
    PartBefore('/', owner, name);
    PartBefore('/', name, "");
    hide Parts;
    assert [owner] + [name] == [owner, name];
  }

  /** Null does not occur in TOML; the code takes it without complaint. */
  predicate Fits(rule: Rule, j: Json) {
    match rule
    case Integer(minimum, maximum) =>
      j.Null? || (j.Int? && minimum <= j.n && (maximum.Some? ==> j.n <= maximum.value))
    case Number(low, high) =>
      || j.Null? || (j.Int? && low <= j.n as real <= high)
      || (j.Float? && low <= j.x <= high)
    case Text(check) => j.Null? || (j.Str? && j.s != "" && Passes(check, j.s))
    case Flag => j.Null? || j.Bool?
    case FileList => ModelFiles.FilesOk(j)
    case Size => j.Null? || (j.Str? && match Sizes.ParseSize(j.s) { case Some(n) => n > 0 case None => false })
  }

  predicate Good(rule: Rule, table: Fields, key: string) {
    key in table && Fits(rule, table[key])
  }

  function IntegerOf(table: Fields, key: string): int {
    var j := Get(table, key);
    if j.Int? then j.n else 0
  }

  function NumberOf(table: Fields, key: string): real {
    var j := Get(table, key);
    if j.Int? then j.n as real else if j.Float? then j.x else 0.0
  }

  function TextOf(table: Fields, key: string): string {
    var j := Get(table, key);
    if j.Str? then j.s else ""
  }

  function FlagOf(table: Fields, key: string): bool {
    var j := Get(table, key);
    j.Bool? && j.b
  }

  function SizeOf(table: Fields, key: string): nat {
    var j := Get(table, key);
    if j.Str? && Sizes.ParseSize(j.s).Some? then Sizes.ParseSize(j.s).value else 0
  }

  type Rules = map<string, Rule>

  /** The table of a section; anything else reads as an empty one. */
  function TableOf(j: Json): Fields {
    if j.Obj? then j.fields else map[]
  }

  /** The places that have to be named for a section: bad or missing fields, and unknown ones. */
  ghost function BadPlaces(section: string, j: Json, rules: Rules): set<Place> {
    if !j.Obj? then {Place(section, "")}
    else
      BadAmong(section, j.fields, rules, rules.Keys)
      + set key | key in j.fields && key !in rules :: Place(section, key)
  }

  ghost function BadAmong(section: string, table: Fields, rules: Rules, keys: set<string>): set<Place>
    requires keys <= rules.Keys
  {
    set key | key in keys && !Good(rules[key], table, key) :: Place(section, key)
  }

  /** Nothing is bad exactly if every field is good and none is unknown. */
  lemma NothingBad(section: string, j: Json, rules: Rules)
    ensures BadPlaces(section, j, rules) == {} <==>
      j.Obj? && j.fields.Keys <= rules.Keys && forall key | key in rules :: Good(rules[key], j.fields, key)
  {
    hide Good;
    if j.Obj? && BadPlaces(section, j, rules) == {} {
      forall key | key in rules ensures Good(rules[key], j.fields, key) {
        assert !Good(rules[key], j.fields, key) ==> Place(section, key) in BadPlaces(section, j, rules);
      }
      forall key | key in j.fields ensures key in rules {
        assert key !in rules ==> Place(section, key) in BadPlaces(section, j, rules);
      }
    }
  }

  lemma BadAmongOneMore(section: string, table: Fields, rules: Rules, keys: set<string>, key: string)
    requires keys <= rules.Keys && key in rules
    ensures BadAmong(section, table, rules, keys + {key}) ==
      BadAmong(section, table, rules, keys) + if Good(rules[key], table, key) then {} else {Place(section, key)}
  {
    hide Good;
  }

  /** `_Section`. The errors always name exactly the bad fields among those read so far. */
  class Section {
    const name: string
    const errors: Errors
    const table: Fields
    const valid: bool
    var seen: set<string>
    ghost const before: set<Place>
    ghost const rules: Rules

    ghost predicate Valid()
      reads this, errors
    {
      && seen <= rules.Keys
      && (!valid ==> table == map[])
      && Named(errors.list) == before + if valid then BadAmong(name, table, rules, seen) else {}
    }

    constructor (name: string, j: Json, errors: Errors, ghost rules: Rules)
      modifies errors
      ensures Valid() && seen == {} && this.name == name && this.errors == errors && this.rules == rules
      ensures valid == j.Obj? && table == TableOf(j)
      ensures before == Named(old(errors.list)) + if valid then {} else {Place(name, "")}
    {
      this.name := name;
      this.errors := errors;
      this.rules := rules;
      seen := {};
      table := TableOf(j);
      valid := j.Obj?;
      before := Named(errors.list) + if j.Obj? then {} else {Place(name, "")};
      new;
      if j.Null? {
        errors.Add(name, "", NoSection);
      } else if !j.Obj? {
        errors.Add(name, "", NotATable);
      }
    }

    /** `_get`: the value, or Null with a problem if it is missing from a table. */
    method Look(key: string) returns (j: Json, ghost bad: bool)
      requires Valid() && key in rules
      modifies this, errors
      ensures seen == old(seen) + {key} && j == Get(table, key) && bad == (valid && key !in table)
      ensures Named(errors.list) == Named(old(errors.list)) + if bad then {Place(name, key)} else {}
    {
      seen := seen + {key};
      bad := valid && key !in table;
      j := Null;
      if key !in table {
        if valid { errors.Add(name, key, Missing); }
      } else {
        j := table[key];
      }
    }

    ghost predicate Ready(key: string, rule: Rule)
      reads this, errors
    {
      Valid() && key in rules && rules[key] == rule
    }

    /** `integer`; the maximum is optional. */
    method Integer(key: string, minimum: int, maximum: Option<int>) returns (value: int)
      requires Ready(key, Rule.Integer(minimum, maximum))
      modifies this, errors
      ensures Valid() && seen == old(seen) + {key} && value == IntegerOf(table, key)
    {
      hide Named, BadAmong;
      BadAmongOneMore(name, table, rules, seen, key);
      ghost var bad;
      var j;
      j, bad := Look(key);
      value := 0;
      if j.Int? {
        value := j.n;
        if value < minimum { errors.Add(name, key, TooSmall); }
        if maximum.Some? && value > maximum.value { errors.Add(name, key, TooLarge); }
      } else if !j.Null? {
        errors.Add(name, key, WrongType);
      }
    }

    method Number(key: string, low: real, high: real) returns (value: real)
      requires Ready(key, Rule.Number(low, high))
      modifies this, errors
      ensures Valid() && seen == old(seen) + {key} && value == NumberOf(table, key)
    {
      hide Named, BadAmong;
      BadAmongOneMore(name, table, rules, seen, key);
      ghost var bad;
      var j;
      j, bad := Look(key);
      value := 0.0;
      if j.Int? || j.Float? {
        value := if j.Int? then j.n as real else j.x;
        if !(low <= value <= high) { errors.Add(name, key, OutOfRange); }
      } else if j.NonFinite? {
        errors.Add(name, key, OutOfRange);
      } else if !j.Null? {
        errors.Add(name, key, WrongType);
      }
    }

    /** `string`. */
    method Text(key: string, check: Check) returns (value: string)
      requires Ready(key, Rule.Text(check))
      modifies this, errors
      ensures Valid() && seen == old(seen) + {key} && value == TextOf(table, key)
    {
      hide Named, BadAmong, Passes;
      BadAmongOneMore(name, table, rules, seen, key);
      ghost var bad;
      var j;
      j, bad := Look(key);
      value := "";
      if j.Str? && j.s != "" {
        value := j.s;
        if !Passes(check, value) { errors.Add(name, key, Rejected); }
      } else if !j.Null? {
        errors.Add(name, key, WrongType);
      }
    }

    /** `boolean`. */
    method Flag(key: string) returns (value: bool)
      requires Ready(key, Rule.Flag)
      modifies this, errors
      ensures Valid() && seen == old(seen) + {key} && value == FlagOf(table, key)
    {
      hide Named, BadAmong;
      BadAmongOneMore(name, table, rules, seen, key);
      ghost var bad;
      var j;
      j, bad := Look(key);
      value := j.Bool? && j.b;
      if !j.Bool? && !j.Null? { errors.Add(name, key, WrongType); }
    }

    method Size(key: string) returns (value: nat)
      requires Ready(key, Rule.Size)
      modifies this, errors
      ensures Valid() && seen == old(seen) + {key} && value == SizeOf(table, key)
    {
      hide Named, BadAmong, Sizes.ParseSize;
      BadAmongOneMore(name, table, rules, seen, key);
      ghost var bad;
      var j;
      j, bad := Look(key);
      value := 0;
      if j.Str? {
        var size := Sizes.ParseSize(j.s);
        if size.None? {
          errors.Add(name, key, NotASize);
        } else {
          value := size.value;
          if value == 0 { errors.Add(name, key, NotPositive); }
        }
      } else if !j.Null? {
        errors.Add(name, key, WrongType);
      }
    }

    /** `finish`: once every field was read, the errors name exactly what is wrong in the section. */
    method Finish(ghost start: set<Place>, ghost j: Json)
      requires Valid() && seen == rules.Keys && table == TableOf(j) && valid == j.Obj?
      requires before == start + if valid then {} else {Place(name, "")}
      modifies errors
      ensures Named(errors.list) == start + BadPlaces(name, j, rules)
    {
      var unknown := Order.Sorted(table.Keys - seen);
      ghost var known := Named(errors.list);
      for i := 0 to |unknown|
        invariant Named(errors.list) == known + set k | k in unknown[..i] :: Place(name, k)
      {
        hide Named, BadAmong, Valid;
        errors.Add(name, unknown[i], UnknownField);
        assert unknown[..i + 1] == unknown[..i] + [unknown[i]];
      }
      hide Named, BadAmong;
      assert unknown[..|unknown|] == unknown;
      assert forall k :: k in unknown <==> k in Order.Elements(unknown);
    }
  }
}
