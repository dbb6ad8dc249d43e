/** Basic strings of TOML v1.0.0 (section "String"), without \u escapes, and how the code prints them. */
module Toml {
  import opened Wrappers

  /** Characters a basic string may not contain unescaped; tab is allowed. */
  predicate Control(c: char) {
    var n := c as int;
    (n < 0x20 && n != 9) || n == 0x7F
  }

  function Unescaped(c: char): Option<char> {
    match c
    case '"' => Some('"')
    case '\\' => Some('\\')
    case 'b' => Some(8 as char)
    case 't' => Some('\t')
    case 'n' => Some('\n')
    case 'f' => Some(12 as char)
    case 'r' => Some('\r')
    case _ => None
  }

  datatype Parsed = Parsed(value: string, rest: string)

  /** The rest of a basic string after its opening quote, and what follows it. */
  function Chars(s: string): (r: Option<Parsed>)
    ensures r.Some? ==> |r.value.value| + 1 + |r.value.rest| <= |s|
  {
    if s == "" || Control(s[0]) then None
    else if s[0] == '"' then Some(Parsed("", s[1..]))
    else if s[0] == '\\' then
      if |s| < 2 || Unescaped(s[1]).None? then None
      else match Chars(s[2..]) {
        case None => None
        case Some(p) => Some(Parsed([Unescaped(s[1]).value] + p.value, p.rest))
      }
    else match Chars(s[1..]) {
      case None => None
      case Some(p) => Some(Parsed([s[0]] + p.value, p.rest))
    }
  }

  function BasicString(s: string): Option<Parsed> {
    if s != "" && s[0] == '"' then Chars(s[1..]) else None
  }

  function EscapedChar(c: char): string {
    if c == '\\' then "\\\\" else if c == '"' then "\\\"" else [c]
  }

  /** `value.replace("\\", "\\\\").replace('"', '\\"')`. */
  function Escape(value: string): string {
    if value == "" then "" else EscapedChar(value[0]) + Escape(value[1..])
  }

  /** `_toml_string`. */
  function TomlString(value: string): string {
    "\"" + Escape(value) + "\""
  }

  ghost predicate ControlFree(value: string) {
    forall c :: c in value ==> !Control(c)
  }

  /** A string that can stand between quotes as it is. */
  ghost predicate Plain(value: string) {
    forall c :: c in value ==> !Control(c) && c != '"' && c != '\\'
  }

  lemma ControlFreeCons(value: string)
    requires value != ""
    ensures ControlFree(value) <==> !Control(value[0]) && ControlFree(value[1..])
  {
    assert forall d :: d in value <==> d == value[0] || d in value[1..];
  }

  /** One character of the original, escaped or not, is read back unless it is a control character. */
  lemma CharReadsBack(c: char, tail: string)
    ensures Control(c) ==> Chars(EscapedChar(c) + tail).None?
    ensures !Control(c) ==>
      Chars(EscapedChar(c) + tail) ==
      match Chars(tail) { case None => None case Some(p) => Some(Parsed([c] + p.value, p.rest)) }
  {
    var text := EscapedChar(c) + tail;
    if c == '\\' || c == '"' {
      assert text[2..] == tail;
    } else {
      assert text[1..] == tail;
    }
  }

  /** The characters of an escaped string are read back, unless there is a control character. */
  lemma {:induction false} EscapeReadsBack(value: string, rest: string)
    ensures Chars(Escape(value) + "\"" + rest) == if ControlFree(value) then Some(Parsed(value, rest)) else None
  {
    var text := Escape(value) + "\"" + rest;
    if value == "" {
      assert text == ['"'] + rest;
      assert text[1..] == rest;
    } else {
      hide Chars, EscapedChar, Control, ControlFree;
      EscapeReadsBack(value[1..], rest);
      ControlFreeCons(value);
      var c, tail := value[0], Escape(value[1..]) + "\"" + rest;
      assert text == EscapedChar(c) + tail;
      CharReadsBack(c, tail);
      assert value == [c] + value[1..];
      if Chars(tail).Some? {
        var p := Chars(tail).value;
        assert ([c] + p.value)[1..] == p.value;
      }
    }
  }

  /**
   * `_toml_string` and reading a basic string are inverse on the strings without control
   * characters. Those it does not escape, and no string with one of them can be read.
   */
  lemma TomlStringRoundTrips(value: string, rest: string)
    ensures BasicString(TomlString(value) + rest) == if ControlFree(value) then Some(Parsed(value, rest)) else None
  {
    EscapeReadsBack(value, rest);
    assert (TomlString(value) + rest)[1..] == Escape(value) + "\"" + rest;
  }

  /** Printed between quotes without escaping, exactly the plain strings are read back. */
  lemma {:induction false} PlainReadsBack(value: string, rest: string)
    ensures Chars(value + "\"" + rest) == Some(Parsed(value, rest)) <==> Plain(value)
  {
    var text := value + "\"" + rest;
    if value == "" {
      assert text == ['"'] + rest;
      assert text[1..] == rest;
    } else {
      var c, tail := value[0], value[1..] + "\"" + rest;
      assert text == [c] + tail && text[1..] == tail;
      PlainReadsBack(value[1..], rest);
      assert value == [c] + value[1..];
      if c == '\\' {
        BackslashChanges(value, rest);
        assert c in value && !Plain(value);
      } else {
        assert Plain(value) <==> !Control(c) && c != '"' && Plain(value[1..]) by {
          assert forall d :: d in value <==> d == c || d in value[1..];
        }
      }
    }
  }

  /** A backslash is never read back as itself: the escape takes one character more. */
  lemma BackslashChanges(value: string, rest: string)
    requires value != "" && value[0] == '\\'
    ensures Chars(value + "\"" + rest) != Some(Parsed(value, rest))
  {
    var text := value + "\"" + rest;
    assert |text[2..]| == |value| + |rest| - 1;
    assert forall a: char, v: string :: |[a] + v| == |v| + 1;
  }
}
