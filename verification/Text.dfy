/** The string operations of Python that the modelled code uses. */
module Text {
  /** `str.isspace` for one character. */
  predicate IsSpace(c: char) {
    var n := c as int;
    || 9 <= n <= 13 || 28 <= n <= 32 || n == 0x85 || n == 0xA0 || n == 0x1680 || 0x2000 <= n <= 0x200A
    || n == 0x2028 || n == 0x2029 || n == 0x202F || n == 0x205F || n == 0x3000
  }

  function RStrip(s: string): (r: string)
    ensures r <= s && (r == "" || !IsSpace(r[|r| - 1]))
    ensures forall i :: |r| <= i < |s| ==> IsSpace(s[i])
  {
    if s == "" || !IsSpace(s[|s| - 1]) then s else RStrip(s[..|s| - 1])
  }

  function LStrip(s: string): (r: string)
    ensures |r| <= |s| && r == s[|s| - |r|..] && (r == "" || !IsSpace(r[0]))
    ensures forall i :: 0 <= i < |s| - |r| ==> IsSpace(s[i])
  {
    if s == "" || !IsSpace(s[0]) then s else LStrip(s[1..])
  }

  function Strip(s: string): string {
    LStrip(RStrip(s))
  }

  predicate Blank(s: string) {
    forall c :: c in s ==> IsSpace(c)
  }

  /** One more character in front of a text that is already split. */
  function Prepend(c: char, parts: seq<string>): (r: seq<string>)
    requires parts != []
    ensures r != []
  {
    if c == '\n' then [""] + parts else [[c] + parts[0]] + parts[1..]
  }

  /** `s.split("\n")`: never empty, and no part contains a newline. */
  function Split(s: string): (parts: seq<string>)
    ensures parts != [] && forall p :: p in parts ==> '\n' !in p
  {
    if s == "" then [""] else Prepend(s[0], Split(s[1..]))
  }

  function Last(parts: seq<string>): string
    requires parts != []
  {
    parts[|parts| - 1]
  }

  function Init(parts: seq<string>): seq<string>
    requires parts != []
  {
    parts[..|parts| - 1]
  }

  lemma SplitCons(c: char, s: string)
    ensures Split([c] + s) == Prepend(c, Split(s))
  {
    assert ([c] + s)[1..] == s;
  }

  lemma SplitEmpty()
    ensures Split("") == [""] && Init([""]) == []
  {
  }

  /** More text only changes the last part. */
  lemma {:induction false} SplitMore(s: string, more: string)
    ensures Split(s + more) == Init(Split(s)) + Split(Last(Split(s)) + more)
  {
    hide Split;
    if s == "" {
      SplitEmpty();
      assert s + more == more;
      assert Last(Split(s)) + more == more;
    } else {
      var c, rest := s[0], Split(s[1..]);
      assert s == [c] + s[1..] && s + more == [c] + (s[1..] + more);
      SplitCons(c, s[1..]);
      SplitCons(c, s[1..] + more);
      SplitMore(s[1..], more);
      var tail := Split(Last(rest) + more);
      assert Split(s + more) == Prepend(c, Init(rest) + tail);
      if c == '\n' {
        assert Init(Prepend(c, rest)) == [""] + Init(rest);
      } else if |rest| == 1 {
        SplitCons(c, rest[0] + more);
        assert [c] + (rest[0] + more) == [c] + rest[0] + more;
        assert Prepend(c, rest) == [[c] + rest[0]] && Init(rest) + tail == tail;
        assert Init(Prepend(c, rest)) == [];
      } else {
        assert Init(Prepend(c, rest)) == [[c] + rest[0]] + Init(rest)[1..];
        assert (Init(rest) + tail)[1..] == Init(rest)[1..] + tail;
      }
    }
  }

  lemma {:induction false} SplitLine(line: string, rest: string)
    requires '\n' !in line
    ensures Split(line + "\n" + rest) == [line] + Split(rest)
  {
    hide Split;
    if line == "" {
      assert line + "\n" + rest == ['\n'] + rest;
      SplitCons('\n', rest);
    } else {
      assert line + "\n" + rest == [line[0]] + (line[1..] + "\n" + rest);
      SplitCons(line[0], line[1..] + "\n" + rest);
      SplitLine(line[1..], rest);
      assert [line[0]] + line[1..] == line;
    }
  }

  /** `"\n".join(lines)`. */
  function Join(lines: seq<string>): string
    requires lines != []
  {
    if |lines| == 1 then lines[0] else lines[0] + "\n" + Join(lines[1..])
  }

  /** Joining and splitting are inverse on lines without newlines. */
  lemma {:induction false} SplitJoin(lines: seq<string>)
    requires lines != [] && forall l :: l in lines ==> '\n' !in l
    ensures Split(Join(lines)) == lines
  {
    assert lines[0] in lines;
    if |lines| == 1 {
      SplitWhole(lines[0]);
    } else {
      SplitJoin(lines[1..]);
      SplitLine(lines[0], Join(lines[1..]));
    }
  }

  lemma {:induction false} SplitWhole(line: string)
    requires '\n' !in line
    ensures Split(line) == [line]
  {
    if line == "" {
      SplitEmpty();
    } else {
      assert line == [line[0]] + line[1..];
      SplitWhole(line[1..]);
    }
  }

  /** Text without a newline in front only changes the first line. */
  lemma {:induction false} SplitPrefix(line: string, rest: string)
    requires '\n' !in line
    ensures Split(line + rest) == [line + Split(rest)[0]] + Split(rest)[1..]
  {
    hide Split;
    if line == "" {
      assert line + rest == rest && line + Split(rest)[0] == Split(rest)[0];
    } else {
      assert line + rest == [line[0]] + (line[1..] + rest);
      SplitCons(line[0], line[1..] + rest);
      SplitPrefix(line[1..], rest);
      assert [line[0]] + (line[1..] + Split(rest)[0]) == line + Split(rest)[0];
    }
  }

  /** If there is a newline, the first line ends before it. */
  lemma {:induction false} FirstLineIsShorter(s: string, rest: string)
    requires '\n' in s
    ensures |Split(s + rest)[0]| < |s|
    ensures Split(s + rest)[0] == s[..|Split(s + rest)[0]|]
  {
    hide Split;
    assert s + rest == [s[0]] + (s[1..] + rest);
    SplitCons(s[0], s[1..] + rest);
    if s[0] != '\n' {
      FirstLineIsShorter(s[1..], rest);
    }
  }

  // ---- Other separators ----

  /** `s.split(separator)`. */
  function Parts(separator: char, s: string): (parts: seq<string>)
    ensures parts != []
  {
    if s == "" then [""]
    else
      var rest := Parts(separator, s[1..]);
      if s[0] == separator then [""] + rest else [[s[0]] + rest[0]] + rest[1..]
  }

  lemma OnePartIsEmpty(separator: char, s: string)
    ensures Parts(separator, s) == [""] <==> s == ""
  {
    if s != "" {
      var p := Parts(separator, s);
      assert s[0] == separator ==> |p| >= 2;
      assert s[0] != separator ==> p[0] != "";
    }
  }

  /** Different strings split differently. */
  lemma {:induction false} PartsAreUnique(separator: char, a: string, b: string)
    requires Parts(separator, a) == Parts(separator, b)
    ensures a == b
  {
    OnePartIsEmpty(separator, a);
    OnePartIsEmpty(separator, b);
    if a != "" && b != "" {
      var p, q := Parts(separator, a), Parts(separator, b);
      var restA, restB := Parts(separator, a[1..]), Parts(separator, b[1..]);
      if a[0] == separator {
        assert p[0] == "" && q[0] == "" && b[0] == separator;
        assert restA == p[1..] && restB == q[1..];
      } else {
        assert p[0] != "" && b[0] != separator;
        assert restA[0] == p[0][1..] && restB[0] == q[0][1..];
        assert restA == [restA[0]] + p[1..] && restB == [restB[0]] + q[1..];
        assert a[0] == p[0][0] == q[0][0] == b[0];
      }
      PartsAreUnique(separator, a[1..], b[1..]);
      assert a == [a[0]] + a[1..] && b == [b[0]] + b[1..];
    }
  }

  /** `separator.join(parts)`. */
  function Glued(separator: char, parts: seq<string>): string
    requires parts != []
  {
    if |parts| == 1 then parts[0] else parts[0] + [separator] + Glued(separator, parts[1..])
  }

  /** Splitting takes out every separator and nothing else: the parts have none, and joined they are the string. */
  lemma {:induction false} PartsAreAll(separator: char, s: string)
    ensures Glued(separator, Parts(separator, s)) == s
    ensures forall part | part in Parts(separator, s) :: separator !in part
  {
    if s != "" {
      var rest, parts := Parts(separator, s[1..]), Parts(separator, s);
      PartsAreAll(separator, s[1..]);
      assert s == [s[0]] + s[1..];
      if s[0] == separator {
        assert parts[1..] == rest;
      } else {
        assert rest[0] in rest && forall part | part in rest[1..] :: part in rest;
        assert parts == [[s[0]] + rest[0]] + rest[1..];
        if |rest| > 1 {
          assert parts[1..] == rest[1..];
          assert [s[0]] + (rest[0] + [separator] + Glued(separator, rest[1..])) == [s[0]] + rest[0] + [separator] + Glued(separator, rest[1..]);
        }
      }
    }
  }

  /** Stripping takes blanks from both ends and nothing else. */
  lemma StripIsInside(s: string) returns (i: nat, j: nat)
    ensures i <= j <= |s| && s[i..j] == Strip(s)
    ensures (forall k :: 0 <= k < i ==> IsSpace(s[k])) && (forall k :: j <= k < |s| ==> IsSpace(s[k]))
    ensures i < j ==> !IsSpace(s[i]) && !IsSpace(s[j - 1])
  {
    hide IsSpace, LStrip, RStrip;
    var right := RStrip(s);
    var r := LStrip(right);
    i, j := |right| - |r|, |right|;
    assert right == s[..j] && s[i..j] == right[i..];
    if i < j { assert r[0] == s[i] && right[|right| - 1] == s[j - 1]; }
  }

  lemma {:induction false} PartBefore(separator: char, part: string, rest: string)
    requires separator !in part
    ensures Parts(separator, part + [separator] + rest) == [part] + Parts(separator, rest)
    ensures Parts(separator, part) == [part]
  {
    var s := part + [separator] + rest;
    if part == "" {
      assert s[1..] == rest;
    } else {
      assert s[1..] == part[1..] + [separator] + rest && s[0] == part[0] && part[0] in part;
      PartBefore(separator, part[1..], rest);
      assert [part[0]] + part[1..] == part;
    }
  }

  /** Joining and splitting are inverse on parts that do not have the separator. */
  lemma {:induction false} PartsOfGlued(separator: char, parts: seq<string>)
    requires parts != [] && forall part | part in parts :: separator !in part
    ensures Parts(separator, Glued(separator, parts)) == parts
  {
    assert parts[0] in parts;
    PartBefore(separator, parts[0], if |parts| == 1 then "" else Glued(separator, parts[1..]));
    if |parts| > 1 {
      PartsOfGlued(separator, parts[1..]);
      assert parts == [parts[0]] + parts[1..];
    }
  }
}
