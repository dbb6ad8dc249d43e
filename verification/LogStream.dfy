/** `_LogStream`: a text stream that logs each complete line. */
module LogStream {
  import opened Text

  /** The lines that are logged: those that are not blank, without trailing white space. */
  function Records(lines: seq<string>): seq<string> {
    if lines == [] then []
    else Records(Init(lines)) + if Blank(Last(lines)) then [] else [RStrip(Last(lines))]
  }

  class LogStream {
    var buffer: string
    var logged: seq<string>

    constructor ()
      ensures buffer == "" && logged == []
    {
      buffer, logged := "", [];
    }

    method Log(line: string)
      modifies this`logged
      ensures logged == old(logged) + Records([line])
    {
      assert Init([line]) == [] && Last([line]) == line;
      if exists c :: c in line && !IsSpace(c) {
        logged := logged + [RStrip(line)];
      }
    }

    method Write(text: string) returns (n: nat)
      modifies this
      ensures n == |text|
      ensures State() == Written(old(State()), text)
    {
      buffer := buffer + text;
      var parts := Split(buffer);
      buffer := Last(parts);
      var lines := Init(parts);
      ghost var before := logged;
      for i := 0 to |lines|
        invariant logged == before + Records(lines[..i]) && buffer == Last(parts)
      {
        Log(lines[i]);
        assert Init(lines[..i + 1]) == lines[..i] && Last(lines[..i + 1]) == lines[i];
        assert Init([lines[i]]) == [];
      }
      assert lines[..|lines|] == lines;
      n := |text|;
    }

    method Flush()
      modifies this
      ensures State() == Flushed(old(State()))
    {
      var rest := buffer;
      buffer := "";
      Log(rest);
    }

    function State(): Stream
      reads this
    {
      Stream(buffer, logged)
    }
  }

  datatype Stream = Stream(buffer: string, logged: seq<string>)

  function Written(s: Stream, text: string): Stream {
    var parts := Split(s.buffer + text);
    Stream(Last(parts), s.logged + Records(Init(parts)))
  }

  function Flushed(s: Stream): Stream {
    Stream("", s.logged + Records([s.buffer]))
  }

  function WrittenAll(s: Stream, texts: seq<string>): Stream
    decreases |texts|
  {
    if texts == [] then s else WrittenAll(Written(s, texts[0]), texts[1..])
  }

  function Joined(texts: seq<string>): string {
    if texts == [] then "" else texts[0] + Joined(texts[1..])
  }

  lemma {:induction false} RecordsAppend(a: seq<string>, b: seq<string>)
    ensures Records(a + b) == Records(a) + Records(b)
  {
    if b == [] {
      assert a + b == a;
    } else {
      assert Init(a + b) == a + Init(b) && Last(a + b) == Last(b);
      RecordsAppend(a, Init(b));
    }
  }

  /** A line that is not blank is logged up to its last character that is no blank. */
  lemma OneRecord(line: string)
    ensures Blank(line) <==> Records([line]) == []
    ensures !Blank(line) ==>
      exists n: nat :: 0 < n <= |line| && Records([line]) == [line[..n]] && !IsSpace(line[n - 1])
        && forall i :: n <= i < |line| ==> IsSpace(line[i])
  {
    assert Init([line]) == [] && Last([line]) == line;
    assert Records([line]) == if Blank(line) then [] else [RStrip(line)];
    if RStrip(line) == "" { NothingButBlanks(line); }
    if !Blank(line) {
      var n := |RStrip(line)|;
      assert line[..n] == RStrip(line);
      hide IsSpace;
    }
  }

  lemma NothingButBlanks(line: string)
    requires RStrip(line) == ""
    ensures Blank(line)
  {
    forall c | c in line ensures IsSpace(c) { var i :| 0 <= i < |line| && line[i] == c; }
  }

  /** One write after another is one write of both. */
  lemma WritesMerge(text: string, more: string)
    ensures Written(Written(Stream("", []), text), more) == Written(Stream("", []), text + more)
  {
    assert "" + text == text && "" + (text + more) == text + more;
    SplitMore(text, more);
    var a, b := Init(Split(text)), Split(Last(Split(text)) + more);
    assert Init(a + b) == a + Init(b) && Last(a + b) == Last(b);
    RecordsAppend(a, Init(b));
  }

  lemma {:induction false} WritesJoin(text: string, texts: seq<string>)
    ensures WrittenAll(Written(Stream("", []), text), texts) == Written(Stream("", []), text + Joined(texts))
    decreases |texts|
  {
    hide Written;
    if texts == [] {
      assert text + Joined(texts) == text;
    } else {
      WritesMerge(text, texts[0]);
      assert text + texts[0] + Joined(texts[1..]) == text + Joined(texts);
      WritesJoin(text + texts[0], texts[1..]);
    }
  }

  /**
   * However a text is cut into writes, one flush at the end leaves exactly its lines logged,
   * in order, blank ones left out and the others right-stripped.
   */
  lemma CutDoesNotMatter(texts: seq<string>)
    ensures Flushed(WrittenAll(Stream("", []), texts)) == Stream("", Records(Split(Joined(texts))))
  {
    hide Split, Records;
    NothingWritten();
    WritesJoin("", texts);
    var all := Joined(texts);
    assert "" + all == all;
    var parts := Split(all);
    assert parts == Init(parts) + [Last(parts)];
    RecordsAppend(Init(parts), [Last(parts)]);
  }

  lemma NothingWritten()
    ensures Written(Stream("", []), "") == Stream("", [])
  {
    SplitEmpty();
    assert "" + "" == "";
  }
}
