/**
 * Reading an event stream (section 9.2.6 of the WHATWG HTML standard), and what the
 * gateway writes into one: events and keep-alive comments.
 */
module Sse {
  import opened Wrappers
  import opened Text

  /** The data lines of the event being read, joined, and the events dispatched so far. */
  datatype Reader = Reader(data: Option<string>, events: seq<string>)

  function Value(field: string): string {
    if field != "" && field[0] == ' ' then field[1..] else field
  }

  /** One complete line: blank dispatches, a colon starts a comment, other fields are ignored. */
  function ReadLine(r: Reader, line: string): Reader {
    if line == "" then
      Reader(None, if r.data.Some? then r.events + [r.data.value] else r.events)
    else if line[0] == ':' then r
    else if |line| >= 5 && line[..5] == "data:" then
      var v := Value(line[5..]);
      r.(data := Some(if r.data.Some? then r.data.value + "\n" + v else v))
    else r
  }

  function ReadLines(lines: seq<string>): Reader {
    if lines == [] then Reader(None, []) else ReadLine(ReadLines(Init(lines)), Last(lines))
  }

  /** Lines end at a line feed, a carriage return, or both; here each end becomes a line feed. */
  function LineEnds(body: string): string {
    if body == "" then ""
    else if body[0] == '\r' then "\n" + LineEnds(if |body| > 1 && body[1] == '\n' then body[2..] else body[1..])
    else [body[0]] + LineEnds(body[1..])
  }

  /** The events in a body, as far as its lines are complete. */
  function Events(body: string): seq<string> {
    ReadLines(Init(Split(LineEnds(body)))).events
  }

  lemma {:induction false} OnlyLineFeeds(body: string)
    requires '\r' !in body
    ensures LineEnds(body) == body
  {
    if body != "" {
      assert body[0] in body;
      OnlyLineFeeds(body[1..]);
    }
  }

  datatype Piece = KeepAlive | Data(payload: string)

  function Line(p: Piece): string {
    if p.KeepAlive? then ": keep-alive" else "data: " + p.payload
  }

  function Render(p: Piece): string {
    Line(p) + "\n\n"
  }

  function Body(pieces: seq<Piece>): string {
    if pieces == [] then "" else Body(pieces[..|pieces| - 1]) + Render(pieces[|pieces| - 1])
  }

  function Payloads(pieces: seq<Piece>): seq<string> {
    if pieces == [] then []
    else
      var last := pieces[|pieces| - 1];
      Payloads(pieces[..|pieces| - 1]) + if last.Data? then [last.payload] else []
  }

  ghost predicate OneLine(pieces: seq<Piece>) {
    forall p :: p in pieces && p.Data? ==> '\n' !in p.payload && '\r' !in p.payload
  }

  lemma SplitRendered(p: Piece)
    requires p.Data? ==> '\n' !in p.payload
    ensures Split(Render(p)) == [Line(p), "", ""]
  {
    hide Split;
    SplitEmpty();
    SplitLine("", "");
    assert "" + "\n" + "" == "\n";
    SplitLine(Line(p), "\n");
    assert Line(p) + "\n" + "\n" == Render(p);
    assert [Line(p)] + ([""] + [""]) == [Line(p), "", ""];
  }

  lemma ReadTwo(lines: seq<string>, a: string, b: string)
    ensures ReadLines(lines + [a, b]) == ReadLine(ReadLine(ReadLines(lines), a), b)
  {
    var more := lines + [a, b];
    assert Init(more) == lines + [a] && Init(lines + [a]) == lines;
  }

  /** A rendered piece is read as one event, or as nothing. */
  lemma ReadsPiece(r: Reader, p: Piece)
    requires r.data.None?
    ensures ReadLine(ReadLine(r, Line(p)), "") == Reader(None, r.events + if p.Data? then [p.payload] else [])
  {
    if p.Data? {
      assert Line(p)[..5] == "data:" && Line(p)[5..] == " " + p.payload;
    }
  }

  lemma {:induction false} NoReturns(pieces: seq<Piece>)
    requires OneLine(pieces)
    ensures '\r' !in Body(pieces)
  {
    if pieces != [] {
      var before, p := pieces[..|pieces| - 1], pieces[|pieces| - 1];
      assert p in pieces;
      NoReturns(before);
      assert '\r' !in Line(p);
    }
  }

  /**
   * A client reads exactly the payloads that were sent, in order, wherever keep-alive
   * comments stand between them.
   */
  lemma BodyReadsAsPayloads(pieces: seq<Piece>)
    requires OneLine(pieces)
    ensures Events(Body(pieces)) == Payloads(pieces)
  {
    NoReturns(pieces);
    OnlyLineFeeds(Body(pieces));
    BodyHasTheLines(pieces);
  }

  lemma {:induction false} BodyHasTheLines(pieces: seq<Piece>)
    requires OneLine(pieces)
    ensures ReadLines(Init(Split(Body(pieces)))).events == Payloads(pieces)
    ensures Last(Split(Body(pieces))) == "" && ReadLines(Init(Split(Body(pieces)))).data.None?
  {
    hide Split, ReadLine, Line, Render;
    if pieces == [] {
      SplitEmpty();
    } else {
      hide ReadLines;
      var before, p := pieces[..|pieces| - 1], pieces[|pieces| - 1];
      assert p in pieces;
      BodyHasTheLines(before);
      var lines := Init(Split(Body(before)));
      SplitMore(Body(before), Render(p));
      assert "" + Render(p) == Render(p);
      SplitRendered(p);
      assert Init(lines + [Line(p), "", ""]) == lines + [Line(p), ""];
      ReadTwo(lines, Line(p), "");
      ReadsPiece(ReadLines(lines), p);
    }
  }
}
