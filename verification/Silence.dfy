/**
 * How long the connection can stay silent: the consumer of `_with_heartbeats` with a clock.
 * `wait_for` starts a new wait after every entry it gets, also after one that is filtered.
 */
module Silence {
  import opened Wrappers
  import opened Json
  import opened Chunks
  import opened Sse
  import opened Heartbeats

  /** `waited`: since the current wait began; `silent`: since the body last grew. */
  datatype Timed = Timed(state: State, waited: nat, silent: nat)

  datatype TimedEvent = Tick | Step(e: Event)

  function Begin(chunks: seq<Json>, final: Final): Timed {
    Timed(Start(chunks, final), 0, 0)
  }

  /** Time passes up to the end of the wait, and only there the wait times out. */
  function TimedNext(t: Timed, e: TimedEvent, interval: nat, show: Show, dump: Dump): Option<Timed> {
    match e
    case Tick =>
      if t.state.consumer.Serving? && t.waited < interval then
        Some(t.(waited := t.waited + 1, silent := t.silent + 1))
      else None
    case Step(e) =>
      if Next(t.state, e, show, dump).None? || (e.Timeout? && t.waited != interval) then None
      else
        var state := Do(t.state, e, show, dump);
        Some(Timed(
          state,
          if e.Timeout? || e.Take? then 0 else t.waited,
          if state.body != t.state.body then 0 else t.silent))
  }

  function TimedDo(t: Timed, e: TimedEvent, interval: nat, show: Show, dump: Dump): Timed {
    var next := TimedNext(t, e, interval, show, dump);
    if next.Some? then next.value else t
  }

  function TimedRun(t: Timed, events: seq<TimedEvent>, interval: nat, show: Show, dump: Dump): Timed
    decreases |events|
  {
    if events == [] then t else TimedRun(TimedDo(t, events[0], interval, show, dump), events[1..], interval, show, dump)
  }

  /** Every run against the clock is a run of the consumer, so all that was proved of those holds. */
  lemma {:induction false} TimedRunsAreRuns(t: Timed, timed: seq<TimedEvent>, interval: nat, show: Show, dump: Dump)
      returns (events: seq<Event>)
    ensures TimedRun(t, timed, interval, show, dump).state == Run(t.state, events, show, dump)
    decreases |timed|
  {
    hide Next, Do;
    if timed == [] {
      events := [];
    } else {
      var next := TimedDo(t, timed[0], interval, show, dump);
      var rest := TimedRunsAreRuns(next, timed[1..], interval, show, dump);
      if next.state == t.state {
        events := rest;
      } else {
        events := [timed[0].e] + rest;
        assert events[1..] == rest;
      }
    }
  }

  // --- filtered chunks in a row ---

  /** How many chunks at the end of the list are not shown. */
  function QuietEnd(chunks: seq<Json>, show: Show): nat {
    if chunks == [] || show(chunks[|chunks| - 1]).Some? then 0
    else 1 + QuietEnd(chunks[..|chunks| - 1], show)
  }

  /** The longest run of chunks in a row that are not shown. */
  function LongestQuiet(chunks: seq<Json>, show: Show): nat {
    if chunks == [] then 0
    else
      var before, here := LongestQuiet(chunks[..|chunks| - 1], show), QuietEnd(chunks, show);
      if before < here then here else before
  }

  lemma {:induction false} QuietIsWithinLongest(chunks: seq<Json>, show: Show, n: nat)
    requires n <= |chunks|
    ensures QuietEnd(chunks[..n], show) <= LongestQuiet(chunks, show)
  {
    if n == |chunks| {
      assert chunks[..n] == chunks;
    } else {
      var before := chunks[..|chunks| - 1];
      assert before[..n] == chunks[..n];
      QuietIsWithinLongest(before, show, n);
    }
  }

  lemma {:induction false} LongestIsSomewhere(chunks: seq<Json>, show: Show) returns (n: nat)
    ensures n <= |chunks| && QuietEnd(chunks[..n], show) == LongestQuiet(chunks, show)
  {
    if chunks == [] {
      n := 0;
    } else if LongestQuiet(chunks, show) == QuietEnd(chunks, show) {
      n := |chunks|;
      assert chunks[..n] == chunks;
    } else {
      var before := chunks[..|chunks| - 1];
      n := LongestIsSomewhere(before, show);
      assert before[..n] == chunks[..n];
    }
  }

  // --- the bound ---

  /** After `taken` chunks: the filtered ones just before and the current wait explain the silence. */
  ghost predicate WithinQuiet(t: Timed, chunks: seq<Json>, final: Final, taken: nat, interval: nat, show: Show) {
    && taken <= |chunks| && t.waited <= interval
    && (t.state.consumer.Serving? ==> Coming(t.state) == ToItems(chunks[taken..]) + [End(final)])
    && t.silent <= interval * QuietEnd(chunks[..taken], show) + (if t.state.consumer.Serving? then t.waited else interval)
  }

  /** The entry taken is the first one coming; the others are still to come. */
  lemma TakeMoves(t: Timed, interval: nat, show: Show, dump: Dump)
    requires TimedNext(t, Step(Take), interval, show, dump).Some?
    ensures var next := TimedDo(t, Step(Take), interval, show, dump);
      && t.state.consumer.Serving? && t.state.buffer != []
      && Coming(t.state) == [t.state.buffer[0]] + Coming(next.state)
      && Coming(t.state)[1..] == Coming(next.state) && next.waited == 0
      && next.silent == (if Shown(t.state.buffer[0], show, dump) != [] then 0 else t.silent)
      && (t.state.buffer[0].End? ==> !next.state.consumer.Serving?)
  {
    var next, item := TimedDo(t, Step(Take), interval, show, dump), t.state.buffer[0];
    assert t.state.buffer == [item] + t.state.buffer[1..];
    assert Coming(t.state) == [item] + Coming(next.state);
  }

  lemma TakeOne(t: Timed, chunks: seq<Json>, final: Final, taken: nat, interval: nat, show: Show, dump: Dump)
      returns (after: nat)
    requires WithinQuiet(t, chunks, final, taken, interval, show)
    requires TimedNext(t, Step(Take), interval, show, dump).Some?
    ensures WithinQuiet(TimedDo(t, Step(Take), interval, show, dump), chunks, final, after, interval, show)
  {
    hide Coming, TimedDo, TimedNext;
    TakeMoves(t, interval, show, dump);
    var next, item := TimedDo(t, Step(Take), interval, show, dump), t.state.buffer[0];
    assert item == Coming(t.state)[0];
    if taken == |chunks| {
      assert ToItems(chunks[taken..]) == [];
      assert item == End(final);
      after := taken;
    } else {
      after := taken + 1;
      assert item == Chunk(chunks[taken]);
      assert Coming(next.state) == ToItems(chunks[after..]) + [End(final)];
      assert chunks[..after][..taken] == chunks[..taken];
      var quiet := QuietEnd(chunks[..taken], show);
      if show(chunks[taken]).None? {
        assert QuietEnd(chunks[..after], show) == quiet + 1;
        assert interval * (quiet + 1) == interval * quiet + interval;
      }
    }
  }

  lemma StepStaysWithin(t: Timed, e: TimedEvent, chunks: seq<Json>, final: Final, taken: nat, interval: nat, show: Show, dump: Dump)
      returns (after: nat)
    requires WithinQuiet(t, chunks, final, taken, interval, show)
    ensures WithinQuiet(TimedDo(t, e, interval, show, dump), chunks, final, after, interval, show)
  {
    hide Coming, ToItems, QuietEnd, Shown;
    after := taken;
    if TimedNext(t, e, interval, show, dump).Some? {
      var q := interval * QuietEnd(chunks[..taken], show);
      assert q >= 0;
      match e
      case Tick =>
      case Step(e) =>
        match e
        case Take => after := TakeOne(t, chunks, final, taken, interval, show, dump);
        case Produce => ProduceMoves(t.state, show, dump);
        case Timeout => SameComing(t.state, t.state.(body := t.state.body + [KeepAlive]));
        case Stop =>
    }
  }

  lemma WithinIsBounded(t: Timed, chunks: seq<Json>, final: Final, taken: nat, interval: nat, show: Show)
    requires WithinQuiet(t, chunks, final, taken, interval, show)
    ensures t.silent <= interval * (1 + LongestQuiet(chunks, show))
  {
    hide Coming, ToItems, LongestQuiet, QuietEnd;
    QuietIsWithinLongest(chunks, show, taken);
    var q, longest := QuietEnd(chunks[..taken], show), LongestQuiet(chunks, show);
    assert interval * q <= interval * longest;
    assert interval * (1 + longest) == interval + interval * longest;
  }

  lemma {:induction false} RunStaysWithin(t: Timed, events: seq<TimedEvent>, chunks: seq<Json>, final: Final, taken: nat, interval: nat, show: Show, dump: Dump)
    requires WithinQuiet(t, chunks, final, taken, interval, show)
    ensures TimedRun(t, events, interval, show, dump).silent <= interval * (1 + LongestQuiet(chunks, show))
    decreases |events|
  {
    hide WithinQuiet, TimedDo, LongestQuiet;
    if events == [] {
      WithinIsBounded(t, chunks, final, taken, interval, show);
    } else {
      var after := StepStaysWithin(t, events[0], chunks, final, taken, interval, show, dump);
      RunStaysWithin(TimedDo(t, events[0], interval, show, dump), events[1..], chunks, final, after, interval, show, dump);
    }
  }

  /** The connection is never silent for longer than one interval for each filtered chunk in a row, plus one. */
  lemma SilenceIsBounded(chunks: seq<Json>, final: Final, events: seq<TimedEvent>, interval: nat, show: Show, dump: Dump)
    ensures TimedRun(Begin(chunks, final), events, interval, show, dump).silent <= interval * (1 + LongestQuiet(chunks, show))
  {
    assert chunks[0..] == chunks && chunks[..0] == [];
    RunStaysWithin(Begin(chunks, final), events, chunks, final, 0, interval, show, dump);
  }

  // --- the bound is reached ---

  /** The consumer has taken `taken` chunks and waits for the next one, with nothing in the buffer. */
  ghost predicate At(t: Timed, chunks: seq<Json>, taken: nat, waited: nat, silent: nat) {
    && taken <= |chunks| && t.state.consumer.Serving? && t.state.buffer == []
    && t.state.source == chunks[taken..] && t.state.final.Some?
    && t.waited == waited && t.silent == silent
  }

  lemma TimedAppend(t: Timed, a: seq<TimedEvent>, b: seq<TimedEvent>, interval: nat, show: Show, dump: Dump)
    ensures TimedRun(t, a + b, interval, show, dump)
      == TimedRun(TimedRun(t, a, interval, show, dump), b, interval, show, dump)
    decreases |a|
  {
    hide TimedDo;
    if a == [] {
      assert a + b == b;
    } else {
      assert (a + b)[1..] == a[1..] + b;
      TimedAppend(TimedDo(t, a[0], interval, show, dump), a[1..], b, interval, show, dump);
    }
  }

  lemma {:induction false} WaitFor(t: Timed, chunks: seq<Json>, taken: nat, silent: nat, time: nat, interval: nat, show: Show, dump: Dump)
      returns (events: seq<TimedEvent>)
    requires At(t, chunks, taken, 0, silent) && time <= interval
    ensures At(TimedRun(t, events, interval, show, dump), chunks, taken, time, silent + time)
  {
    if time == 0 {
      events := [];
    } else {
      var before := WaitFor(t, chunks, taken, silent, time - 1, interval, show, dump);
      TimedAppend(t, before, [Tick], interval, show, dump);
      events := before + [Tick];
    }
  }

  /** One chunk comes after `time` and is taken at once. */
  lemma TakeAfter(t: Timed, chunks: seq<Json>, taken: nat, silent: nat, time: nat, interval: nat, show: Show, dump: Dump)
      returns (events: seq<TimedEvent>)
    requires At(t, chunks, taken, 0, silent) && time <= interval && taken < |chunks|
    ensures At(TimedRun(t, events, interval, show, dump), chunks, taken + 1, 0,
               if show(chunks[taken]).Some? then 0 else silent + time)
  {
    var wait := WaitFor(t, chunks, taken, silent, time, interval, show, dump);
    var s := TimedRun(t, wait, interval, show, dump);
    events := wait + [Step(Produce), Step(Take)];
    TimedAppend(t, wait, [Step(Produce), Step(Take)], interval, show, dump);
    var put := TimedDo(s, Step(Produce), interval, show, dump);
    assert put.state.buffer == [Chunk(chunks[taken])] && put.state.source == chunks[taken + 1..];
    assert [Step(Produce), Step(Take)][1..] == [Step(Take)];
    assert TimedRun(put, [Step(Take)], interval, show, dump) == TimedDo(put, Step(Take), interval, show, dump);
  }

  /** All chunks come as late as they can, so that silence builds up over those that are filtered. */
  lemma {:induction false} TakeAll(chunks: seq<Json>, final: Final, taken: nat, interval: nat, show: Show, dump: Dump)
      returns (events: seq<TimedEvent>)
    requires taken <= |chunks|
    ensures At(TimedRun(Begin(chunks, final), events, interval, show, dump), chunks, taken, 0,
               interval * QuietEnd(chunks[..taken], show))
  {
    var begin := Begin(chunks, final);
    if taken == 0 {
      events := [];
      assert chunks[0..] == chunks;
    } else {
      var n := taken - 1;
      var before := TakeAll(chunks, final, n, interval, show, dump);
      var quiet := QuietEnd(chunks[..n], show);
      var s := TimedRun(begin, before, interval, show, dump);
      var one := TakeAfter(s, chunks, n, interval * quiet, interval, interval, show, dump);
      TimedAppend(begin, before, one, interval, show, dump);
      events := before + one;
      assert chunks[..taken][..n] == chunks[..n];
      assert interval * (quiet + 1) == interval * quiet + interval;
    }
  }

  /** And for that long it can be silent, whatever the chunks are. */
  lemma SilenceIsReached(chunks: seq<Json>, final: Final, interval: nat, show: Show, dump: Dump)
      returns (events: seq<TimedEvent>)
    ensures TimedRun(Begin(chunks, final), events, interval, show, dump).silent == interval * (1 + LongestQuiet(chunks, show))
  {
    hide TimedRun, LongestQuiet, QuietEnd;
    var begin := Begin(chunks, final);
    var n := LongestIsSomewhere(chunks, show);
    var q := LongestQuiet(chunks, show);
    var before := TakeAll(chunks, final, n, interval, show, dump);
    var s := TimedRun(begin, before, interval, show, dump);
    var last := WaitFor(s, chunks, n, interval * q, interval, interval, show, dump);
    TimedAppend(begin, before, last, interval, show, dump);
    events := before + last;
    assert interval * (1 + q) == interval * q + interval;
  }

  // --- in time ---

  lemma {:induction false} NothingQuiet(chunks: seq<Json>, show: Show)
    ensures LongestQuiet(chunks, show) == 0 <==> forall c | c in chunks :: show(c).Some?
  {
    if chunks != [] {
      var before, last := chunks[..|chunks| - 1], chunks[|chunks| - 1];
      NothingQuiet(before, show);
      assert forall c :: c in chunks <==> c in before || c == last;
    }
  }

  ghost predicate AlwaysInTime(chunks: seq<Json>, final: Final, interval: nat, show: Show, dump: Dump) {
    forall events :: TimedRun(Begin(chunks, final), events, interval, show, dump).silent <= interval
  }

  /**
   * The promise of a byte in every interval is kept in all runs if and only if no chunk is
   * filtered: `_stream` shows all but those that only report usage nobody asked for.
   */
  lemma InTimeIffNothingIsFiltered(
      chunks: seq<Json>, final: Final, interval: nat, show: Show, dump: Dump, model: string, includeUsage: bool)
    requires interval > 0 && AllWellFormed(chunks) && ShowsForwarded(show, dump, model, includeUsage)
    ensures AlwaysInTime(chunks, final, interval, show, dump)
      <==> forall c | c in chunks :: c.Obj? && !Filtered(c, includeUsage)
  {
    hide LongestQuiet, TimedRun, Filtered, PublicChunk;
    NothingQuiet(chunks, show);
    assert (forall c | c in chunks :: show(c).Some?) <==> forall c | c in chunks :: c.Obj? && !Filtered(c, includeUsage);
    var longest := LongestQuiet(chunks, show);
    if longest == 0 {
      forall events ensures TimedRun(Begin(chunks, final), events, interval, show, dump).silent <= interval {
        SilenceIsBounded(chunks, final, events, interval, show, dump);
      }
    } else {
      var events := SilenceIsReached(chunks, final, interval, show, dump);
      assert interval * (1 + longest) > interval by { assert interval * (1 + longest) == interval + interval * longest; }
    }
  }

  lemma OneIsQuiet(chunk: Json, show: Show)
    requires show(chunk).None?
    ensures LongestQuiet([chunk], show) == 1
  {
    var before := [chunk][..0];
    assert before == [];
    assert QuietEnd(before, show) == 0 && LongestQuiet(before, show) == 0;
    assert QuietEnd([chunk], show) == 1;
  }

  /** A stream of one usage chunk that nobody asked for: some run of it is silent for two intervals. */
  lemma OneUsageChunkIsLate(final: Final, interval: nat, show: Show, dump: Dump, model: string)
    requires interval > 0 && ShowsForwarded(show, dump, model, false)
    ensures var chunk := Obj(map["usage" := Obj(map["prompt_tokens" := Int(1)])]);
      && WellFormed(chunk) && !AlwaysInTime([chunk], final, interval, show, dump)
      && exists events :: TimedRun(Begin([chunk], final), events, interval, show, dump).silent == interval * 2
  {
    hide LongestQuiet, TimedRun, PublicChunk;
    var chunk := Obj(map["usage" := Obj(map["prompt_tokens" := Int(1)])]);
    assert WellFormed(chunk) && Filtered(chunk, false);
    OneIsQuiet(chunk, show);
    var events := SilenceIsReached([chunk], final, interval, show, dump);
    assert TimedRun(Begin([chunk], final), events, interval, show, dump).silent == interval * 2 > interval;
  }
}
