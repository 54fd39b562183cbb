/**
 The two readers of the local demo smoke script: the batch parser of a whole text, and
 the incremental reader that also keeps the times of the first event and first answer.
 Both keep a current name and data lines and flush them at blank lines and at the end.
 */
module SmokeReaders {
  import opened PyText
  import opened EventStream
  import opened LineSources
  import opened Wrappers

  // ---------------------------------------------------------------- parser state

  // Events of the closed blocks, and the name and data lines of the open one.
  datatype State = State(events: seq<Event>, name: string, data: seq<string>)

  function Flushed(s: State): State {
    State(
      if s.name != MESSAGE || s.data != [] then s.events + [Event(s.name, Join(s.data))] else s.events,
      MESSAGE, [])
  }

  function Fed(s: State, line: string): State {
    if line == "" then Flushed(s)
    else if ":" <= line then s
    else if IsNameLine(line) then s.(name := OrMessage(NameValue(line)))
    else if IsDataLine(line) then s.(data := s.data + [DataValue(line)])
    else s
  }

  // The state that the closed blocks `bs` and the open block `b` stand for.
  function StateOf(bs: seq<Block>, b: Block): State {
    State(Dispatch(bs, false), BlockName(b), DataLines(b))
  }

  lemma {:induction false} FieldsDiffer(l: string)
    ensures IsNameLine(l) ==> l != "" && !(":" <= l) && !IsDataLine(l)
    ensures IsDataLine(l) ==> l != "" && !(":" <= l)
  {
    assert IsNameLine(l) ==> l[0] == 'e';
    assert IsDataLine(l) ==> l[0] == 'd';
  }

  lemma {:induction false} FlushedDispatches(bs: seq<Block>, b: Block)
    ensures Flushed(StateOf(bs, b)) == StateOf(bs + [b], [])
  {
    DispatchSnoc(bs, b, false);
  }

  lemma {:induction false} FedExtendsBlock(bs: seq<Block>, b: Block, line: string)
    requires line != ""
    ensures Fed(StateOf(bs, b), line) == StateOf(bs, b + [line])
  {
    DataLinesSnoc(b, line);
    LastNameSnoc(b, line, MESSAGE);
    FieldsDiffer(line);
  }

  // Feeding a line extends the block structure by it.
  lemma {:induction false} FedExtends(c: Cut, line: string)
    ensures var d := Extend(c, line);
            Fed(StateOf(c.closed, c.open), line) == StateOf(d.closed, d.open)
  {
    if line == "" {
      FlushedDispatches(c.closed, c.open);
    } else {
      FedExtendsBlock(c.closed, c.open, line);
    }
  }

  // ---------------------------------------------------------------- batch parser

  class BatchParser {
    var events: seq<Event>
    var eventName: string
    var dataLines: seq<string>

    ghost function Current(): State
      reads this
    {
      State(events, eventName, dataLines)
    }

    constructor ()
      ensures Current() == State([], MESSAGE, [])
    {
      events, eventName, dataLines := [], MESSAGE, [];
    }

    method Flush()
      modifies this
      ensures Current() == Flushed(old(Current()))
    {
      if eventName != MESSAGE || dataLines != [] {
        events := events + [Event(eventName, Join(dataLines))];
      }
      eventName := MESSAGE;
      dataLines := [];
    }

    method Feed(line: string)
      modifies this
      ensures Current() == Fed(old(Current()), line)
    {
      if line == "" {
        Flush();
        return;
      }
      if ":" <= line {
        return;
      }
      if IsNameLine(line) {
        eventName := NameValue(line);
        if eventName == "" { eventName := MESSAGE; }
        return;
      }
      if IsDataLine(line) {
        dataLines := dataLines + [DataValue(line)];
        return;
      }
    }
  }

  method ParseSseEvents(text: string) returns (events: seq<Event>)
    ensures events == Parse(text)
  {
    var parser := new BatchParser();
    var rawLines := SplitLines(text);
    SplitLinesBreakFree(text);
    ghost var c := Cut([], []);
    for i := 0 to |rawLines|
      invariant c == BlocksTo(rawLines, i)
      invariant parser.Current() == StateOf(c.closed, c.open)
    {
      assert rawLines[i] in rawLines;
      TrimEndOfBreakFree(rawLines[i], {'\r'});
      var line := TrimEnd(rawLines[i], {'\r'});
      FedExtends(c, line);
      parser.Feed(line);
      c := Extend(c, line);
    }
    FlushedDispatches(c.closed, c.open);
    parser.Flush();
    return parser.events;
  }

  // ---------------------------------------------------------------- incremental reader

  datatype SseReadResult = SseReadResult(
    events: seq<Event>,
    firstEventSeconds: Option<real>,
    firstAnswerSeconds: Option<real>,
    totalSeconds: real)

  // How the line source stops: end of stream, or a read that times out.
  datatype Ending = EndOfStream | TimedOut

  datatype Outcome =
    | Done(result: SseReadResult)
    | OverBudget
    | IdleTimeout(soFar: seq<Event>)
    | NoData

  // `clock(n)` is the n-th reading of the monotonic clock; reading 0 is `started_at`.
  function Elapsed(clock: nat -> real, n: nat): real {
    clock(n) - clock(0)
  }

  predicate IsAnswer(e: Event) {
    e.name == "answer" && Strip(e.data) != ""
  }

  // Index of the first answer among the first n events.
  function AnswerTo(es: seq<Event>, n: nat): (k: Option<nat>)
    requires n <= |es|
    ensures k.Some? ==> k.value < n
  {
    if n == 0 then None
    else if AnswerTo(es, n - 1).Some? then AnswerTo(es, n - 1)
    else if IsAnswer(es[n - 1]) then Some(n - 1) else None
  }

  function AnswerIndex(es: seq<Event>): Option<nat> {
    AnswerTo(es, |es|)
  }

  lemma {:induction false} AnswerToIsFirst(es: seq<Event>, n: nat)
    requires n <= |es|
    ensures AnswerTo(es, n).Some? <==> exists i | 0 <= i < n :: IsAnswer(es[i])
    ensures AnswerTo(es, n).Some? ==>
              var k := AnswerTo(es, n).value;
              IsAnswer(es[k]) && forall i | 0 <= i < k :: !IsAnswer(es[i])
  {
    if n > 0 { AnswerToIsFirst(es, n - 1); }
  }

  lemma {:induction false} AnswerToPrefix(es: seq<Event>, fs: seq<Event>, n: nat)
    requires n <= |es| <= |fs| && forall i | 0 <= i < n :: es[i] == fs[i]
    ensures AnswerTo(es, n) == AnswerTo(fs, n)
  {
    if n > 0 { AnswerToPrefix(es, fs, n - 1); }
  }

  lemma {:induction false} AnswerIndexSnoc(es: seq<Event>, e: Event)
    ensures AnswerIndex(es + [e]) ==
            if AnswerIndex(es).Some? then AnswerIndex(es) else if IsAnswer(e) then Some(|es|) else None
  {
    AnswerToPrefix(es, es + [e], |es|);
  }

  // Lines of the first n blocks, counting the blank line that ends each.
  function LineCountTo(bs: seq<Block>, n: nat): nat
    requires n <= |bs|
  {
    if n == 0 then 0 else LineCountTo(bs, n - 1) + |bs[n - 1]| + 1
  }

  function LineCount(bs: seq<Block>): nat {
    LineCountTo(bs, |bs|)
  }

  // The clock reading taken at the dispatch of each event of the first n blocks: after the
  // start, the readings of the events before it and, with a budget, one check per line so far.
  function StampsTo(bs: seq<Block>, budgeted: bool, n: nat): seq<nat>
    requires n <= |bs|
  {
    if n == 0 then []
    else
      var st := StampsTo(bs, budgeted, n - 1);
      if Dispatched(bs[n - 1], false) then st + [1 + |st| + if budgeted then LineCountTo(bs, n) else 0] else st
  }

  function Stamps(bs: seq<Block>, budgeted: bool): seq<nat> {
    StampsTo(bs, budgeted, |bs|)
  }

  function FirstEventAt(es: seq<Event>, st: seq<nat>, clock: nat -> real): Option<real>
    requires |st| == |es|
  {
    if es == [] then None else Some(Elapsed(clock, st[0]))
  }

  function FirstAnswerAt(es: seq<Event>, st: seq<nat>, clock: nat -> real): Option<real>
    requires |st| == |es|
  {
    var k := AnswerIndex(es);
    if k.None? then None else Some(Elapsed(clock, st[k.value]))
  }

  // Clock readings used once `lines` are read, checked and dispatched.
  function FinalReading(lines: seq<string>, budgeted: bool): nat {
    1 + |Events(lines, false)| + if budgeted then |lines| + 1 else 0
  }

  function ReadResult(lines: seq<string>, clock: nat -> real, budgeted: bool): SseReadResult {
    var es, st := Events(lines, false), Stamps(Blocks(lines).All(), budgeted);
    StampPerEvent(Blocks(lines).All(), budgeted);
    SseReadResult(es, FirstEventAt(es, st, clock), FirstAnswerAt(es, st, clock),
                  Elapsed(clock, FinalReading(lines, budgeted)))
  }

  // Events of the blocks that a blank line has closed.
  function Closed(lines: seq<string>): seq<Event> {
    Dispatch(Blocks(lines).closed, false)
  }

  // The budget check before line i (or before the end, when i is the number of lines) fails.
  ghost predicate OverAt(lines: seq<string>, i: nat, clock: nat -> real, maxTotal: real)
    requires i <= |lines|
  {
    maxTotal != 0.0 && Elapsed(clock, 1 + i + |Dispatch(BlocksTo(lines, i).closed, false)|) > maxTotal
  }

  // The first n budget checks pass.
  ghost predicate Within(lines: seq<string>, n: nat, clock: nat -> real, maxTotal: real)
    requires n <= |lines| + 1
  {
    n == 0 || (Within(lines, n - 1, clock, maxTotal) && !OverAt(lines, n - 1, clock, maxTotal))
  }

  // The check before line i reads the clock after i checks and the closed blocks' events.
  lemma {:induction false} CheckDecides(lines: seq<string>, i: nat, reading: nat, clock: nat -> real, maxTotal: real)
    requires i <= |lines| && Within(lines, i, clock, maxTotal)
    requires maxTotal != 0.0 ==> reading == 1 + i + |Dispatch(BlocksTo(lines, i).closed, false)|
    ensures Within(lines, i + 1, clock, maxTotal) <==> maxTotal == 0.0 || Elapsed(clock, reading) <= maxTotal
  {
  }

  lemma {:induction false} OverrunStays(lines: seq<string>, n: nat, m: nat, clock: nat -> real, maxTotal: real)
    requires n <= m <= |lines| + 1 && !Within(lines, n, clock, maxTotal)
    ensures !Within(lines, m, clock, maxTotal)
  {
    if n < m { OverrunStays(lines, n, m - 1, clock, maxTotal); }
  }

  lemma {:induction false} WithinIff(lines: seq<string>, n: nat, clock: nat -> real, maxTotal: real)
    requires n <= |lines| + 1
    ensures Within(lines, n, clock, maxTotal) <==> forall i | 0 <= i < n :: !OverAt(lines, i, clock, maxTotal)
  {
    if n > 0 { WithinIff(lines, n - 1, clock, maxTotal); }
  }

  // ---------------------------------------------------------------- timed state

  datatype Times = Times(first: Option<real>, answer: Option<real>, readings: nat)

  function TimesOf(es: seq<Event>, st: seq<nat>, clock: nat -> real, readings: nat): Times
    requires |st| == |es|
  {
    Times(FirstEventAt(es, st, clock), FirstAnswerAt(es, st, clock), readings)
  }

  // A flush that emits `e` reads the clock once; a flush that emits nothing does not.
  function Timed(emits: bool, e: Event, t: Times, clock: nat -> real): Times {
    if emits then
      var now := Elapsed(clock, t.readings);
      Times(
        if t.first.None? then Some(now) else t.first,
        if IsAnswer(e) && t.answer.None? then Some(now) else t.answer,
        t.readings + 1)
    else t
  }

  function FlushedTimes(s: State, t: Times, clock: nat -> real): Times {
    Timed(s.name != MESSAGE || s.data != [], Event(s.name, Join(s.data)), t, clock)
  }

  lemma {:induction false} LineCountToPrefix(bs: seq<Block>, cs: seq<Block>, n: nat)
    requires n <= |bs| <= |cs| && forall i | 0 <= i < n :: bs[i] == cs[i]
    ensures LineCountTo(bs, n) == LineCountTo(cs, n)
  {
    if n > 0 { LineCountToPrefix(bs, cs, n - 1); }
  }

  lemma {:induction false} LineCountSnoc(bs: seq<Block>, b: Block)
    ensures LineCount(bs + [b]) == LineCount(bs) + |b| + 1
  {
    LineCountToPrefix(bs, bs + [b], |bs|);
  }

  lemma {:induction false} StampsToPrefix(bs: seq<Block>, cs: seq<Block>, budgeted: bool, n: nat)
    requires n <= |bs| <= |cs| && forall i | 0 <= i < n :: bs[i] == cs[i]
    ensures StampsTo(bs, budgeted, n) == StampsTo(cs, budgeted, n)
  {
    if n > 0 {
      StampsToPrefix(bs, cs, budgeted, n - 1);
      LineCountToPrefix(bs, cs, n);
    }
  }

  lemma {:induction false} StampsSnoc(bs: seq<Block>, b: Block, budgeted: bool)
    ensures var st := Stamps(bs, budgeted);
            Stamps(bs + [b], budgeted) ==
            if Dispatched(b, false)
            then st + [1 + |st| + if budgeted then LineCount(bs + [b]) else 0] else st
  {
    StampsToPrefix(bs, bs + [b], budgeted, |bs|);
  }

  lemma {:induction false} StampPerEventTo(bs: seq<Block>, budgeted: bool, n: nat)
    requires n <= |bs|
    ensures |StampsTo(bs, budgeted, n)| == |DispatchTo(bs, false, n)|
  {
    if n > 0 { StampPerEventTo(bs, budgeted, n - 1); }
  }

  lemma {:induction false} StampPerEvent(bs: seq<Block>, budgeted: bool)
    ensures |Stamps(bs, budgeted)| == |Dispatch(bs, false)|
  {
    StampPerEventTo(bs, budgeted, |bs|);
  }

  // Blank lines included, the blocks hold every line of the stream once.
  lemma {:induction false} LineCountOfBlocks(lines: seq<string>, n: nat)
    requires n <= |lines|
    ensures LineCount(BlocksTo(lines, n).closed) + |BlocksTo(lines, n).open| == n
  {
    if n > 0 {
      var c := BlocksTo(lines, n - 1);
      LineCountOfBlocks(lines, n - 1);
      LineCountSnoc(c.closed, c.open);
    }
  }

  // At most one event more, stamped with the current reading.
  lemma {:induction false} TimesSnoc(es: seq<Event>, st: seq<nat>, es': seq<Event>, st': seq<nat>,
                  emits: bool, e: Event, clock: nat -> real, checks: nat)
    requires |st| == |es| && |st'| == |es'|
    requires es' == if emits then es + [e] else es
    requires st' == if emits then st + [1 + |es| + checks] else st
    ensures Timed(emits, e, TimesOf(es, st, clock, 1 + |es| + checks), clock)
            == TimesOf(es', st', clock, 1 + |es'| + checks)
  {
    AnswerIndexSnoc(es, e);
  }

  // The times after the blocks `bs`, when `checks` budget readings have been taken.
  function TimesAfter(bs: seq<Block>, clock: nat -> real, budgeted: bool, checks: nat): Times {
    StampPerEvent(bs, budgeted);
    TimesOf(Dispatch(bs, false), Stamps(bs, budgeted), clock, 1 + |Dispatch(bs, false)| + checks)
  }

  // The same on blocks, whatever the event.
  lemma {:induction false} TimesFollow(bs: seq<Block>, cs: seq<Block>, emits: bool, e: Event, clock: nat -> real,
                                       budgeted: bool, checks: nat)
    requires Dispatch(cs, false) == Dispatch(bs, false) + if emits then [e] else []
    requires Stamps(cs, budgeted) == if emits then Stamps(bs, budgeted) + [1 + |Stamps(bs, budgeted)| + checks]
                                     else Stamps(bs, budgeted)
    ensures Timed(emits, e, TimesAfter(bs, clock, budgeted, checks), clock) == TimesAfter(cs, clock, budgeted, checks)
  {
    StampPerEvent(bs, budgeted);
    StampPerEvent(cs, budgeted);
    TimesSnoc(Dispatch(bs, false), Stamps(bs, budgeted), Dispatch(cs, false), Stamps(cs, budgeted), emits, e, clock, checks);
  }

  // Flushing the open block takes the reading its stamp says.
  lemma {:induction false} FlushedTimesFollowBlocks(bs: seq<Block>, b: Block, clock: nat -> real, budgeted: bool)
    ensures var checks := if budgeted then LineCount(bs + [b]) else 0;
            Timed(Dispatched(b, false), BlockEvent(b), TimesAfter(bs, clock, budgeted, checks), clock)
            == TimesAfter(bs + [b], clock, budgeted, checks)
  {
    var checks := if budgeted then LineCount(bs + [b]) else 0;
    DispatchSnoc(bs, b, false);
    StampsSnoc(bs, b, budgeted);
    TimesFollow(bs, bs + [b], Dispatched(b, false), BlockEvent(b), clock, budgeted, checks);
  }

  lemma {:induction false} FlushTimed(bs: seq<Block>, b: Block, t: Times, clock: nat -> real)
    ensures FlushedTimes(StateOf(bs, b), t, clock) == Timed(Dispatched(b, false), BlockEvent(b), t, clock)
  {
  }

  // ---------------------------------------------------------------- timed reader

  class TimedReader {
    const clock: nat -> real
    var readings: nat
    var events: seq<Event>
    var eventName: string
    var dataLines: seq<string>
    var firstEventSeconds: Option<real>
    var firstAnswerSeconds: Option<real>

    ghost function Current(): State
      reads this
    {
      State(events, eventName, dataLines)
    }

    ghost function Seen(): Times
      reads this
    {
      Times(firstEventSeconds, firstAnswerSeconds, readings)
    }

    constructor (clock: nat -> real)
      ensures this.clock == clock
      ensures Current() == State([], MESSAGE, []) && Seen() == Times(None, None, 1)
    {
      this.clock, readings := clock, 1;
      events, eventName, dataLines := [], MESSAGE, [];
      firstEventSeconds, firstAnswerSeconds := None, None;
    }

    method Tick() returns (elapsed: real)
      modifies this`readings
      ensures elapsed == Elapsed(clock, old(readings)) && readings == old(readings) + 1
    {
      elapsed := clock(readings) - clock(0);
      readings := readings + 1;
    }

    method Flush()
      modifies this
      ensures Current() == Flushed(old(Current()))
      ensures Seen() == FlushedTimes(old(Current()), old(Seen()), clock)
    {
      if eventName != MESSAGE || dataLines != [] {
        var data := Join(dataLines);
        events := events + [Event(eventName, data)];
        var currentElapsed := Tick();
        if firstEventSeconds.None? {
          firstEventSeconds := Some(currentElapsed);
        }
        if eventName == "answer" && Strip(data) != "" && firstAnswerSeconds.None? {
          firstAnswerSeconds := Some(currentElapsed);
        }
      }
      eventName := MESSAGE;
      dataLines := [];
    }

    method Feed(line: string)
      modifies this
      ensures Current() == Fed(old(Current()), line)
      ensures Seen() == if line == "" then FlushedTimes(old(Current()), old(Seen()), clock) else old(Seen())
    {
      if line == "" {
        Flush();
        return;
      }
      if ":" <= line {
        return;
      }
      if IsNameLine(line) {
        eventName := NameValue(line);
        if eventName == "" { eventName := MESSAGE; }
        return;
      }
      if IsDataLine(line) {
        dataLines := dataLines + [DataValue(line)];
        return;
      }
    }
  }

  // The same, for the cut of a stream of n lines: a flush, and a line that may flush.
  lemma {:induction false} FlushedTimesOfCut(c: Cut, n: nat, clock: nat -> real, budgeted: bool)
    requires LineCount(c.closed) + |c.open| == n
    ensures var checks := if budgeted then n + 1 else 0;
            FlushedTimes(StateOf(c.closed, c.open), TimesAfter(c.closed, clock, budgeted, checks), clock)
            == TimesAfter(c.All(), clock, budgeted, checks)
  {
    var checks := if budgeted then n + 1 else 0;
    LineCountSnoc(c.closed, c.open);
    FlushedTimesFollowBlocks(c.closed, c.open, clock, budgeted);
    FlushTimed(c.closed, c.open, TimesAfter(c.closed, clock, budgeted, checks), clock);
  }

  // Feeding line n of a stream extends the block structure and the times by it.
  lemma {:induction false} FedTimes(lines: seq<string>, n: nat, clock: nat -> real, budgeted: bool)
    requires n < |lines|
    ensures var c, d, checks := BlocksTo(lines, n), BlocksTo(lines, n + 1), if budgeted then n + 1 else 0;
            var s, t := StateOf(c.closed, c.open), TimesAfter(c.closed, clock, budgeted, checks);
            && Fed(s, lines[n]) == StateOf(d.closed, d.open)
            && (if lines[n] == "" then FlushedTimes(s, t, clock) else t)
               == TimesAfter(d.closed, clock, budgeted, checks)
  {
    var c := BlocksTo(lines, n);
    LineCountOfBlocks(lines, n);
    FedExtends(c, lines[n]);
    FlushedTimesOfCut(c, n, clock, budgeted);
  }

  lemma {:induction false} ResultOfTimes(lines: seq<string>, clock: nat -> real, budgeted: bool)
    ensures var all := Blocks(lines).All();
            var t := TimesAfter(all, clock, budgeted, if budgeted then |lines| + 1 else 0);
            ReadResult(lines, clock, budgeted)
            == SseReadResult(Dispatch(all, false), t.first, t.answer, Elapsed(clock, t.readings))
  {
  }

  // The reader stands after n of the lines, with `checks` budget checks behind it.
  ghost predicate StandsAt(reader: TimedReader, lines: seq<string>, n: nat, budgeted: bool, checks: nat)
    requires n <= |lines|
    reads reader
  {
    var c := BlocksTo(lines, n);
    && reader.Current() == StateOf(c.closed, c.open)
    && reader.Seen() == TimesAfter(c.closed, reader.clock, budgeted, if budgeted then checks else 0)
  }

  // Every budget check so far has passed, and the one before line n is next.
  ghost predicate ReadTo(reader: TimedReader, lines: seq<string>, n: nat, maxTotal: real)
    requires n <= |lines|
    reads reader
  {
    StandsAt(reader, lines, n, maxTotal != 0.0, n) && Within(lines, n, reader.clock, maxTotal)
  }

  method Start(clock: nat -> real, ghost lines: seq<string>, ghost maxTotal: real) returns (reader: TimedReader)
    ensures fresh(reader) && reader.clock == clock && ReadTo(reader, lines, 0, maxTotal)
  {
    reader := new TimedReader(clock);
  }

  // The budget check before line n.
  method CheckBudget(reader: TimedReader, maxTotal: real, ghost lines: seq<string>, ghost n: nat)
    returns (over: bool)
    requires n <= |lines| && ReadTo(reader, lines, n, maxTotal)
    modifies reader`readings
    ensures StandsAt(reader, lines, n, maxTotal != 0.0, n + 1)
    ensures !over <==> Within(lines, n + 1, reader.clock, maxTotal)
  {
    CheckDecides(lines, n, reader.readings, reader.clock, maxTotal);
    if maxTotal != 0.0 {
      var e := reader.Tick();
      return e > maxTotal;
    }
    return false;
  }

  method FeedNext(reader: TimedReader, rawLine: string, ghost lines: seq<string>, ghost n: nat, ghost budgeted: bool)
    requires n < |lines| && Chomp(rawLine) == lines[n]
    requires StandsAt(reader, lines, n, budgeted, n + 1)
    modifies reader
    ensures StandsAt(reader, lines, n + 1, budgeted, n + 1)
  {
    FedTimes(lines, n, reader.clock, budgeted);
    reader.Feed(Chomp(rawLine));
  }

  // What the last check says about the budget as a whole.
  lemma {:induction false} ReadingEnds(lines: seq<string>, read: nat, over: bool, clock: nat -> real, maxTotal: real)
    requires read <= |lines| && Within(lines, read, clock, maxTotal)
    requires !over <==> Within(lines, read + 1, clock, maxTotal)
    requires !over ==> read == |lines|
    ensures over <==> OverAt(lines, read, clock, maxTotal)
    ensures over <==> !Within(lines, |lines| + 1, clock, maxTotal)
  {
    if over {
      OverrunStays(lines, read + 1, |lines| + 1, clock, maxTotal);
    }
  }

  // One round: the check, and the line after it unless there is none or the check fails.
  method ReadNext(reader: TimedReader, rawLines: seq<string>, maxTotal: real, ghost lines: seq<string>, read: nat)
    returns (over: bool, more: bool)
    requires lines == Chomped(rawLines) && read <= |lines| && ReadTo(reader, lines, read, maxTotal)
    modifies reader
    ensures more == (!over && read < |lines|)
    ensures more ==> ReadTo(reader, lines, read + 1, maxTotal)
    ensures !more ==> StandsAt(reader, lines, read, maxTotal != 0.0, read + 1)
    ensures !over <==> Within(lines, read + 1, reader.clock, maxTotal)
  {
    over := CheckBudget(reader, maxTotal, lines, read);
    more := !over && read < |rawLines|;
    if more {
      FeedNext(reader, rawLines[read], lines, read, maxTotal != 0.0);
    }
  }

  // The reading loop, up to the end of the lines or the first failing budget check: it stops
  // before line `read`, with one more check behind it.
  method ReadLines(rawLines: seq<string>, clock: nat -> real, maxTotal: real)
    returns (reader: TimedReader, over: bool, read: nat)
    ensures fresh(reader) && reader.clock == clock && read <= |rawLines|
    ensures StandsAt(reader, Chomped(rawLines), read, maxTotal != 0.0, read + 1)
    ensures Within(Chomped(rawLines), read, clock, maxTotal)
    ensures over <==> OverAt(Chomped(rawLines), read, clock, maxTotal)
    ensures over <==> !Within(Chomped(rawLines), |rawLines| + 1, clock, maxTotal)
    ensures !over ==> read == |rawLines|
  {
    ghost var lines := Chomped(rawLines);
    reader := Start(clock, lines, maxTotal);
    read := 0;
    while true
      invariant read <= |lines|
      invariant reader.clock == clock && fresh(reader)
      invariant ReadTo(reader, lines, read, maxTotal)
      decreases |lines| - read
    {
      var more;
      over, more := ReadNext(reader, rawLines, maxTotal, lines, read);
      if !more {
        break;
      }
      read := read + 1;
    }
    ReadingEnds(lines, read, over, clock, maxTotal);
  }

  // Flush at the end of the stream and take the total.
  method Finish(reader: TimedReader, ghost lines: seq<string>, ghost budgeted: bool)
    returns (result: SseReadResult)
    requires StandsAt(reader, lines, |lines|, budgeted, |lines| + 1)
    modifies reader
    ensures result == ReadResult(lines, reader.clock, budgeted)
  {
    ghost var c := Blocks(lines);
    LineCountOfBlocks(lines, |lines|);
    FlushedTimesOfCut(c, |lines|, reader.clock, budgeted);
    FlushedDispatches(c.closed, c.open);
    ResultOfTimes(lines, reader.clock, budgeted);
    reader.Flush();
    var total := reader.Tick();
    result := SseReadResult(reader.events, reader.firstEventSeconds, reader.firstAnswerSeconds, total);
  }

  predicate Ended(raw: string) {
    raw != "" && raw[|raw| - 1] == '\n'
  }

  // What the `readline` calls return of a text that ends or after which reading times out: the
  // call that times out returns nothing, not even the beginning of a line.
  function Returned(text: string, ending: Ending): seq<string> {
    var raws := RawLines(text);
    if ending.TimedOut? && raws != [] && !Ended(raws[|raws| - 1]) then raws[..|raws| - 1] else raws
  }

  // What the reading of `lines` comes to.
  ghost predicate Describes(r: Outcome, lines: seq<string>, ending: Ending, clock: nat -> real, maxTotal: real) {
    if !Within(lines, |lines| + 1, clock, maxTotal) then r == OverBudget
    else if ending.EndOfStream? then r == Done(ReadResult(lines, clock, maxTotal != 0.0))
    else r == if Closed(lines) != [] then IdleTimeout(Closed(lines)) else NoData
  }

  // `text` is what the response delivers before it ends or times out.
  method RequestSseEvents(text: string, ending: Ending, clock: nat -> real, maxTotal: real)
    returns (r: Outcome)
    ensures Describes(r, Chomped(Returned(text, ending)), ending, clock, maxTotal)
    ensures r.Done? && CleanBreaks(text) ==> r.result.events == Parse(text)
  {
    var rawLines := Returned(text, ending);
    LinesAgreeIff(text);
    var reader, over, read := ReadLines(rawLines, clock, maxTotal);
    if over {
      return OverBudget;
    }
    if ending.TimedOut? {
      return if reader.events != [] then IdleTimeout(reader.events) else NoData;
    }
    var result := Finish(reader, Chomped(rawLines), maxTotal != 0.0);
    return Done(result);
  }

  // ---------------------------------------------------------------- what a timed-out read leaves unseen

  lemma {:induction false} FirstRawLine(h: string, rest: string)
    requires '\n' !in h
    ensures RawLines(h + "\n" + rest) == [h + "\n"] + RawLines(rest)
  {
    var s := h + "\n" + rest;
    FindNewlineIsFirst(s, 0);
    assert s[|h|] == '\n' && forall j :: 0 <= j < |h| ==> s[j] == h[j] && h[j] in h;
    assert FirstNewline(s) == |h|;
    assert s[..|h| + 1] == h + "\n" && s[|h| + 1..] == rest;
  }

  // A text with a newline, cut there.
  lemma {:induction false} CutAtNewline(x: string, k: nat, c: string)
    requires k < |x| && x[k] == '\n'
    ensures x + "\n" + c == x[..k] + "\n" + (x[k + 1..] + "\n" + c)
    ensures x + "\n" == x[..k] + "\n" + (x[k + 1..] + "\n")
  {
    assert x == x[..k] + "\n" + x[k + 1..];
  }

  // A text up to a newline and what follows are read one after the other.
  lemma {:induction false} RawLinesAtNewline(x: string, c: string)
    ensures RawLines(x + "\n" + c) == RawLines(x + "\n") + RawLines(c)
    decreases |x|
  {
    var k := FirstNewline(x);
    FindNewlineIsFirst(x, 0);
    assert x + "\n" + "" == x + "\n";
    if k == |x| {
      FirstRawLine(x, c);
      FirstRawLine(x, "");
    } else {
      var h, rest := x[..k], x[k + 1..];
      CutAtNewline(x, k, c);
      FirstRawLine(h, rest + "\n" + c);
      FirstRawLine(h, rest + "\n");
      RawLinesAtNewline(rest, c);
    }
  }

  lemma {:induction false} LastRawLineEnded(x: string)
    ensures RawLines(x + "\n") != [] && Ended(RawLines(x + "\n")[|RawLines(x + "\n")| - 1])
    decreases |x|
  {
    var k := FirstNewline(x);
    FindNewlineIsFirst(x, 0);
    assert x + "\n" + "" == x + "\n";
    if k == |x| {
      FirstRawLine(x, "");
    } else {
      var h, rest := x[..k], x[k + 1..];
      assert x + "\n" == h + "\n" + (rest + "\n");
      FirstRawLine(h, rest + "\n");
      LastRawLineEnded(rest);
    }
  }

  // When reading times out, whatever comes after the last newline is not seen.
  lemma {:induction false} UnfinishedLineUnseen(x: string, c: string)
    requires '\n' !in c
    ensures Returned(x + "\n" + c, TimedOut) == RawLines(x + "\n")
    ensures Returned(c, TimedOut) == []
  {
    RawLinesAtNewline(x, c);
    LastRawLineEnded(x);
    FindNewlineIsFirst(c, 0);
    if c != "" {
      assert RawLines(c) == [c];
      assert c[|c| - 1] in c;
    }
  }

  // ---------------------------------------------------------------- laws of the timings

  // Readings that only go up, all after the start and before reading `end`.
  predicate Ascending(st: seq<nat>, end: nat) {
    && (forall i, j | 0 <= i < j < |st| :: st[i] < st[j])
    && (forall i | 0 <= i < |st| :: 1 <= st[i] < end)
  }

  lemma {:induction false} StampsIncrease(bs: seq<Block>, budgeted: bool, n: nat)
    requires n <= |bs|
    ensures Ascending(StampsTo(bs, budgeted, n),
                      1 + |StampsTo(bs, budgeted, n)| + if budgeted then LineCountTo(bs, n) else 0)
  {
    if n > 0 { StampsIncrease(bs, budgeted, n - 1); }
  }

  // For every clock that never goes back: times are set exactly when there is an event,
  // respectively an answer, and first event <= first answer <= total.
  lemma {:induction false} TimingLaws(lines: seq<string>, clock: nat -> real, budgeted: bool)
    requires forall i: nat, j: nat | i <= j :: clock(i) <= clock(j)
    ensures var r := ReadResult(lines, clock, budgeted);
            && (r.firstEventSeconds.Some? <==> r.events != [])
            && (r.firstAnswerSeconds.Some? <==> exists i | 0 <= i < |r.events| :: IsAnswer(r.events[i]))
            && (r.firstEventSeconds.Some? ==> 0.0 <= r.firstEventSeconds.value <= r.totalSeconds)
            && (r.firstAnswerSeconds.Some? ==>
                  && r.firstEventSeconds.Some?
                  && r.firstEventSeconds.value <= r.firstAnswerSeconds.value <= r.totalSeconds)
  {
    var c := Blocks(lines);
    var es, st := Events(lines, false), Stamps(c.All(), budgeted);
    var n := FinalReading(lines, budgeted);
    LineCountOfBlocks(lines, |lines|);
    LineCountSnoc(c.closed, c.open);
    StampPerEvent(c.All(), budgeted);
    StampsIncrease(c.All(), budgeted, |c.All()|);
    if st != [] {
      assert st[0] <= n && clock(0) <= clock(st[0]) <= clock(n);
      var k := AnswerIndex(es);
      AnswerToIsFirst(es, |es|);
      if k.Some? {
        assert st[0] <= st[k.value] <= n && clock(st[0]) <= clock(st[k.value]) <= clock(n);
      }
    }
  }

  // A "\r" inside a line is where the readers part: the batch parser ends a line there.
  // For the text of two data lines with "\r\r" between them:
  lemma {:induction false} ReadersDifferOnBareCR(a: string, b: string)
    requires IsDataLine(a) && IsDataLine(b) && BreakFree(a) && BreakFree(b)
    ensures var text := a + "\r" + ("\r" + b);
            && !CleanBreaks(text)
            && |Parse(text)| == 2
            && |Events(Chomped(RawLines(text)), false)| == 1
  {
    var tail := "\r" + b;
    var text := a + "\r" + tail;
    assert text[|a|] == '\r' && text[|a| + 1] == '\r';
    assert !CleanBreakAt(text, |a|);
    assert |Parse(text)| == 2 by {
      assert b[0] == 'd';
      BareCR(a, tail);
      assert "" + "\r" + b == tail;
      BareCR("", b);
      FirstBreakIs(b, |b|);
      assert SplitLines(b) == [b];
      assert [a] + ([""] + [b]) == [a] + [""] + [b];
      EventsConcat([a], [b], false);
      OneDataLine(a);
      OneDataLine(b);
    }
    OneRawDataLine(a, tail);
  }

  // Without "\n" the text is one line, and a data line when it starts like one.
  lemma {:induction false} OneRawDataLine(a: string, b: string)
    requires IsDataLine(a) && BreakFree(a) && (forall i | 0 <= i < |b| :: b[i] != '\n')
    ensures |Events(Chomped(RawLines(a + "\r" + b)), false)| == 1
  {
    var text := a + "\r" + b;
    assert text[|a|] == '\r';
    assert forall i | 0 <= i < |a| :: text[i] == a[i];
    assert forall i | 0 <= i < |b| :: text[|a| + 1 + i] == b[i];
    FirstNewlineIs(text, |text|);
    assert RawLines(text) == [text];
    var l := Chomp(text);
    assert Chomped([text]) == [l];
    ChompKeeps(text, |a|);
    OneDataLine(l);
  }

  lemma {:induction false} ChompKeeps(s: string, n: nat)
    requires n <= |s| && BreakFree(s[..n])
    ensures s[..n] <= Chomp(s)
  {
    var t := TrimEnd(s, {'\n'});
    TrimEndTrims(s, {'\n'});
    TrimEndTrims(t, {'\r'});
    if n > 0 {
      assert !IsBreak(s[..n][n - 1]) && s[..n][n - 1] == s[n - 1];
      assert |t| >= n;
      assert t[n - 1] == s[n - 1];
    }
  }

  // A "\r" that no "\n" follows ends a line of its own.
  lemma {:induction false} BareCR(l: string, rest: string)
    requires BreakFree(l) && rest != "" && rest[0] != '\n'
    ensures SplitLines(l + "\r" + rest) == [l] + SplitLines(rest)
  {
    var s := l + "\r" + rest;
    assert s == l + ("\r" + rest);
    FirstBreakAfter(l, "\r" + rest);
    assert s[..|l|] == l && s[|l|] == '\r' && s[|l| + 1] == rest[0] && s[|l| + 1..] == rest;
  }

  lemma {:induction false} OneDataLine(l: string)
    requires IsDataLine(l)
    ensures |Events([l], false)| == 1
  {
    FieldsDiffer(l);
    EventsOfBlock([l], false);
    DataLinesSnoc([], l);
    assert [] + [l] == [l];
  }
}
