/**
 The other readers of the same stream: the collector that needs data, the collector
 with a sticky name, the counter of name lines, and the builder of the tool trace.
 */
module Collectors {
  import opened PyText
  import opened EventStream

  // ---------------------------------------------------------------- collector that needs data

  function Cleaned(raws: seq<string>): seq<string> {
    seq(|raws|, i requires 0 <= i < |raws| => TrimEnd(raws[i], {'\r', '\n'}))
  }

  class BlockCollector {
    var events: seq<Event>

    constructor ()
      ensures events == []
    {
      events := [];
    }

    method AppendEvent(name: string, dataLines: seq<string>)
      modifies this
      ensures events == if dataLines == [] then old(events)
                        else old(events) + [Event(OrMessage(name), Join(dataLines))]
    {
      if dataLines == [] {
        return;
      }
      var rawData := Join(dataLines);
      events := events + [Event(if name != "" then name else MESSAGE, rawData)];
    }
  }

  lemma {:induction false} DataStep(bs: seq<Block>, b: Block)
    ensures Dispatch(bs + [b], true) ==
            if DataLines(b) == [] then Dispatch(bs, true)
            else Dispatch(bs, true) + [Event(OrMessage(LastName(b, MESSAGE)), Join(DataLines(b)))]
  {
    DispatchSnoc(bs, b, true);
  }

  lemma {:induction false} LineStep(b: Block, l: string)
    ensures LastName(b + [l], MESSAGE) == if IsNameLine(l) then NameValue(l) else LastName(b, MESSAGE)
    ensures DataLines(b + [l]) == if IsDataLine(l) then DataLines(b) + [DataValue(l)] else DataLines(b)
    ensures IsNameLine(l) ==> !IsDataLine(l)
    ensures ":" <= l ==> !IsNameLine(l) && !IsDataLine(l)
  {
    LastNameSnoc(b, l, MESSAGE);
    DataLinesSnoc(b, l);
    assert IsNameLine(l) ==> l[0] == 'e';
    assert IsDataLine(l) ==> l[0] == 'd';
    assert ":" <= l ==> l[0] == ':';
  }

  method CollectBlocks(rawLines: seq<string>) returns (events: seq<Event>)
    ensures events == Events(Cleaned(rawLines), true)
  {
    var collector := new BlockCollector();
    var currentEvent := MESSAGE;
    var dataLines: seq<string> := [];
    ghost var lines := Cleaned(rawLines);
    ghost var c := Cut([], []);
    for i := 0 to |rawLines|
      invariant c == BlocksTo(lines, i)
      invariant fresh(collector) && collector.events == Dispatch(c.closed, true)
      invariant currentEvent == LastName(c.open, MESSAGE) && dataLines == DataLines(c.open)
    {
      var line := TrimEnd(rawLines[i], {'\r', '\n'});
      DataStep(c.closed, c.open);
      LineStep(c.open, line);
      c := Extend(c, line);
      if line == "" {
        collector.AppendEvent(currentEvent, dataLines);
        currentEvent := MESSAGE;
        dataLines := [];
        continue;
      }
      if ":" <= line {
        continue;
      }
      if IsNameLine(line) {
        currentEvent := NameValue(line);
        continue;
      }
      if IsDataLine(line) {
        dataLines := dataLines + [DataValue(line)];
      }
    }
    DataStep(c.closed, c.open);
    collector.AppendEvent(currentEvent, dataLines);
    return collector.events;
  }

  // The blocks with at least one data line among the first n.
  function WithDataTo(bs: seq<Block>, n: nat): seq<Block>
    requires n <= |bs|
  {
    if n == 0 then []
    else if DataLines(bs[n - 1]) != [] then WithDataTo(bs, n - 1) + [bs[n - 1]]
    else WithDataTo(bs, n - 1)
  }

  lemma {:induction false} DispatchWithData(bs: seq<Block>, n: nat)
    requires n <= |bs|
    ensures DispatchTo(bs, true, n) == Dispatch(WithDataTo(bs, n), false)
  {
    if n > 0 {
      DispatchWithData(bs, n - 1);
      DispatchSnoc(WithDataTo(bs, n - 1), bs[n - 1], false);
    }
  }

  // The collector finds exactly the smoke parser's reading of the blocks that have data.
  lemma {:induction false} CollectorIsSmokeOnData(lines: seq<string>)
    ensures var bs := Blocks(lines).All();
            Events(lines, true) == Dispatch(WithDataTo(bs, |bs|), false)
  {
    DispatchWithData(Blocks(lines).All(), |Blocks(lines).All()|);
  }

  // A block that only the smoke parser dispatches: a name of its own and no data.
  predicate BareName(b: Block) {
    BlockName(b) != MESSAGE && DataLines(b) == []
  }

  lemma {:induction false} DispatchAgreeIff(bs: seq<Block>, n: nat)
    requires n <= |bs|
    ensures |DispatchTo(bs, true, n)| <= |DispatchTo(bs, false, n)|
    ensures DispatchTo(bs, true, n) == DispatchTo(bs, false, n) <==> forall i | 0 <= i < n :: !BareName(bs[i])
  {
    if n > 0 {
      DispatchAgreeIff(bs, n - 1);
      var es, fs := DispatchTo(bs, true, n - 1), DispatchTo(bs, false, n - 1);
      var e := BlockEvent(bs[n - 1]);
      if es + [e] == fs + [e] {
        assert es == (es + [e])[..|es|] == (fs + [e])[..|fs|] == fs;
      }
    }
  }

  // Both parsers agree on a stream exactly when it has no named block without data.
  lemma {:induction false} CollectorEqualsSmokeIff(lines: seq<string>)
    ensures Events(lines, true) == Events(lines, false) <==>
            forall b | b in Blocks(lines).All() :: !BareName(b)
  {
    var bs := Blocks(lines).All();
    DispatchAgreeIff(bs, |bs|);
  }

  // A name line alone: an event to the smoke parser, nothing to the collector.
  lemma {:induction false} NameWithoutData(l: string)
    requires IsNameLine(l) && NameValue(l) != "" && NameValue(l) != MESSAGE
    ensures Events([l], false) == [Event(NameValue(l), "")] && Events([l], true) == []
  {
    LineStep([], l);
    assert [] + [l] == [l];
    EventsOfBlock([l], false);
    EventsOfBlock([l], true);
  }

  // ---------------------------------------------------------------- sticky collector

  // One event per data line among the first n, named by the last name line before it.
  function StickyTo(lines: seq<string>, start: string, n: nat): seq<Event>
    requires n <= |lines|
  {
    if n == 0 then []
    else if IsDataLine(lines[n - 1]) then
      StickyTo(lines, start, n - 1) + [Event(LastNameTo(lines, start, n - 1), DataValue(lines[n - 1]))]
    else StickyTo(lines, start, n - 1)
  }

  function Sticky(lines: seq<string>, start: string): seq<Event> {
    StickyTo(lines, start, |lines|)
  }

  function Unterminated(raws: seq<string>): seq<string> {
    seq(|raws|, i requires 0 <= i < |raws| => TrimEnd(raws[i], {'\n'}))
  }

  lemma {:induction false} BlankIsNoField(l: string)
    requires Strip(l) == ""
    ensures !IsNameLine(l) && !IsDataLine(l)
  {
    StripEmptyIff(l);
    assert l != "" ==> IsSpace(l[0]);
  }

  method CollectSticky(rawLines: seq<string>) returns (events: seq<Event>)
    ensures events == Sticky(Unterminated(rawLines), MESSAGE)
  {
    events := [];
    var currentEvent := MESSAGE;
    ghost var lines := Unterminated(rawLines);
    for i := 0 to |rawLines|
      invariant events == StickyTo(lines, MESSAGE, i)
      invariant currentEvent == LastNameTo(lines, MESSAGE, i)
    {
      var line := TrimEnd(rawLines[i], {'\n'});
      LineStep([], line);
      if Strip(line) == "" {
        BlankIsNoField(line);
        continue;
      }
      if IsNameLine(line) {
        currentEvent := NameValue(line);
        continue;
      }
      if !IsDataLine(line) {
        continue;
      }
      events := events + [Event(currentEvent, DataValue(line))];
    }
  }

  // Every data line gives one event, in order, with its own value.
  lemma {:induction false} StickyOnePerDataLine(lines: seq<string>, start: string, n: nat)
    requires n <= |lines|
    ensures |StickyTo(lines, start, n)| == |DataLinesTo(lines, n)|
    ensures forall k | 0 <= k < |DataLinesTo(lines, n)| ::
              StickyTo(lines, start, n)[k].data == DataLinesTo(lines, n)[k]
  {
    if n > 0 { StickyOnePerDataLine(lines, start, n - 1); }
  }

  lemma {:induction false} StickyToPrefix(a: seq<string>, b: seq<string>, start: string, n: nat)
    requires n <= |a| <= |b| && forall i | 0 <= i < n :: a[i] == b[i]
    ensures StickyTo(a, start, n) == StickyTo(b, start, n)
  {
    if n > 0 {
      StickyToPrefix(a, b, start, n - 1);
      LastNameToPrefix(a, b, start, n - 1);
    }
  }

  lemma {:induction false} StickySnoc(a: seq<string>, l: string, start: string)
    ensures Sticky(a + [l], start) ==
            if IsDataLine(l) then Sticky(a, start) + [Event(LastName(a, start), DataValue(l))] else Sticky(a, start)
  {
    StickyToPrefix(a, a + [l], start, |a|);
    LastNameToPrefix(a, a + [l], start, |a|);
  }

  lemma {:induction false} StickyConcat(a: seq<string>, b: seq<string>, start: string)
    ensures Sticky(a + b, start) == Sticky(a, start) + Sticky(b, LastName(a, start))
  {
    if b == [] {
      assert a + b == a;
    } else {
      var p, l := b[..|b| - 1], b[|b| - 1];
      StickyConcat(a, p, start);
      StickySnoc(a + p, l, start);
      StickySnoc(p, l, LastName(a, start));
      LastNameConcat(a, p, start);
      assert b == p + [l] && a + b == a + p + [l];
    }
  }

  // ---------------------------------------------------------------- counter of name lines

  datatype Kind = Thinking | ToolCall | ToolResult | ActionText | Answer | Uncounted

  function KindOf(name: string): Kind {
    if name in {"thinking", "thinking_delta", "thinking_start", "thinking_end"} then Thinking
    else if name == "tool_call" then ToolCall
    else if name == "tool_result" then ToolResult
    else if name == "action_text" then ActionText
    else if name == "answer" then Answer
    else Uncounted
  }

  datatype Counts = Counts(thinking: nat, toolCall: nat, toolResult: nat, actionText: nat, answer: nat) {
    function Of(k: Kind): nat
      requires !k.Uncounted?
    {
      match k
      case Thinking => thinking
      case ToolCall => toolCall
      case ToolResult => toolResult
      case ActionText => actionText
      case Answer => answer
    }
  }

  // The names counted as kind k; `lower` is the script's `str.lower`.
  function CountedAs(lower: string -> string, k: Kind): string -> bool {
    name => KindOf(lower(name)) == k
  }

  // Name lines among the first n whose value counts.
  function NameLinesTo(lines: seq<string>, counts: string -> bool, n: nat): nat
    requires n <= |lines|
  {
    if n == 0 then 0
    else NameLinesTo(lines, counts, n - 1) +
         if IsNameLine(lines[n - 1]) && counts(NameValue(lines[n - 1])) then 1 else 0
  }

  function NameLines(lines: seq<string>, counts: string -> bool): nat {
    NameLinesTo(lines, counts, |lines|)
  }

  // The totals over the first n lines.
  predicate Tallied(counts: Counts, lines: seq<string>, lower: string -> string, n: nat)
    requires n <= |lines|
  {
    forall k: Kind | !k.Uncounted? :: counts.Of(k) == NameLinesTo(lines, CountedAs(lower, k), n)
  }

  lemma {:induction false} TallyStep(counts: Counts, counts': Counts, lines: seq<string>, lower: string -> string,
                                     n: nat)
    requires n < |lines| && Tallied(counts, lines, lower, n)
    requires var kind := if IsNameLine(lines[n]) then KindOf(lower(NameValue(lines[n]))) else Uncounted;
             forall k: Kind | !k.Uncounted? :: counts'.Of(k) == counts.Of(k) + if k == kind then 1 else 0
    ensures Tallied(counts', lines, lower, n + 1)
  {
  }

  method SseEventCounts(text: string, lower: string -> string) returns (counts: Counts)
    ensures Tallied(counts, SplitLines(text), lower, |SplitLines(text)|)
  {
    counts := Counts(0, 0, 0, 0, 0);
    var lines := SplitLines(text);
    for i := 0 to |lines|
      invariant Tallied(counts, lines, lower, i)
    {
      ghost var was := counts;
      if IsNameLine(lines[i]) {
        var kind := KindOf(lower(NameValue(lines[i])));
        counts := match kind
          case Thinking => counts.(thinking := counts.thinking + 1)
          case ToolCall => counts.(toolCall := counts.toolCall + 1)
          case ToolResult => counts.(toolResult := counts.toolResult + 1)
          case ActionText => counts.(actionText := counts.actionText + 1)
          case Answer => counts.(answer := counts.answer + 1)
          case Uncounted => counts;
      }
      TallyStep(was, counts, lines, lower, i);
    }
  }

  lemma {:induction false} NameLinesToPrefix(a: seq<string>, b: seq<string>, counts: string -> bool, n: nat)
    requires n <= |a| <= |b| && forall i | 0 <= i < n :: a[i] == b[i]
    ensures NameLinesTo(a, counts, n) == NameLinesTo(b, counts, n)
  {
    if n > 0 { NameLinesToPrefix(a, b, counts, n - 1); }
  }

  lemma {:induction false} NameLinesSnoc(a: seq<string>, l: string, counts: string -> bool)
    ensures NameLines(a + [l], counts) ==
            NameLines(a, counts) + if IsNameLine(l) && counts(NameValue(l)) then 1 else 0
  {
    NameLinesToPrefix(a, a + [l], counts, |a|);
  }

  lemma {:induction false} NameLinesConcat(a: seq<string>, b: seq<string>, counts: string -> bool)
    ensures NameLines(a + b, counts) == NameLines(a, counts) + NameLines(b, counts)
  {
    if b == [] {
      assert a + b == a;
    } else {
      var p, l := b[..|b| - 1], b[|b| - 1];
      NameLinesConcat(a, p, counts);
      NameLinesSnoc(a + p, l, counts);
      NameLinesSnoc(p, l, counts);
      assert b == p + [l] && a + b == a + p + [l];
    }
  }

  // Events among the first n whose name counts.
  function CountedTo(es: seq<Event>, counts: string -> bool, n: nat): nat
    requires n <= |es|
  {
    if n == 0 then 0 else CountedTo(es, counts, n - 1) + if counts(es[n - 1].name) then 1 else 0
  }

  function Counted(es: seq<Event>, counts: string -> bool): nat {
    CountedTo(es, counts, |es|)
  }

  lemma {:induction false} CountedToPrefix(es: seq<Event>, fs: seq<Event>, counts: string -> bool, n: nat)
    requires n <= |es| <= |fs| && forall i | 0 <= i < n :: es[i] == fs[i]
    ensures CountedTo(es, counts, n) == CountedTo(fs, counts, n)
  {
    if n > 0 { CountedToPrefix(es, fs, counts, n - 1); }
  }

  lemma {:induction false} CountedSnoc(es: seq<Event>, e: Event, counts: string -> bool)
    ensures Counted(es + [e], counts) == Counted(es, counts) + if counts(e.name) then 1 else 0
  {
    CountedToPrefix(es, es + [e], counts, |es|);
  }

  // ---------------------------------------------------------------- counter of events

  function NamedTo(es: seq<Event>, name: string, n: nat): nat
    requires n <= |es|
  {
    if n == 0 then 0 else NamedTo(es, name, n - 1) + if es[n - 1].name == name then 1 else 0
  }

  // The counter beside the block collector
  method EventCounts(events: seq<Event>) returns (counts: map<string, nat>)
    ensures forall name :: name in counts <==> NamedTo(events, name, |events|) > 0
    ensures forall name | name in counts :: counts[name] == NamedTo(events, name, |events|)
  {
    counts := map[];
    for i := 0 to |events|
      invariant forall name :: name in counts <==> NamedTo(events, name, i) > 0
      invariant forall name | name in counts :: counts[name] == NamedTo(events, name, i)
    {
      var name := events[i].name;
      counts := counts[name := (if name in counts then counts[name] else 0) + 1];
    }
  }

  // Events among the first n whose name, or "message" for an empty one, is `name`.
  function OccurrencesTo(es: seq<Event>, name: string, n: nat): nat
    requires n <= |es|
  {
    if n == 0 then 0
    else OccurrencesTo(es, name, n - 1) + if OrMessage(es[n - 1].name) == name then 1 else 0
  }

  // The counter beside the sticky collector
  method StickyEventCounts(events: seq<Event>) returns (counts: map<string, nat>)
    ensures forall name :: name in counts <==> OccurrencesTo(events, name, |events|) > 0
    ensures forall name | name in counts :: counts[name] == OccurrencesTo(events, name, |events|)
  {
    counts := map[];
    for i := 0 to |events|
      invariant forall name :: name in counts <==> OccurrencesTo(events, name, i) > 0
      invariant forall name | name in counts :: counts[name] == OccurrencesTo(events, name, i)
    {
      var name := OrMessage(events[i].name);
      counts := counts[name := (if name in counts then counts[name] else 0) + 1];
    }
  }

  // The two counters agree where no event has an empty name, as none of the block collector has.
  lemma {:induction false} CountersAgree(es: seq<Event>, name: string, n: nat)
    requires n <= |es| && forall i | 0 <= i < n :: es[i].name != ""
    ensures NamedTo(es, name, n) == OccurrencesTo(es, name, n)
  {
    if n > 0 { CountersAgree(es, name, n - 1); }
  }

  // An event with an empty name, such as the sticky collector can give, tells them apart.
  lemma {:induction false} EmptyNameTellsApart(es: seq<Event>, n: nat, i: nat)
    requires i < n <= |es| && es[i].name == ""
    ensures NamedTo(es, "", n) > 0 == OccurrencesTo(es, "", n)
  {
    NeverEmpty(es, n);
    if i < n - 1 { EmptyNameTellsApart(es, n - 1, i); }
  }

  lemma {:induction false} NeverEmpty(es: seq<Event>, n: nat)
    requires n <= |es|
    ensures OccurrencesTo(es, "", n) == 0
  {
    if n > 0 { NeverEmpty(es, n - 1); }
  }
}
