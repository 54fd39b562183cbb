/**
 The event-stream format the scripts read, at the level of blocks.

 A stream is a list of lines; blank lines end blocks.  A block's name is the value
 of its last `event:` line ("message" when there is none or the value is empty) and
 its data are the values of its `data:` lines.  The format is loosely that of
 section 9.2.6 of the WHATWG HTML Living Standard, with the scripts' differences: the
 last block counts even without a blank line after it, and all leading whitespace of
 a data value is dropped.
 */
module EventStream {
  import opened PyText

  datatype Event = Event(name: string, data: string)

  type Block = seq<string>

  const MESSAGE := "message"

  predicate IsNameLine(l: string) { "event:" <= l }

  predicate IsDataLine(l: string) { "data:" <= l }

  // Text after the first ':' (at index 5), stripped.
  function NameValue(l: string): string
    requires IsNameLine(l)
  {
    Strip(l[6..])
  }

  // Text after the first ':' (at index 4), without leading whitespace.
  function DataValue(l: string): string
    requires IsDataLine(l)
  {
    LStrip(l[5..])
  }

  // A line no parser of a block looks at: a comment, or a field other than event and data.
  predicate Inert(l: string) {
    l != "" && !IsNameLine(l) && !IsDataLine(l)
  }

  // ---------------------------------------------------------------- one block

  // Value of the last name line among the first n lines of `b`, or `start`.
  function LastNameTo(b: Block, start: string, n: nat): string
    requires n <= |b|
  {
    if n == 0 then start
    else if IsNameLine(b[n - 1]) then NameValue(b[n - 1])
    else LastNameTo(b, start, n - 1)
  }

  function LastName(b: Block, start: string): string {
    LastNameTo(b, start, |b|)
  }

  function OrMessage(name: string): string {
    if name == "" then MESSAGE else name
  }

  function BlockName(b: Block): string {
    OrMessage(LastName(b, MESSAGE))
  }

  // Values of the data lines among the first n lines of `b`, in order.
  function DataLinesTo(b: Block, n: nat): seq<string>
    requires n <= |b|
  {
    if n == 0 then []
    else if IsDataLine(b[n - 1]) then DataLinesTo(b, n - 1) + [DataValue(b[n - 1])]
    else DataLinesTo(b, n - 1)
  }

  function DataLines(b: Block): seq<string> {
    DataLinesTo(b, |b|)
  }

  // Whether a block is dispatched: always when it has data; when data is not required,
  // also when its name is not the default one.
  predicate Dispatched(b: Block, needsData: bool) {
    DataLines(b) != [] || (!needsData && BlockName(b) != MESSAGE)
  }

  function BlockEvent(b: Block): Event {
    Event(BlockName(b), Join(DataLines(b)))
  }

  // ---------------------------------------------------------------- a stream

  // A stream cut at its blank lines: n blank lines close n blocks, and one stays open.
  datatype Cut = Cut(closed: seq<Block>, open: Block) {
    function All(): seq<Block> { closed + [open] }
  }

  // One line more: a blank one closes the open block, any other joins it.
  function Extend(c: Cut, l: string): Cut {
    if l == "" then Cut(c.closed + [c.open], []) else Cut(c.closed, c.open + [l])
  }

  // The cut of the first n lines.
  function BlocksTo(lines: seq<string>, n: nat): Cut
    requires n <= |lines|
  {
    if n == 0 then Cut([], []) else Extend(BlocksTo(lines, n - 1), lines[n - 1])
  }

  function Blocks(lines: seq<string>): Cut {
    BlocksTo(lines, |lines|)
  }

  // The events of the dispatched blocks among the first n, in order.
  function DispatchTo(bs: seq<Block>, needsData: bool, n: nat): seq<Event>
    requires n <= |bs|
  {
    if n == 0 then []
    else if Dispatched(bs[n - 1], needsData) then DispatchTo(bs, needsData, n - 1) + [BlockEvent(bs[n - 1])]
    else DispatchTo(bs, needsData, n - 1)
  }

  function Dispatch(bs: seq<Block>, needsData: bool): seq<Event> {
    DispatchTo(bs, needsData, |bs|)
  }

  function Events(lines: seq<string>, needsData: bool): seq<Event> {
    Dispatch(Blocks(lines).All(), needsData)
  }

  // The smoke script's reading of a text.
  function Parse(text: string): seq<Event> {
    Events(SplitLines(text), false)
  }

  // ---------------------------------------------------------------- one line or block more

  lemma {:induction false} BlocksToPrefix(xs: seq<string>, ys: seq<string>, n: nat)
    requires n <= |xs| <= |ys| && forall i | 0 <= i < n :: xs[i] == ys[i]
    ensures BlocksTo(xs, n) == BlocksTo(ys, n)
  {
    if n > 0 { BlocksToPrefix(xs, ys, n - 1); }
  }

  lemma {:induction false} BlocksSnoc(xs: seq<string>, l: string)
    ensures Blocks(xs + [l]) == Extend(Blocks(xs), l)
  {
    BlocksToPrefix(xs, xs + [l], |xs|);
  }

  lemma {:induction false} BlocksLast(lines: seq<string>)
    requires lines != []
    ensures Blocks(lines) == Extend(Blocks(lines[..|lines| - 1]), lines[|lines| - 1])
  {
    BlocksToPrefix(lines[..|lines| - 1], lines, |lines| - 1);
  }

  lemma {:induction false} DataLinesToPrefix(b: Block, c: Block, n: nat)
    requires n <= |b| <= |c| && forall i | 0 <= i < n :: b[i] == c[i]
    ensures DataLinesTo(b, n) == DataLinesTo(c, n)
  {
    if n > 0 { DataLinesToPrefix(b, c, n - 1); }
  }

  lemma {:induction false} DataLinesSnoc(b: Block, l: string)
    ensures DataLines(b + [l]) == if IsDataLine(l) then DataLines(b) + [DataValue(l)] else DataLines(b)
  {
    DataLinesToPrefix(b, b + [l], |b|);
  }

  lemma {:induction false} LastNameToPrefix(b: Block, c: Block, start: string, n: nat)
    requires n <= |b| <= |c| && forall i | 0 <= i < n :: b[i] == c[i]
    ensures LastNameTo(b, start, n) == LastNameTo(c, start, n)
  {
    if n > 0 { LastNameToPrefix(b, c, start, n - 1); }
  }

  lemma {:induction false} LastNameSnoc(b: Block, l: string, start: string)
    ensures LastName(b + [l], start) == if IsNameLine(l) then NameValue(l) else LastName(b, start)
  {
    LastNameToPrefix(b, b + [l], start, |b|);
  }

  lemma {:induction false} DispatchToPrefix(bs: seq<Block>, cs: seq<Block>, needsData: bool, n: nat)
    requires n <= |bs| <= |cs| && forall i | 0 <= i < n :: bs[i] == cs[i]
    ensures DispatchTo(bs, needsData, n) == DispatchTo(cs, needsData, n)
  {
    if n > 0 { DispatchToPrefix(bs, cs, needsData, n - 1); }
  }

  lemma {:induction false} DispatchSnoc(bs: seq<Block>, b: Block, needsData: bool)
    ensures Dispatch(bs + [b], needsData) ==
            if Dispatched(b, needsData) then Dispatch(bs, needsData) + [BlockEvent(b)] else Dispatch(bs, needsData)
  {
    DispatchToPrefix(bs, bs + [b], needsData, |bs|);
  }

  lemma {:induction false} DispatchOne(b: Block, needsData: bool)
    ensures Dispatch([b], needsData) == if Dispatched(b, needsData) then [BlockEvent(b)] else []
  {
    DispatchSnoc([], b, needsData);
    assert [] + [b] == [b];
  }

  // ---------------------------------------------------------------- what Blocks means

  // Each block with a blank line after it.
  function Unblocks(bs: seq<Block>): seq<string> {
    if bs == [] then [] else Unblocks(bs[..|bs| - 1]) + bs[|bs| - 1] + [""]
  }

  // Blocks is the cut at blank lines: putting the blank lines back gives the stream, and
  // no block has one inside.
  lemma {:induction false} BlocksCutAtBlanks(lines: seq<string>)
    ensures Unblocks(Blocks(lines).closed) + Blocks(lines).open == lines
    ensures "" !in Blocks(lines).open && forall b | b in Blocks(lines).closed :: "" !in b
  {
    if lines != [] {
      var p, l := lines[..|lines| - 1], lines[|lines| - 1];
      BlocksCutAtBlanks(p);
      BlocksLast(lines);
      var c := Blocks(p);
      assert lines == p + [l];
      assert (c.closed + [c.open])[..|c.closed|] == c.closed;
    }
  }

  lemma {:induction false} BlocksConcat(xs: seq<string>, ys: seq<string>)
    ensures Blocks(xs + [""] + ys) == Cut(Blocks(xs).All() + Blocks(ys).closed, Blocks(ys).open)
  {
    if ys == [] {
      BlocksSnoc(xs, "");
      assert xs + [""] + ys == xs + [""];
    } else {
      var p, l := ys[..|ys| - 1], ys[|ys| - 1];
      var all, c := Blocks(xs).All(), Blocks(p);
      BlocksLast(ys);
      calc {
        Blocks(xs + [""] + ys);
        { assert xs + [""] + ys == xs + [""] + p + [l]; }
        Blocks(xs + [""] + p + [l]);
        { BlocksSnoc(xs + [""] + p, l); }
        Extend(Blocks(xs + [""] + p), l);
        { BlocksConcat(xs, p); }
        Extend(Cut(all + c.closed, c.open), l);
        { assert all + c.closed + [c.open] == all + (c.closed + [c.open]); }
        Cut(all + Extend(c, l).closed, Extend(c, l).open);
      }
    }
  }

  lemma {:induction false} DispatchConcat(bs: seq<Block>, cs: seq<Block>, needsData: bool)
    ensures Dispatch(bs + cs, needsData) == Dispatch(bs, needsData) + Dispatch(cs, needsData)
  {
    if cs == [] {
      assert bs + cs == bs;
    } else {
      var k := |cs| - 1;
      DispatchConcat(bs, cs[..k], needsData);
      DispatchSnoc(cs[..k], cs[k], needsData);
      DispatchSnoc(bs + cs[..k], cs[k], needsData);
      assert cs == cs[..k] + [cs[k]] && bs + cs == bs + cs[..k] + [cs[k]];
    }
  }

  // A blank line separates streams: the events before it and after it do not mix.
  lemma {:induction false} EventsConcat(xs: seq<string>, ys: seq<string>, needsData: bool)
    ensures Events(xs + [""] + ys, needsData) == Events(xs, needsData) + Events(ys, needsData)
  {
    BlocksConcat(xs, ys);
    var all, c := Blocks(xs).All(), Blocks(ys);
    assert all + c.closed + [c.open] == all + c.All();
    DispatchConcat(all, c.All(), needsData);
  }

  lemma {:induction false} OneBlock(b: Block)
    requires "" !in b
    ensures Blocks(b) == Cut([], b)
  {
    if b != [] {
      var p, l := b[..|b| - 1], b[|b| - 1];
      OneBlock(p);
      BlocksSnoc(p, l);
      assert l in b && b == p + [l];
    }
  }

  lemma {:induction false} EventsOfBlock(b: Block, needsData: bool)
    requires "" !in b
    ensures Events(b, needsData) == if Dispatched(b, needsData) then [BlockEvent(b)] else []
  {
    OneBlock(b);
    DispatchOne(b, needsData);
    assert [] + [b] == [b];
  }

  lemma {:induction false} DataLinesConcat(a: Block, b: Block)
    ensures DataLines(a + b) == DataLines(a) + DataLines(b)
  {
    if b == [] {
      assert a + b == a;
    } else {
      var p, l := b[..|b| - 1], b[|b| - 1];
      DataLinesConcat(a, p);
      DataLinesSnoc(p, l);
      DataLinesSnoc(a + p, l);
      assert b == p + [l] && a + b == a + p + [l];
    }
  }

  lemma {:induction false} LastNameConcat(a: Block, b: Block, start: string)
    ensures LastName(a + b, start) == LastName(b, LastName(a, start))
  {
    if b == [] {
      assert a + b == a;
    } else {
      var p, l := b[..|b| - 1], b[|b| - 1];
      LastNameConcat(a, p, start);
      LastNameSnoc(p, l, LastName(a, start));
      LastNameSnoc(a + p, l, start);
      assert b == p + [l] && a + b == a + p + [l];
    }
  }

  // ---------------------------------------------------------------- inert lines

  function DropInert(lines: seq<string>): seq<string> {
    if lines == [] then []
    else
      var kept := DropInert(lines[..|lines| - 1]);
      if Inert(lines[|lines| - 1]) then kept else kept + [lines[|lines| - 1]]
  }

  lemma {:induction false} DropInertSnoc(b: Block, l: string)
    ensures DropInert(b + [l]) == if Inert(l) then DropInert(b) else DropInert(b) + [l]
  {
    assert (b + [l])[..|b|] == b;
  }

  lemma {:induction false} DropInertInBlock(b: Block, start: string)
    ensures DataLines(DropInert(b)) == DataLines(b)
    ensures LastName(DropInert(b), start) == LastName(b, start)
  {
    if b != [] {
      var n := |b| - 1;
      var p, l := b[..n], b[n];
      DropInertInBlock(p, start);
      assert b == p + [l];
      DataLinesSnoc(p, l);
      LastNameSnoc(p, l, start);
      DataLinesSnoc(DropInert(p), l);
      LastNameSnoc(DropInert(p), l, start);
    }
  }

  predicate DroppedInert(c: Cut, d: Cut) {
    && |c.closed| == |d.closed| && c.open == DropInert(d.open)
    && forall i | 0 <= i < |d.closed| :: c.closed[i] == DropInert(d.closed[i])
  }

  lemma {:induction false} DropInertBlocks(lines: seq<string>)
    ensures DroppedInert(Blocks(DropInert(lines)), Blocks(lines))
  {
    if lines != [] {
      var p, l := lines[..|lines| - 1], lines[|lines| - 1];
      DropInertBlocks(p);
      BlocksLast(lines);
      DropInertSnoc(Blocks(p).open, l);
      if !Inert(l) { BlocksSnoc(DropInert(p), l); }
    }
  }

  lemma {:induction false} DispatchPointwise(bs: seq<Block>, cs: seq<Block>, needsData: bool, n: nat)
    requires n <= |bs| == |cs|
    requires forall i | 0 <= i < n ::
               DataLines(bs[i]) == DataLines(cs[i]) && LastName(bs[i], MESSAGE) == LastName(cs[i], MESSAGE)
    ensures DispatchTo(bs, needsData, n) == DispatchTo(cs, needsData, n)
  {
    if n > 0 { DispatchPointwise(bs, cs, needsData, n - 1); }
  }

  // Comments and unknown fields never change the events, wherever they stand.
  lemma {:induction false} InertLinesInvisible(lines: seq<string>, needsData: bool)
    ensures Events(DropInert(lines), needsData) == Events(lines, needsData)
  {
    DropInertBlocks(lines);
    var bs, cs := Blocks(lines).All(), Blocks(DropInert(lines)).All();
    forall i | 0 <= i < |bs|
      ensures DataLines(bs[i]) == DataLines(cs[i]) && LastName(bs[i], MESSAGE) == LastName(cs[i], MESSAGE)
    {
      assert cs[i] == DropInert(bs[i]);
      DropInertInBlock(bs[i], MESSAGE);
    }
    DispatchPointwise(cs, bs, needsData, |bs|);
  }

  // ---------------------------------------------------------------- printing

  predicate PrintableName(name: string) {
    name != "" && Trimmed(name) && BreakFree(name)
  }

  predicate PrintableData(data: string) {
    forall d | d in SplitNewline(data) :: LeftTrimmed(d) && BreakFree(d)
  }

  predicate Printable(e: Event) {
    PrintableName(e.name) && PrintableData(e.data)
  }

  predicate AllPrintable(es: seq<Event>) {
    forall e | e in es :: Printable(e)
  }

  function RenderData(ds: seq<string>): seq<string> {
    if ds == [] then [] else RenderData(ds[..|ds| - 1]) + ["data: " + ds[|ds| - 1]]
  }

  // One `event:` line and one `data: ` line per line of data.
  function RenderBody(e: Event): Block {
    ["event: " + e.name] + RenderData(SplitNewline(e.data))
  }

  function Render(es: seq<Event>): seq<string> {
    if es == [] then [] else RenderBody(es[0]) + [""] + Render(es[1..])
  }

  lemma {:induction false} StripAfterBlank(s: string)
    ensures LeftTrimmed(s) ==> LStrip(" " + s) == s
    ensures Trimmed(s) ==> Strip(" " + s) == s
  {
    var t := " " + s;
    assert t[1..] == s;
    if LeftTrimmed(s) {
      assert s != "" ==> t[1] == s[0];
      assert SkipSpaces(t, 0) == SkipSpaces(t, 1) == 1;
    }
  }

  lemma {:induction false} PrefixedLine(p: string, s: string)
    requires BreakFree(p) && BreakFree(s)
    ensures BreakFree(p + s) && p <= p + s && (p + s)[|p|..] == s
  {
  }

  lemma {:induction false} RenderedDataLine(d: string)
    requires LeftTrimmed(d) && BreakFree(d)
    ensures var l := "data: " + d; IsDataLine(l) && !IsNameLine(l) && DataValue(l) == d && BreakFree(l)
  {
    var p, v := "data:", " " + d;
    assert "data: " + d == p + v;
    assert BreakFree(p) && BreakFree(v);
    PrefixedLine(p, v);
    StripAfterBlank(d);
    assert (p + v)[0] == 'd';
  }

  lemma {:induction false} RenderedNameLine(n: string)
    requires PrintableName(n)
    ensures var l := "event: " + n; IsNameLine(l) && !IsDataLine(l) && NameValue(l) == n && BreakFree(l)
  {
    var p, v := "event:", " " + n;
    assert "event: " + n == p + v;
    assert BreakFree(p) && BreakFree(v);
    PrefixedLine(p, v);
    StripAfterBlank(n);
    assert (p + v)[0] == 'e';
  }

  lemma {:induction false} RenderDataParses(ds: seq<string>, start: string)
    requires forall d | d in ds :: LeftTrimmed(d) && BreakFree(d)
    ensures DataLines(RenderData(ds)) == ds
    ensures LastName(RenderData(ds), start) == start
    ensures forall l | l in RenderData(ds) :: l != "" && BreakFree(l)
  {
    if ds != [] {
      var k := |ds| - 1;
      assert ds[k] in ds;
      RenderDataParses(ds[..k], start);
      RenderedDataLine(ds[k]);
      DataLinesSnoc(RenderData(ds[..k]), "data: " + ds[k]);
      LastNameSnoc(RenderData(ds[..k]), "data: " + ds[k], start);
    }
  }

  lemma {:induction false} RenderBodyParses(e: Event)
    requires Printable(e)
    ensures BlockEvent(RenderBody(e)) == e && DataLines(RenderBody(e)) != []
    ensures forall l | l in RenderBody(e) :: l != "" && BreakFree(l)
  {
    var ds, h := SplitNewline(e.data), "event: " + e.name;
    RenderedNameLine(e.name);
    RenderDataParses(ds, e.name);
    DataLinesSnoc([], h);
    LastNameSnoc([], h, MESSAGE);
    assert [] + [h] == [h];
    DataLinesConcat([h], RenderData(ds));
    LastNameConcat([h], RenderData(ds), MESSAGE);
    assert DataLines(RenderBody(e)) == ds;
    JoinSplitNewline(e.data);
  }

  // Every parser of blocks reads back the printed events.
  lemma {:induction false} RenderParses(es: seq<Event>, needsData: bool)
    requires AllPrintable(es)
    ensures Events(Render(es), needsData) == es
    ensures forall l | l in Render(es) :: BreakFree(l)
  {
    if es == [] {
      EventsOfBlock([], needsData);
    } else {
      var b := RenderBody(es[0]);
      RenderBodyParses(es[0]);
      RenderParses(es[1..], needsData);
      EventsConcat(b, Render(es[1..]), needsData);
      EventsOfBlock(b, needsData);
    }
  }

  // ---------------------------------------------------------------- the range of the parser

  lemma {:induction false} DataLinesShape(b: Block, n: nat)
    requires n <= |b| && forall l | l in b :: BreakFree(l)
    ensures forall d | d in DataLinesTo(b, n) :: LeftTrimmed(d) && BreakFree(d)
  {
    if n > 0 {
      DataLinesShape(b, n - 1);
      assert b[n - 1] in b;
      if IsDataLine(b[n - 1]) { LStripTrims(b[n - 1][5..]); }
    }
  }

  lemma {:induction false} LastNameShape(b: Block, start: string, n: nat)
    requires n <= |b| && forall l | l in b :: BreakFree(l)
    requires Trimmed(start) && BreakFree(start)
    ensures Trimmed(LastNameTo(b, start, n)) && BreakFree(LastNameTo(b, start, n))
  {
    if n > 0 {
      LastNameShape(b, start, n - 1);
      assert b[n - 1] in b;
      if IsNameLine(b[n - 1]) { StripTrims(b[n - 1][6..]); }
    }
  }

  lemma {:induction false} BlockEventPrintable(b: Block)
    requires forall l | l in b :: BreakFree(l)
    ensures Printable(BlockEvent(b))
  {
    DataLinesShape(b, |b|);
    LastNameShape(b, MESSAGE, |b|);
    var ds := DataLines(b);
    if ds != [] {
      forall d | d in ds ensures '\n' !in d {
        assert IsBreak('\n');
      }
      SplitNewlineJoin(ds);
    } else {
      assert SplitNewline("") == [""];
    }
  }

  lemma {:induction false} BlocksBreakFree(lines: seq<string>)
    requires forall l | l in lines :: BreakFree(l)
    ensures forall b, l | b in Blocks(lines).All() && l in b :: BreakFree(l)
  {
    if lines != [] {
      var n := |lines| - 1;
      BlocksBreakFree(lines[..n]);
      BlocksLast(lines);
      var c := Blocks(lines[..n]);
      assert lines[n] in lines && c.open in c.All();
      assert forall b | b in c.closed :: b in c.All();
    }
  }

  lemma {:induction false} DispatchPrintable(bs: seq<Block>, needsData: bool, n: nat)
    requires n <= |bs| && forall b, l | b in bs && l in b :: BreakFree(l)
    ensures AllPrintable(DispatchTo(bs, needsData, n))
  {
    if n > 0 {
      DispatchPrintable(bs, needsData, n - 1);
      assert bs[n - 1] in bs;
      BlockEventPrintable(bs[n - 1]);
    }
  }

  lemma {:induction false} EventsPrintable(lines: seq<string>, needsData: bool)
    requires forall l | l in lines :: BreakFree(l)
    ensures AllPrintable(Events(lines, needsData))
  {
    BlocksBreakFree(lines);
    DispatchPrintable(Blocks(lines).All(), needsData, |Blocks(lines).All()|);
  }

  // ---------------------------------------------------------------- whole texts

  // Any text whose lines, comments and unknown fields aside, are the printed events
  // parses to those events.
  lemma {:induction false} CommentedRoundTrip(es: seq<Event>, text: string)
    requires AllPrintable(es)
    requires DropInert(SplitLines(text)) == Render(es)
    ensures Parse(text) == es
  {
    InertLinesInvisible(SplitLines(text), false);
    RenderParses(es, false);
  }

  // Printed events come back exactly when they are printable, whatever mix of "\n" and
  // "\r\n" ends the lines.
  lemma {:induction false} RoundTripIff(es: seq<Event>, crlf: seq<bool>)
    requires |crlf| == |Render(es)|
    ensures Parse(Unlines(Render(es), crlf)) == es <==> AllPrintable(es)
  {
    if AllPrintable(es) {
      RenderParses(es, false);
      SplitLinesUnlines(Render(es), crlf);
    }
    SplitLinesBreakFree(Unlines(Render(es), crlf));
    EventsPrintable(SplitLines(Unlines(Render(es), crlf)), false);
  }

  // Parsing normalizes: printing what was parsed and parsing again changes nothing.
  lemma {:induction false} ParseNormalizes(text: string, crlf: seq<bool>)
    requires |crlf| == |Render(Parse(text))|
    ensures Parse(Unlines(Render(Parse(text)), crlf)) == Parse(text)
  {
    SplitLinesBreakFree(text);
    EventsPrintable(SplitLines(text), false);
    RoundTripIff(Parse(text), crlf);
  }

  // The parts of a text after its first break, and of that text with more put behind it.
  lemma {:induction false} SplitLinesStep(x: string)
    requires FirstBreak(x) < |x|
    ensures var k := FirstBreak(x);
            SplitLines(x) == [x[..k]] + SplitLines(x[k + BreakWidth(x, k)..])
  {
  }

  lemma {:induction false} FirstBreakStable(x: string, y: string)
    requires FirstBreak(x) < |x|
    ensures var k := FirstBreak(x);
            && FirstBreak(x + y) == k
            && (x + y)[..k] == x[..k]
            && (BreakWidth(x + y, k) == BreakWidth(x, k)
                || (k + 1 == |x| && x[k] == '\r' && y != "" && y[0] == '\n' && BreakWidth(x + y, k) == 2))
  {
    var k := FirstBreak(x);
    assert forall i | 0 <= i < |x| :: (x + y)[i] == x[i];
    FindBreakIsFirst(x, 0);
    FirstBreakIs(x + y, k);
    if k + 1 == |x| && y != "" { assert (x + y)[k + 1] == y[0]; }
  }

  // What is left of `x + "\n" + z` after the first break of `x`.
  lemma {:induction false} AfterFirstBreak(x: string, z: string)
    requires FirstBreak(x) < |x|
    ensures var k := FirstBreak(x); var s := x + "\n" + z;
            var x', s' := x[k + BreakWidth(x, k)..], s[k + BreakWidth(s, k)..];
            && FirstBreak(s) == k < |s| && s[..k] == x[..k]
            && (if x[k] == '\r' && k + 1 == |x| then x' == "" && s' == z else s' == x' + "\n" + z)
  {
    var k, y := FirstBreak(x), "\n" + z;
    FirstBreakStable(x, y);
    assert x + y == x + "\n" + z;
    assert (x + y)[k] == x[k];
  }

  // The first line of `x`, then the rest `x'` of `x`, with or without a text behind it.
  function Rest(x: string): string
    requires FirstBreak(x) < |x|
  {
    x[FirstBreak(x) + BreakWidth(x, FirstBreak(x))..]
  }

  predicate EndsInCR(x: string)
    requires FirstBreak(x) < |x|
  {
    x[FirstBreak(x)] == '\r' && FirstBreak(x) + 1 == |x|
  }

  lemma {:induction false} FirstLine(x: string, z: string)
    requires FirstBreak(x) < |x|
    ensures var h, s := x[..FirstBreak(x)], x + "\n" + z;
            && SplitLines(x) == [h] + SplitLines(Rest(x))
            && (if EndsInCR(x) then SplitLines(s) == [h] + SplitLines(z) && Rest(x) == ""
                else SplitLines(s) == [h] + SplitLines(Rest(x) + "\n" + z))
  {
    AfterFirstBreak(x, z);
    SplitLinesStep(x);
    SplitLinesStep(x + "\n" + z);
  }

  lemma {:induction false} FirstLineEnded(x: string)
    requires FirstBreak(x) < |x|
    ensures var h := x[..FirstBreak(x)];
            SplitLines(x + "\n") == [h] + (if EndsInCR(x) then [] else SplitLines(Rest(x) + "\n"))
  {
    FirstLine(x, "");
    assert x + "\n" + "" == x + "\n" && Rest(x) + "\n" + "" == Rest(x) + "\n";
  }

  lemma {:induction false} AtNewlineBase(x: string, z: string)
    requires BreakFree(x)
    ensures SplitLines(x + "\n" + z) == SplitLines(x + "\n") + SplitLines(z)
  {
    SplitLinesHead(x, false, z);
    SplitLinesHead(x, false, "");
    assert x + "\n" + "" == x + "\n";
  }

  lemma {:induction false} AtNewlineStep(x: string, z: string)
    requires FirstBreak(x) < |x|
    requires !EndsInCR(x) ==> SplitLines(Rest(x) + "\n" + z) == SplitLines(Rest(x) + "\n") + SplitLines(z)
    ensures SplitLines(x + "\n" + z) == SplitLines(x + "\n") + SplitLines(z)
  {
    FirstLine(x, z);
    FirstLineEnded(x);
    Prepend(x[..FirstBreak(x)], SplitLines(Rest(x) + "\n"), SplitLines(z));
  }

  lemma {:induction false} Prepend(h: string, xs: seq<string>, ys: seq<string>)
    ensures [h] + (xs + ys) == [h] + xs + ys
  {
  }

  // A "\n" always ends a line: what follows it is split on its own.
  lemma {:induction false} SplitLinesAtNewline(x: string, z: string)
    ensures SplitLines(x + "\n" + z) == SplitLines(x + "\n") + SplitLines(z)
    decreases |x|
  {
    FindBreakIsFirst(x, 0);
    if FirstBreak(x) == |x| {
      AtNewlineBase(x, z);
    } else {
      if !EndsInCR(x) { SplitLinesAtNewline(Rest(x), z); }
      AtNewlineStep(x, z);
    }
  }

  // A final "\n" adds no line, or an empty one when the text already ended in a break.
  lemma {:induction false} SplitLinesFinalNewline(x: string)
    ensures SplitLines(x + "\n") == SplitLines(x) || SplitLines(x + "\n") == SplitLines(x) + [""]
    decreases |x|
  {
    FindBreakIsFirst(x, 0);
    if FirstBreak(x) == |x| {
      SplitLinesHead(x, false, "");
      assert x + "\n" + "" == x + "\n";
    } else {
      FirstLine(x, "");
      FirstLineEnded(x);
      if !EndsInCR(x) { SplitLinesFinalNewline(Rest(x)); }
    }
  }

  // A blank line between two texts separates them, for all texts.
  lemma {:induction false} ParseConcat(x: string, y: string)
    ensures Parse(x + "\n\n" + y) == Parse(x) + Parse(y)
  {
    var z := "\n" + y;
    var xs, ys := SplitLines(x), SplitLines(y);
    assert SplitLines(z) == [""] + ys by {
      SplitLinesHead("", false, y);
      assert "" + "\n" + y == z;
    }
    assert x + "\n\n" + y == x + "\n" + z;
    SplitLinesAtNewline(x, z);
    SplitLinesFinalNewline(x);
    if SplitLines(x + "\n") == xs {
      assert xs + ([""] + ys) == xs + [""] + ys;
      EventsConcat(xs, ys, false);
    } else {
      ExtraBlank(ys);
      EventsConcat(xs, [""] + ys, false);
    }
  }

  lemma {:induction false} ExtraBlank(ys: seq<string>)
    ensures Events([""] + ys, false) == Events(ys, false)
  {
    RenderParses([], false);
    EventsConcat([], ys, false);
    assert [] + [""] + ys == [""] + ys;
  }
}
