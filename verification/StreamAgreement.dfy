/**
 Where the readers of the stream agree with each other: exactly when, and on streams whose
 blocks are a name line with a nonempty value followed by data lines, with inert lines
 anywhere.
 */
module StreamAgreement {
  import opened PyText
  import opened EventStream
  import opened Collectors
  import T = ToolTrace

  // An empty block, or a name line with a value and then data lines.
  predicate Named(b: Block) {
    b == [] ||
    (|b| >= 2 && T.Naming(b[0]) && forall i | 1 <= i < |b| :: IsDataLine(b[i]))
  }

  // Named, with one data line.
  predicate Simple(b: Block) {
    Named(b) && |b| <= 2
  }

  predicate AllNamed(bs: seq<Block>) {
    forall i | 0 <= i < |bs| :: Named(bs[i])
  }

  predicate AllSimple(bs: seq<Block>) {
    forall i | 0 <= i < |bs| :: Simple(bs[i])
  }

  // What a named block says.
  lemma {:induction false} NamedPrefix(b: Block, n: nat)
    requires Named(b) && 1 <= n <= |b|
    ensures LastNameTo(b, MESSAGE, n) == NameValue(b[0])
    ensures |DataLinesTo(b, n)| == n - 1
  {
    LineStep([], b[n - 1]);
    if n > 1 { NamedPrefix(b, n - 1); }
  }

  lemma {:induction false} NamedBlockEvent(b: Block)
    requires Named(b)
    ensures b == [] ==> !Dispatched(b, true) && !Dispatched(b, false)
    ensures b != [] ==> Dispatched(b, true) && BlockEvent(b) == Event(NameValue(b[0]), Join(DataLines(b)))
  {
    if b != [] { NamedPrefix(b, |b|); }
  }

  // ---------------------------------------------------------------- tool trace

  lemma {:induction false} FieldSteps(s: T.State, l: string)
    ensures IsDataLine(l) ==> T.Step(s, l) == s.(data := s.data + [DataValue(l)])
    ensures IsNameLine(l) && s.name == "" ==> T.Step(s, l) == s.(name := NameValue(l))
    ensures l == "" ==> T.Step(s, l) == T.Committed(s)
  {
    LineStep([], l);
    StripEmptyIff("");
    assert !IsNameLine("") && !IsDataLine("");
  }

  lemma {:induction false} TraceOfBlock(b: Block, n: nat, done: seq<T.Group>)
    requires Named(b) && b != [] && 1 <= n <= |b|
    ensures T.RunTo(T.State(done, "", []), b, n) == T.State(done, NameValue(b[0]), DataLinesTo(b, n))
  {
    var s := T.State(done, "", []);
    if n > 1 {
      TraceOfBlock(b, n - 1, done);
      FieldSteps(T.State(done, NameValue(b[0]), DataLinesTo(b, n - 1)), b[n - 1]);
    } else {
      FieldSteps(s, b[0]);
      assert T.RunTo(s, b, 0) == s;
      NamedPrefix(b, 1);
    }
  }

  // The events of named blocks, as the trace builder groups them.
  function GroupsTo(bs: seq<Block>, n: nat): seq<T.Group>
    requires n <= |bs|
  {
    if n == 0 then []
    else if bs[n - 1] == [] then GroupsTo(bs, n - 1)
    else GroupsTo(bs, n - 1) + [T.Group(LastName(bs[n - 1], MESSAGE), DataLines(bs[n - 1]))]
  }

  lemma {:induction false} TraceOfOpen(b: Block, done: seq<T.Group>)
    requires Named(b)
    ensures T.Committed(T.Run(T.State(done, "", []), b)) ==
            T.State(if b == [] then done else done + [T.Group(LastName(b, MESSAGE), DataLines(b))], "", [])
  {
    if b != [] {
      TraceOfBlock(b, |b|, done);
      NamedPrefix(b, |b|);
    }
  }

  lemma {:induction false} TraceOfClosed(b: Block, done: seq<T.Group>)
    requires Named(b)
    ensures T.Run(T.State(done, "", []), b + [""]) ==
            T.State(if b == [] then done else done + [T.Group(LastName(b, MESSAGE), DataLines(b))], "", [])
  {
    TraceOfOpen(b, done);
    RunClosed(T.State(done, "", []), b);
  }

  // A blank line commits.
  lemma {:induction false} RunClosed(s: T.State, b: Block)
    ensures T.Run(s, b + [""]) == T.Committed(T.Run(s, b))
  {
    T.RunConcat(s, b, [""], 1);
    FieldSteps(T.Run(s, b), "");
    assert T.RunTo(T.Run(s, b), [""], 0) == T.Run(s, b);
  }

  function UnblocksTo(bs: seq<Block>, n: nat): seq<string>
    requires n <= |bs|
  {
    if n == 0 then [] else UnblocksTo(bs, n - 1) + (bs[n - 1] + [""])
  }

  lemma {:induction false} UnblocksAreUnblocks(bs: seq<Block>, n: nat)
    requires n <= |bs|
    ensures UnblocksTo(bs, n) == Unblocks(bs[..n])
  {
    if n > 0 {
      UnblocksAreUnblocks(bs, n - 1);
      assert bs[..n][..n - 1] == bs[..n - 1];
      assert Unblocks(bs[..n]) == Unblocks(bs[..n - 1]) + bs[n - 1] + [""];
    }
  }

  lemma {:induction false} TraceOfBlocks(bs: seq<Block>, n: nat)
    requires n <= |bs| && AllNamed(bs)
    ensures T.Run(T.INITIAL, UnblocksTo(bs, n)) == T.State(GroupsTo(bs, n), "", [])
  {
    if n > 0 {
      TraceOfBlocks(bs, n - 1);
      TraceOfClosed(bs[n - 1], GroupsTo(bs, n - 1));
      T.RunJoin(T.INITIAL, UnblocksTo(bs, n - 1), bs[n - 1] + [""],
                T.State(GroupsTo(bs, n - 1), "", []), T.State(GroupsTo(bs, n), "", []));
    }
  }

  // Tool events among the first n.
  function ToolEventsTo(es: seq<Event>, n: nat): seq<Event>
    requires n <= |es|
  {
    if n == 0 then []
    else if T.IsTool(es[n - 1].name) then ToolEventsTo(es, n - 1) + [es[n - 1]]
    else ToolEventsTo(es, n - 1)
  }

  function ToolEvents(es: seq<Event>): seq<Event> {
    ToolEventsTo(es, |es|)
  }

  lemma {:induction false} ToolEventsToPrefix(es: seq<Event>, fs: seq<Event>, n: nat)
    requires n <= |es| <= |fs| && forall i | 0 <= i < n :: es[i] == fs[i]
    ensures ToolEventsTo(es, n) == ToolEventsTo(fs, n)
  {
    if n > 0 { ToolEventsToPrefix(es, fs, n - 1); }
  }

  lemma {:induction false} ToolEventsSnoc(es: seq<Event>, e: Event)
    ensures ToolEvents(es + [e]) == if T.IsTool(e.name) then ToolEvents(es) + [e] else ToolEvents(es)
  {
    ToolEventsToPrefix(es, es + [e], |es|);
  }

  lemma {:induction false} EntriesOfGroups(bs: seq<Block>, n: nat)
    requires n <= |bs| && AllNamed(bs)
    ensures T.Entries(GroupsTo(bs, n)) == ToolEvents(DispatchTo(bs, true, n))
  {
    if n > 0 {
      EntriesOfGroups(bs, n - 1);
      var b := bs[n - 1];
      NamedBlockEvent(b);
      if b != [] {
        NamedPrefix(b, |b|);
        T.EntriesSnoc(GroupsTo(bs, n - 1), T.Group(LastName(b, MESSAGE), DataLines(b)));
        ToolEventsSnoc(DispatchTo(bs, true, n - 1), BlockEvent(b));
      }
    }
  }

  // The whole stream, blank lines after each block but the last.
  lemma {:induction false} StreamOfBlocks(lines: seq<string>)
    ensures var c := Blocks(lines);
            UnblocksTo(c.closed, |c.closed|) + c.open == lines
  {
    var bs := Blocks(lines).closed;
    BlocksCutAtBlanks(lines);
    UnblocksAreUnblocks(bs, |bs|);
    assert bs[..|bs|] == bs;
  }

  lemma {:induction false} AllOfCut(c: Cut)
    ensures AllNamed(c.All()) <==> AllNamed(c.closed) && Named(c.open)
    ensures AllSimple(c.All()) <==> AllSimple(c.closed) && Simple(c.open)
  {
    assert forall i | 0 <= i < |c.closed| :: c.All()[i] == c.closed[i];
    assert c.All()[|c.closed|] == c.open;
  }

  lemma {:induction false} GroupsToPrefix(bs: seq<Block>, cs: seq<Block>, n: nat)
    requires n <= |bs| <= |cs| && forall i | 0 <= i < n :: bs[i] == cs[i]
    ensures GroupsTo(bs, n) == GroupsTo(cs, n)
  {
    if n > 0 { GroupsToPrefix(bs, cs, n - 1); }
  }

  lemma {:induction false} GroupsSnoc(bs: seq<Block>, b: Block)
    ensures GroupsTo(bs + [b], |bs| + 1) ==
            if b == [] then GroupsTo(bs, |bs|)
            else GroupsTo(bs, |bs|) + [T.Group(LastName(b, MESSAGE), DataLines(b))]
  {
    GroupsToPrefix(bs, bs + [b], |bs|);
  }

  lemma {:induction false} TraceOfStream(lines: seq<string>)
    requires AllNamed(Blocks(lines).All())
    ensures var all := Blocks(lines).All(); T.Final(lines).done == GroupsTo(all, |all|)
  {
    var c := Blocks(lines);
    var k := |c.closed|;
    AllOfCut(c);
    StreamOfBlocks(lines);
    TraceOfBlocks(c.closed, k);
    var middle := T.State(GroupsTo(c.closed, k), "", []);
    var end := T.Run(middle, c.open);
    T.RunJoin(T.INITIAL, UnblocksTo(c.closed, k), c.open, middle, end);
    TraceOfOpen(c.open, GroupsTo(c.closed, k));
    GroupsSnoc(c.closed, c.open);
  }

  // On named streams the tool trace is the tool events of the collector, in order.
  lemma {:induction false} TraceIsToolEvents(lines: seq<string>)
    requires AllNamed(Blocks(lines).All())
    ensures T.Entries(T.Final(lines).done) == ToolEvents(Events(lines, true))
  {
    TraceOfStream(lines);
    EntriesOfGroups(Blocks(lines).All(), |Blocks(lines).All()|);
  }

  // ---------------------------------------------------------------- both block parsers

  // On named streams the two block parsers agree.
  lemma {:induction false} BlockParsersAgree(lines: seq<string>)
    requires AllNamed(Blocks(lines).All())
    ensures Events(lines, true) == Events(lines, false)
  {
    var bs := Blocks(lines).All();
    forall b | b in bs ensures !BareName(b) {
      var i :| 0 <= i < |bs| && bs[i] == b;
      assert Named(bs[i]);
      NamedBlockEvent(b);
    }
    CollectorEqualsSmokeIff(lines);
  }

  // ---------------------------------------------------------------- sticky collector

  // At most one data line, and the name in force there is the name of the block.
  ghost predicate OneSource(b: Block, start: string) {
    && |DataLines(b)| <= 1
    && forall i :: 0 <= i < |b| && IsDataLine(b[i]) ==> LastNameTo(b, start, i) == BlockName(b)
  }

  // The name the sticky collector brings into block k.
  function NameBefore(bs: seq<Block>, k: nat): string
    requires k <= |bs|
  {
    LastName(UnblocksTo(bs, k), MESSAGE)
  }

  // Each of the first n blocks
  ghost predicate AllOneSource(bs: seq<Block>, n: nat)
    requires n <= |bs|
  {
    n == 0 || (AllOneSource(bs, n - 1) && OneSource(bs[n - 1], NameBefore(bs, n - 1)))
  }

  lemma {:induction false} NoDataLine(b: Block, n: nat, i: nat)
    requires i < n <= |b| && DataLinesTo(b, n) == []
    ensures !IsDataLine(b[i])
  {
    if i < n - 1 { NoDataLine(b, n - 1, i); }
  }

  lemma {:induction false} OnlyDataLine(b: Block, start: string, n: nat) returns (i: nat)
    requires n <= |b| && |DataLinesTo(b, n)| == 1
    ensures i < n && IsDataLine(b[i]) && DataLinesTo(b, n) == [DataValue(b[i])]
    ensures StickyTo(b, start, n) == [Event(LastNameTo(b, start, i), DataValue(b[i]))]
    ensures forall k :: 0 <= k < n && IsDataLine(b[k]) ==> k == i
  {
    if IsDataLine(b[n - 1]) {
      i := n - 1;
      StickyOnePerDataLine(b, start, n - 1);
      forall k | 0 <= k < n - 1 ensures !IsDataLine(b[k]) { NoDataLine(b, n - 1, k); }
    } else {
      i := OnlyDataLine(b, start, n - 1);
    }
  }

  lemma {:induction false} StickyOfBlockIff(b: Block, start: string)
    ensures |Sticky(b, start)| == |DataLines(b)|
    ensures OneSource(b, start) <==> Sticky(b, start) == if Dispatched(b, true) then [BlockEvent(b)] else []
  {
    StickyOnePerDataLine(b, start, |b|);
    if DataLines(b) == [] {
      forall i | 0 <= i < |b| ensures !IsDataLine(b[i]) { NoDataLine(b, |b|, i); }
    } else if |DataLines(b)| == 1 {
      var i := OnlyDataLine(b, start, |b|);
      assert Join([DataValue(b[i])]) == DataValue(b[i]);
    }
  }

  // Two lists of events, each with a block's more, the first never the shorter one.
  lemma {:induction false} SameOneMore(es: seq<Event>, fs: seq<Event>, xs: seq<Event>, ys: seq<Event>)
    requires |fs| <= |es| && |ys| <= |xs|
    ensures es + xs == fs + ys <==> es == fs && xs == ys
  {
    if es + xs == fs + ys {
      assert |es + xs| == |fs + ys|;
      assert es == (es + xs)[..|es|] == (fs + ys)[..|fs|] == fs;
      assert xs == (es + xs)[|es|..] == (fs + ys)[|fs|..] == ys;
    }
  }

  lemma {:induction false} StickyOfBlocksIff(bs: seq<Block>, n: nat)
    requires n <= |bs|
    ensures |DispatchTo(bs, true, n)| <= |Sticky(UnblocksTo(bs, n), MESSAGE)|
    ensures Sticky(UnblocksTo(bs, n), MESSAGE) == DispatchTo(bs, true, n) <==> AllOneSource(bs, n)
  {
    if n > 0 {
      StickyOfBlocksIff(bs, n - 1);
      var a, b := UnblocksTo(bs, n - 1), bs[n - 1];
      StickyConcat(a, b + [""], MESSAGE);
      StickySnoc(b, "", LastName(a, MESSAGE));
      assert !IsDataLine("");
      StickyOneMoreIff(bs, n - 1);
    }
  }

  // One block more, closed or not.
  lemma {:induction false} StickyOneMoreIff(bs: seq<Block>, n: nat)
    requires n < |bs| && |DispatchTo(bs, true, n)| <= |Sticky(UnblocksTo(bs, n), MESSAGE)|
    requires Sticky(UnblocksTo(bs, n), MESSAGE) == DispatchTo(bs, true, n) <==> AllOneSource(bs, n)
    ensures var more := Sticky(UnblocksTo(bs, n), MESSAGE) + Sticky(bs[n], NameBefore(bs, n));
            && |DispatchTo(bs, true, n + 1)| <= |more|
            && (more == DispatchTo(bs, true, n + 1) <==> AllOneSource(bs, n + 1))
  {
    var b := bs[n];
    StickyOfBlockIff(b, NameBefore(bs, n));
    SameOneMore(Sticky(UnblocksTo(bs, n), MESSAGE), DispatchTo(bs, true, n), Sticky(b, NameBefore(bs, n)),
                if Dispatched(b, true) then [BlockEvent(b)] else []);
  }

  // The sticky collector equals the block collector exactly when every block has at most one
  // data line, and the last name line before that line, in the stream, gives the name that
  // the block ends up with.
  lemma {:induction false} StickyIsCollectorIff(lines: seq<string>)
    ensures var bs := Blocks(lines).All();
            Sticky(lines, MESSAGE) == Events(lines, true) <==> AllOneSource(bs, |bs|)
  {
    var c := Blocks(lines);
    var bs, k := c.All(), |c.closed|;
    StreamOfBlocks(lines);
    UnblocksToPrefix(c.closed, bs, k);
    StickyOfBlocksIff(bs, k);
    StickyConcat(UnblocksTo(bs, k), c.open, MESSAGE);
    StickyOneMoreIff(bs, k);
  }

  lemma {:induction false} UnblocksToPrefix(bs: seq<Block>, cs: seq<Block>, n: nat)
    requires n <= |bs| <= |cs| && forall i | 0 <= i < n :: bs[i] == cs[i]
    ensures UnblocksTo(bs, n) == UnblocksTo(cs, n)
  {
    if n > 0 { UnblocksToPrefix(bs, cs, n - 1); }
  }

  lemma {:induction false} SimpleHasOneSource(b: Block, start: string)
    requires Simple(b)
    ensures OneSource(b, start)
  {
    if b != [] {
      NamedPrefix(b, 2);
      NamedBlockEvent(b);
      LineStep([], b[0]);
      assert LastNameTo(b, start, 1) == NameValue(b[0]);
    }
  }

  lemma {:induction false} SimpleHaveOneSource(bs: seq<Block>, n: nat)
    requires n <= |bs| && AllSimple(bs)
    ensures AllOneSource(bs, n)
  {
    if n > 0 {
      SimpleHaveOneSource(bs, n - 1);
      assert Simple(bs[n - 1]);
      SimpleHasOneSource(bs[n - 1], NameBefore(bs, n - 1));
      assert AllOneSource(bs, n) <==> AllOneSource(bs, n - 1) && OneSource(bs[n - 1], NameBefore(bs, n - 1));
    }
  }

  // On simple streams the sticky collector equals the block collector.
  lemma {:induction false} StickyIsCollector(lines: seq<string>)
    requires AllSimple(Blocks(lines).All())
    ensures Sticky(lines, MESSAGE) == Events(lines, true)
  {
    SimpleHaveOneSource(Blocks(lines).All(), |Blocks(lines).All()|);
    StickyIsCollectorIff(lines);
  }

  // ---------------------------------------------------------------- counter of name lines

  lemma {:induction false} NameLinesOfBlock(b: Block, counts: string -> bool, n: nat)
    requires Named(b) && 1 <= n <= |b|
    ensures NameLinesTo(b, counts, n) == if counts(NameValue(b[0])) then 1 else 0
  {
    LineStep([], b[n - 1]);
    if n > 1 { NameLinesOfBlock(b, counts, n - 1); }
  }

  lemma {:induction false} BlockCounts(b: Block, es: seq<Event>, counts: string -> bool)
    requires Named(b)
    ensures Counted(if Dispatched(b, true) then es + [BlockEvent(b)] else es, counts)
            == Counted(es, counts) + NameLines(b, counts)
  {
    NamedBlockEvent(b);
    if b != [] {
      NameLinesOfBlock(b, counts, |b|);
      CountedSnoc(es, BlockEvent(b), counts);
    }
  }

  lemma {:induction false} NameLinesOfBlocks(bs: seq<Block>, counts: string -> bool, n: nat)
    requires n <= |bs| && AllNamed(bs)
    ensures NameLines(UnblocksTo(bs, n), counts) == Counted(DispatchTo(bs, true, n), counts)
  {
    if n > 0 {
      NameLinesOfBlocks(bs, counts, n - 1);
      var b := bs[n - 1];
      NameLinesConcat(UnblocksTo(bs, n - 1), b + [""], counts);
      NameLinesSnoc(b, "", counts);
      BlockCounts(b, DispatchTo(bs, true, n - 1), counts);
    }
  }

  // On named streams the counter's totals are the collector's events of each kind, by
  // lower-cased name.
  lemma {:induction false} CountsAreCollectorCounts(lines: seq<string>, counts: string -> bool)
    requires AllNamed(Blocks(lines).All())
    ensures NameLines(lines, counts) == Counted(Events(lines, true), counts)
  {
    var c := Blocks(lines);
    var m := |c.closed|;
    AllOfCut(c);
    StreamOfBlocks(lines);
    NameLinesOfBlocks(c.closed, counts, m);
    NameLinesConcat(UnblocksTo(c.closed, m), c.open, counts);
    BlockCounts(c.open, Dispatch(c.closed, true), counts);
    DispatchSnoc(c.closed, c.open, true);
  }

  // ---------------------------------------------------------------- inert lines

  lemma {:induction false} StickyIgnoresInert(lines: seq<string>, start: string)
    ensures Sticky(DropInert(lines), start) == Sticky(lines, start)
    ensures LastName(DropInert(lines), start) == LastName(lines, start)
  {
    if lines != [] {
      var p, l := lines[..|lines| - 1], lines[|lines| - 1];
      StickyIgnoresInert(p, start);
      assert lines == p + [l];
      StickySnoc(p, l, start);
      LastNameSnoc(p, l, start);
      StickySnoc(DropInert(p), l, start);
      LastNameSnoc(DropInert(p), l, start);
    }
  }

  // Comments and unknown fields do not matter to the agreement of the collectors.
  lemma {:induction false} StickyIsCollectorWithInert(lines: seq<string>)
    requires AllSimple(Blocks(DropInert(lines)).All())
    ensures Sticky(lines, MESSAGE) == Events(lines, true) == Events(lines, false)
  {
    StickyIgnoresInert(lines, MESSAGE);
    StickyIsCollector(DropInert(lines));
    BlockParsersAgree(DropInert(lines));
    InertLinesInvisible(lines, true);
    InertLinesInvisible(lines, false);
  }

  // ---------------------------------------------------------------- raw lines

  // Lines without line breaks are what both collectors see, whichever ends they strip.
  lemma {:induction false} StrippedAlike(raws: seq<string>)
    requires forall i | 0 <= i < |raws| :: BreakFree(raws[i])
    ensures Unterminated(raws) == raws == Cleaned(raws)
  {
    forall i | 0 <= i < |raws| ensures TrimEnd(raws[i], {'\n'}) == raws[i] == TrimEnd(raws[i], {'\r', '\n'}) {
      TrimEndOfBreakFree(raws[i], {'\n'});
      TrimEndOfBreakFree(raws[i], {'\r', '\n'});
    }
  }

  // Given the same lines, when the two collectors return the same events.
  method CollectBoth(raws: seq<string>) returns (sticky: seq<Event>, collected: seq<Event>)
    requires forall i | 0 <= i < |raws| :: BreakFree(raws[i])
    ensures sticky == Sticky(raws, MESSAGE) && collected == Events(raws, true)
    ensures var bs := Blocks(raws).All(); sticky == collected <==> AllOneSource(bs, |bs|)
    ensures AllSimple(Blocks(DropInert(raws)).All()) ==> sticky == collected
  {
    StrippedAlike(raws);
    sticky := CollectSticky(raws);
    collected := CollectBlocks(raws);
    StickyIsCollectorIff(raws);
    if AllSimple(Blocks(DropInert(raws)).All()) {
      StickyIsCollectorWithInert(raws);
    }
  }

  // ---------------------------------------------------------------- the trace with inert lines

  // Every inert line has more than blanks; to the trace builder a line of blanks is an end.
  predicate NoBlanksOnly(lines: seq<string>) {
    forall i | 0 <= i < |lines| :: Inert(lines[i]) ==> Strip(lines[i]) != ""
  }

  lemma {:induction false} TraceIgnoresInert(lines: seq<string>)
    requires NoBlanksOnly(lines)
    ensures T.Run(T.INITIAL, DropInert(lines)) == T.Run(T.INITIAL, lines)
  {
    if lines != [] {
      var p, l := lines[..|lines| - 1], lines[|lines| - 1];
      assert lines == p + [l];
      TraceIgnoresInert(p);
      RunSnoc(p, l);
      RunSnoc(DropInert(p), l);
    }
  }

  lemma {:induction false} RunSnoc(a: seq<string>, l: string)
    ensures T.Run(T.INITIAL, a + [l]) == T.Step(T.Run(T.INITIAL, a), l)
  {
    T.RunConcat(T.INITIAL, a, [l], 1);
    assert T.RunTo(T.Run(T.INITIAL, a), [l], 0) == T.Run(T.INITIAL, a);
  }

  // On streams that are named but for comments and unknown fields, the trace is the tool
  // events of the collector, in order.
  lemma {:induction false} TraceIsToolEventsWithInert(lines: seq<string>)
    requires AllNamed(Blocks(DropInert(lines)).All()) && NoBlanksOnly(lines)
    ensures T.Entries(T.Final(lines).done) == ToolEvents(Events(lines, true))
  {
    TraceIsToolEvents(DropInert(lines));
    TraceIgnoresInert(lines);
    InertLinesInvisible(lines, true);
  }

  // ---------------------------------------------------------------- the trace, on every stream

  // The trace builder over one block, begun with the data that earlier lines left behind.
  function TraceOf(b: Block, left: seq<string>): T.State {
    T.Committed(T.Run(T.State([], "", left), b))
  }

  function After(done: seq<T.Group>, s: T.State): T.State {
    s.(done := done + s.done)
  }

  lemma {:induction false} CommittedAfter(done: seq<T.Group>, s: T.State)
    ensures T.Committed(After(done, s)) == After(done, T.Committed(s))
  {
    if s.name != "" {
      assert done + (s.done + [T.Group(s.name, s.data)]) == done + s.done + [T.Group(s.name, s.data)];
    }
  }

  // What is committed already does not matter.
  lemma {:induction false} RunAfter(done: seq<T.Group>, s: T.State, b: Block, n: nat)
    requires n <= |b|
    ensures T.RunTo(After(done, s), b, n) == After(done, T.RunTo(s, b, n))
  {
    if n > 0 {
      RunAfter(done, s, b, n - 1);
      CommittedAfter(done, T.RunTo(s, b, n - 1));
    }
  }

  lemma {:induction false} BlockAfter(done: seq<T.Group>, left: seq<string>, b: Block)
    ensures T.Committed(T.Run(T.State(done, "", left), b)) == After(done, TraceOf(b, left))
  {
    var s := T.State([], "", left);
    assert After(done, s) == T.State(done, "", left) by { assert done + [] == done; }
    RunAfter(done, s, b, |b|);
    CommittedAfter(done, T.Run(s, b));
  }

  // The builder after the first n blocks, each with the blank line that ends it.
  function TraceTo(bs: seq<Block>, n: nat): T.State
    requires n <= |bs|
  {
    if n == 0 then T.INITIAL
    else After(TraceTo(bs, n - 1).done, TraceOf(bs[n - 1], TraceTo(bs, n - 1).data))
  }

  lemma {:induction false} TraceToIsRun(bs: seq<Block>, n: nat)
    requires n <= |bs|
    ensures T.Run(T.INITIAL, UnblocksTo(bs, n)) == TraceTo(bs, n) && TraceTo(bs, n).name == ""
  {
    if n > 0 {
      TraceToIsRun(bs, n - 1);
      var a, b, s := UnblocksTo(bs, n - 1), bs[n - 1], TraceTo(bs, n - 1);
      BlockAfter(s.done, s.data, b);
      RunClosed(s, b);
      T.RunJoin(T.INITIAL, a, b + [""], s, TraceTo(bs, n));
    }
  }

  lemma {:induction false} TraceToPrefix(bs: seq<Block>, cs: seq<Block>, n: nat)
    requires n <= |bs| <= |cs| && forall i | 0 <= i < n :: bs[i] == cs[i]
    ensures TraceTo(bs, n) == TraceTo(cs, n)
  {
    if n > 0 { TraceToPrefix(bs, cs, n - 1); }
  }

  lemma {:induction false} FinalIsTraceTo(lines: seq<string>)
    ensures var bs := Blocks(lines).All(); T.Final(lines) == TraceTo(bs, |bs|)
  {
    var c := Blocks(lines);
    var bs, k := c.All(), |c.closed|;
    StreamOfBlocks(lines);
    TraceToIsRun(c.closed, k);
    TraceToPrefix(c.closed, bs, k);
    var s := TraceTo(bs, k);
    T.RunJoin(T.INITIAL, UnblocksTo(c.closed, k), c.open, s, T.Run(s, c.open));
    BlockAfter(s.done, s.data, c.open);
  }

  // ---------------------------------------------------------------- tool name lines of a block

  function ToolLines(b: Block): nat {
    var names := T.NamesTo(b, |b|);
    T.ToolCountTo(names, |names|)
  }

  // The block is a tool event to the collector.
  predicate ToolBlock(b: Block) {
    T.IsTool(BlockName(b)) && DataLines(b) != []
  }

  function BlockToolEvents(b: Block): seq<Event> {
    if ToolBlock(b) then [BlockEvent(b)] else []
  }

  lemma {:induction false} NamesOfBlock(b: Block, left: seq<string>, n: nat)
    requires n <= |b|
    ensures T.SeenNames(T.RunTo(T.State([], "", left), b, n)) == T.NamesTo(b, n)
  {
    if n > 0 {
      NamesOfBlock(b, left, n - 1);
      T.StepNames(T.RunTo(T.State([], "", left), b, n - 1), b[n - 1]);
    }
  }

  lemma {:induction false} EntriesPerToolLine(b: Block, left: seq<string>)
    ensures T.GroupNames(TraceOf(b, left).done) == T.NamesTo(b, |b|)
    ensures |T.Entries(TraceOf(b, left).done)| == ToolLines(b)
  {
    NamesOfBlock(b, left, |b|);
    T.CommitConserves(T.Run(T.State([], "", left), b));
    T.EntryPerTool(TraceOf(b, left).done, |TraceOf(b, left).done|);
  }

  // A nonempty last name is the last of the names.
  lemma {:induction false} LastNameIsLast(b: Block, n: nat)
    requires n <= |b|
    ensures var names, last := T.NamesTo(b, n), LastNameTo(b, "", n);
            last != "" ==> names != [] && names[|names| - 1] == last
  {
    if n > 0 { LastNameIsLast(b, n - 1); }
  }

  lemma {:induction false} LastNameStart(b: Block, start: string, n: nat)
    requires n <= |b|
    ensures LastNameTo(b, start, n) == LastNameTo(b, "", n) || (LastNameTo(b, start, n) == start && LastNameTo(b, "", n) == "")
  {
    if n > 0 { LastNameStart(b, start, n - 1); }
  }

  // The name of a tool block is that of its last group.
  lemma {:induction false} ToolBlockNames(b: Block, left: seq<string>)
    requires T.IsTool(BlockName(b))
    ensures var gs := TraceOf(b, left).done; gs != [] && gs[|gs| - 1].name == BlockName(b) && ToolLines(b) >= 1
  {
    LastNameStart(b, MESSAGE, |b|);
    LastNameIsLast(b, |b|);
    EntriesPerToolLine(b, left);
    var gs := TraceOf(b, left).done;
    assert |T.GroupNames(gs)| == |gs|;
    assert T.GroupNames(gs)[|gs| - 1] == gs[|gs| - 1].name;
  }

  function LastData(gs: seq<T.Group>): seq<string> {
    if gs == [] then [] else gs[|gs| - 1].data
  }

  // Only a tool block has a tool name line, a single one, and the builder gathers for it what
  // joins to the block's data.
  predicate TracedAlike(b: Block, left: seq<string>) {
    if ToolBlock(b) then ToolLines(b) == 1 && Join(LastData(TraceOf(b, left).done)) == Join(DataLines(b))
    else ToolLines(b) == 0
  }

  lemma {:induction false} TraceOfBlockIff(b: Block, left: seq<string>)
    ensures |BlockToolEvents(b)| <= |T.Entries(TraceOf(b, left).done)|
    ensures T.Entries(TraceOf(b, left).done) == BlockToolEvents(b) <==> TracedAlike(b, left)
  {
    EntriesPerToolLine(b, left);
    if ToolBlock(b) {
      ToolBlockNames(b, left);
      var gs := TraceOf(b, left).done;
      var before, g := gs[..|gs| - 1], gs[|gs| - 1];
      assert gs == before + [g];
      T.EntriesSnoc(before, g);
    }
  }

  // ---------------------------------------------------------------- all blocks

  lemma {:induction false} EntriesConcat(gs: seq<T.Group>, hs: seq<T.Group>)
    ensures T.Entries(gs + hs) == T.Entries(gs) + T.Entries(hs)
  {
    if hs == [] {
      assert gs + hs == gs;
    } else {
      var before, h := hs[..|hs| - 1], hs[|hs| - 1];
      assert hs == before + [h];
      EntriesConcat(gs, before);
      T.EntriesSnoc(before, h);
      T.EntriesSnoc(gs + before, h);
      assert gs + hs == gs + before + [h];
    }
  }

  // Each of the first n blocks
  predicate AllTracedAlike(bs: seq<Block>, n: nat)
    requires n <= |bs|
  {
    n == 0 || (AllTracedAlike(bs, n - 1) && TracedAlike(bs[n - 1], TraceTo(bs, n - 1).data))
  }

  // The trace entries and the tool events, block by block
  function EntriesByBlock(bs: seq<Block>, n: nat): seq<Event>
    requires n <= |bs|
  {
    if n == 0 then []
    else EntriesByBlock(bs, n - 1) + T.Entries(TraceOf(bs[n - 1], TraceTo(bs, n - 1).data).done)
  }

  function ToolEventsByBlock(bs: seq<Block>, n: nat): seq<Event>
    requires n <= |bs|
  {
    if n == 0 then [] else ToolEventsByBlock(bs, n - 1) + BlockToolEvents(bs[n - 1])
  }

  lemma {:induction false} EntriesAreByBlock(bs: seq<Block>, n: nat)
    requires n <= |bs|
    ensures T.Entries(TraceTo(bs, n).done) == EntriesByBlock(bs, n)
  {
    if n > 0 {
      EntriesAreByBlock(bs, n - 1);
      EntriesAfter(TraceTo(bs, n - 1).done, TraceOf(bs[n - 1], TraceTo(bs, n - 1).data));
    }
  }

  lemma {:induction false} EntriesAfter(done: seq<T.Group>, s: T.State)
    ensures T.Entries(After(done, s).done) == T.Entries(done) + T.Entries(s.done)
  {
    EntriesConcat(done, s.done);
  }

  lemma {:induction false} ToolEventsAreByBlock(bs: seq<Block>, n: nat)
    requires n <= |bs|
    ensures ToolEvents(DispatchTo(bs, true, n)) == ToolEventsByBlock(bs, n)
  {
    if n > 0 {
      ToolEventsAreByBlock(bs, n - 1);
      ToolEventsSnoc(DispatchTo(bs, true, n - 1), BlockEvent(bs[n - 1]));
    }
  }

  lemma {:induction false} TraceOneMoreIff(es: seq<Event>, fs: seq<Event>, b: Block, left: seq<string>)
    requires |fs| <= |es|
    ensures var more := T.Entries(TraceOf(b, left).done);
            && |BlockToolEvents(b)| <= |more|
            && (es + more == fs + BlockToolEvents(b) <==> es == fs && TracedAlike(b, left))
  {
    TraceOfBlockIff(b, left);
    SameOneMore(es, fs, T.Entries(TraceOf(b, left).done), BlockToolEvents(b));
  }

  lemma {:induction false} TraceOfBlocksIff(bs: seq<Block>, n: nat)
    requires n <= |bs|
    ensures |ToolEventsByBlock(bs, n)| <= |EntriesByBlock(bs, n)|
    ensures EntriesByBlock(bs, n) == ToolEventsByBlock(bs, n) <==> AllTracedAlike(bs, n)
  {
    if n > 0 {
      TraceOfBlocksIff(bs, n - 1);
      TraceOneMoreIff(EntriesByBlock(bs, n - 1), ToolEventsByBlock(bs, n - 1), bs[n - 1], TraceTo(bs, n - 1).data);
    }
  }

  // On every stream the trace is the tool events of the collector exactly when it is so
  // block by block: tool name lines stand only in blocks that are tool events, one in each,
  // and what the builder gathers for it, with the data left behind by earlier lines, joins
  // to the block's data.
  lemma {:induction false} TraceIsToolEventsIff(lines: seq<string>)
    ensures var bs := Blocks(lines).All();
            T.Entries(T.Final(lines).done) == ToolEvents(Events(lines, true)) <==> AllTracedAlike(bs, |bs|)
  {
    var bs := Blocks(lines).All();
    FinalIsTraceTo(lines);
    EntriesAreByBlock(bs, |bs|);
    ToolEventsAreByBlock(bs, |bs|);
    TraceOfBlocksIff(bs, |bs|);
  }
}
