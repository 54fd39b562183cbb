/**
 The builder of the tool trace.  It commits the current event at every name line, at
 every blank line and at the end, but a commit without a current name keeps the data
 lines gathered so far, so they go to the next named event.
 */
module ToolTrace {
  import opened PyText
  import opened EventStream
  import opened Collectors

  // A committed event: its name and data lines.
  datatype Group = Group(name: string, data: seq<string>)

  // Committed events, the current name ("" when there is none) and the data gathered.
  datatype State = State(done: seq<Group>, name: string, data: seq<string>)

  function Committed(s: State): State {
    if s.name == "" then s else State(s.done + [Group(s.name, s.data)], "", [])
  }

  function Step(s: State, line: string): State {
    if IsNameLine(line) then Committed(s).(name := NameValue(line))
    else if IsDataLine(line) then s.(data := s.data + [DataValue(line)])
    else if Strip(line) == "" then Committed(s)
    else s
  }

  function RunTo(start: State, lines: seq<string>, n: nat): State
    requires n <= |lines|
  {
    if n == 0 then start else Step(RunTo(start, lines, n - 1), lines[n - 1])
  }

  function Run(start: State, lines: seq<string>): State {
    RunTo(start, lines, |lines|)
  }

  const INITIAL := State([], "", [])

  // Every committed event of a stream, and what stays behind.
  function Final(lines: seq<string>): State {
    Committed(Run(INITIAL, lines))
  }

  predicate IsTool(name: string) {
    name in {"tool_call", "tool_result", "action_text"}
  }

  // The trace entries of the first n groups, before their JSON is decoded.
  function EntriesTo(gs: seq<Group>, n: nat): seq<Event>
    requires n <= |gs|
  {
    if n == 0 then []
    else if IsTool(gs[n - 1].name) then EntriesTo(gs, n - 1) + [Event(gs[n - 1].name, Join(gs[n - 1].data))]
    else EntriesTo(gs, n - 1)
  }

  function Entries(gs: seq<Group>): seq<Event> {
    EntriesTo(gs, |gs|)
  }

  lemma {:induction false} EntriesToPrefix(gs: seq<Group>, hs: seq<Group>, n: nat)
    requires n <= |gs| <= |hs| && forall i | 0 <= i < n :: gs[i] == hs[i]
    ensures EntriesTo(gs, n) == EntriesTo(hs, n)
  {
    if n > 0 { EntriesToPrefix(gs, hs, n - 1); }
  }

  lemma {:induction false} EntriesSnoc(gs: seq<Group>, g: Group)
    ensures Entries(gs + [g]) ==
            if IsTool(g.name) then Entries(gs) + [Event(g.name, Join(g.data))] else Entries(gs)
  {
    EntriesToPrefix(gs, gs + [g], |gs|);
  }

  lemma {:induction false} EntriesGrow(gs: seq<Group>, n: nat, m: nat)
    requires n <= m <= |gs|
    ensures EntriesTo(gs, n) <= EntriesTo(gs, m)
  {
    if n < m { EntriesGrow(gs, n, m - 1); }
  }

  lemma {:induction false} DoneGrows(lines: seq<string>, n: nat, m: nat)
    requires n <= m <= |lines|
    ensures RunTo(INITIAL, lines, n).done <= RunTo(INITIAL, lines, m).done
  {
    if n < m { DoneGrows(lines, n, m - 1); }
  }

  // What is committed after n lines stays in the final trace.
  lemma {:induction false} EntriesStay(lines: seq<string>, n: nat)
    requires n <= |lines|
    ensures Entries(RunTo(INITIAL, lines, n).done) <= Entries(Final(lines).done)
  {
    var gs, hs := RunTo(INITIAL, lines, n).done, Final(lines).done;
    DoneGrows(lines, n, |lines|);
    EntriesToPrefix(gs, hs, |gs|);
    EntriesGrow(hs, |gs|, |hs|);
  }

  // ---------------------------------------------------------------- the builder

  // Whether an entry can be rendered: the script raises on some payloads, such as one whose
  // content is no dictionary.
  type Renders = Event -> bool

  predicate AllRender(renders: Renders, es: seq<Event>) {
    forall i | 0 <= i < |es| :: renders(es[i])
  }

  class TraceBuilder {
    var trace: seq<Event>
    var currentEvent: string
    var dataLines: seq<string>

    ghost predicate Holds(s: State)
      reads this
    {
      trace == Entries(s.done) && currentEvent == s.name && dataLines == s.data
    }

    constructor ()
      ensures Holds(INITIAL)
    {
      trace, currentEvent, dataLines := [], "", [];
    }

    method Commit(ghost s: State, renders: Renders) returns (ok: bool)
      requires Holds(s) && AllRender(renders, trace)
      modifies this
      ensures ok <==> AllRender(renders, Entries(Committed(s).done))
      ensures ok ==> Holds(Committed(s)) && AllRender(renders, trace)
    {
      EntriesSnoc(s.done, Group(s.name, s.data));
      if currentEvent == "" {
        return true;
      }
      var rawData := Join(dataLines);
      if currentEvent in {"tool_call", "tool_result", "action_text"} {
        ghost var n := |trace|;
        if !renders(Event(currentEvent, rawData)) {
          assert Entries(Committed(s).done)[n] == Event(currentEvent, rawData);
          return false;
        }
        trace := trace + [Event(currentEvent, rawData)];
      }
      currentEvent := "";
      dataLines := [];
      ok := true;
    }

    method Feed(ghost s: State, line: string, renders: Renders) returns (ok: bool)
      requires Holds(s) && AllRender(renders, trace)
      modifies this
      ensures ok <==> AllRender(renders, Entries(Step(s, line).done))
      ensures ok ==> Holds(Step(s, line)) && AllRender(renders, trace)
    {
      ok := true;
      if IsNameLine(line) {
        ok := Commit(s, renders);
        currentEvent := if ok then NameValue(line) else currentEvent;
      } else if IsDataLine(line) {
        dataLines := dataLines + [DataValue(line)];
      } else if Strip(line) == "" {
        ok := Commit(s, renders);
      }
    }
  }

  // False where an entry cannot be rendered, and the script raises.
  method ParseStreamToolTrace(text: string, renders: Renders) returns (ok: bool, trace: seq<Event>)
    ensures ok <==> AllRender(renders, Entries(Final(SplitLines(text)).done))
    ensures ok ==> trace == Entries(Final(SplitLines(text)).done)
  {
    var builder := new TraceBuilder();
    var lines := SplitLines(text);
    for i := 0 to |lines|
      invariant fresh(builder)
      invariant builder.Holds(RunTo(INITIAL, lines, i)) && AllRender(renders, builder.trace)
    {
      ok := builder.Feed(RunTo(INITIAL, lines, i), lines[i], renders);
      if !ok {
        SomeRaises(renders, Entries(RunTo(INITIAL, lines, i + 1).done), lines, i + 1);
        return false, [];
      }
    }
    ok := builder.Commit(Run(INITIAL, lines), renders);
    trace := builder.trace;
  }

  lemma {:induction false} SomeRaises(renders: Renders, es: seq<Event>, lines: seq<string>, n: nat)
    requires n <= |lines| && es == Entries(RunTo(INITIAL, lines, n).done) && !AllRender(renders, es)
    ensures !AllRender(renders, Entries(Final(lines).done))
  {
    EntriesStay(lines, n);
    var i :| 0 <= i < |es| && !renders(es[i]);
    assert Entries(Final(lines).done)[i] == es[i];
  }

  // ---------------------------------------------------------------- laws on every stream

  // The nonempty name values among the first n lines.
  function NamesTo(lines: seq<string>, n: nat): seq<string>
    requires n <= |lines|
  {
    if n == 0 then []
    else if IsNameLine(lines[n - 1]) && NameValue(lines[n - 1]) != "" then
      NamesTo(lines, n - 1) + [NameValue(lines[n - 1])]
    else NamesTo(lines, n - 1)
  }

  function GroupNames(gs: seq<Group>): seq<string> {
    seq(|gs|, i requires 0 <= i < |gs| => gs[i].name)
  }

  // The data lines of the first n groups, concatenated.
  function GatheredTo(gs: seq<Group>, n: nat): seq<string>
    requires n <= |gs|
  {
    if n == 0 then [] else GatheredTo(gs, n - 1) + gs[n - 1].data
  }

  function Gathered(gs: seq<Group>): seq<string> {
    GatheredTo(gs, |gs|)
  }

  lemma {:induction false} GatheredToPrefix(gs: seq<Group>, hs: seq<Group>, n: nat)
    requires n <= |gs| <= |hs| && forall i | 0 <= i < n :: gs[i] == hs[i]
    ensures GatheredTo(gs, n) == GatheredTo(hs, n)
  {
    if n > 0 { GatheredToPrefix(gs, hs, n - 1); }
  }

  // Committing moves the gathered data into a group and never loses a line.
  lemma {:induction false} CommitConserves(s: State)
    ensures Gathered(Committed(s).done) + Committed(s).data == Gathered(s.done) + s.data
    ensures Committed(s).name == ""
    ensures GroupNames(Committed(s).done) == GroupNames(s.done) + if s.name == "" then [] else [s.name]
  {
    if s.name != "" {
      var g := Group(s.name, s.data);
      GatheredToPrefix(s.done, s.done + [g], |s.done|);
      assert Gathered(s.done + [g]) == Gathered(s.done) + s.data;
    }
  }

  lemma {:induction false} StepConserves(s: State, l: string)
    ensures var t := Step(s, l);
            Gathered(t.done) + t.data == Gathered(s.done) + s.data + if IsDataLine(l) then [DataValue(l)] else []
  {
    CommitConserves(s);
    LineStep([], l);
  }

  // A name seen: committed already, or current.
  function SeenNames(s: State): seq<string> {
    GroupNames(s.done) + if s.name == "" then [] else [s.name]
  }

  lemma {:induction false} StepNames(s: State, l: string)
    ensures SeenNames(Step(s, l)) ==
            SeenNames(s) + if IsNameLine(l) && NameValue(l) != "" then [NameValue(l)] else []
  {
    CommitConserves(s);
  }

  lemma {:induction false} RunConserves(lines: seq<string>, n: nat)
    requires n <= |lines|
    ensures var s := RunTo(INITIAL, lines, n);
            && Gathered(s.done) + s.data == DataLinesTo(lines, n)
            && SeenNames(s) == NamesTo(lines, n)
  {
    if n > 0 {
      RunConserves(lines, n - 1);
      StepConserves(RunTo(INITIAL, lines, n - 1), lines[n - 1]);
      StepNames(RunTo(INITIAL, lines, n - 1), lines[n - 1]);
    }
  }

  // On every stream: one committed event per nonempty name line, in order, and the data
  // lines go to the events in order, none lost and none twice, the last ones staying behind.
  lemma {:induction false} TraceConserves(lines: seq<string>)
    ensures GroupNames(Final(lines).done) == NamesTo(lines, |lines|)
    ensures Gathered(Final(lines).done) + Final(lines).data == DataLines(lines)
  {
    RunConserves(lines, |lines|);
    CommitConserves(Run(INITIAL, lines));
  }

  // Tool names among the first n.
  function ToolCountTo(names: seq<string>, n: nat): nat
    requires n <= |names|
  {
    if n == 0 then 0 else ToolCountTo(names, n - 1) + if IsTool(names[n - 1]) then 1 else 0
  }

  lemma {:induction false} EntryPerTool(gs: seq<Group>, n: nat)
    requires n <= |gs|
    ensures |EntriesTo(gs, n)| == ToolCountTo(GroupNames(gs), n)
  {
    if n > 0 { EntryPerTool(gs, n - 1); }
  }

  // On every stream the trace has one entry per tool name line.
  lemma {:induction false} TraceEntryPerToolLine(lines: seq<string>)
    ensures var names := NamesTo(lines, |lines|);
            |Entries(Final(lines).done)| == ToolCountTo(names, |names|)
  {
    TraceConserves(lines);
    EntryPerTool(Final(lines).done, |Final(lines).done|);
  }

  // ---------------------------------------------------------------- runs in sequence

  lemma {:induction false} RunConcat(start: State, a: seq<string>, b: seq<string>, n: nat)
    requires n <= |b|
    ensures RunTo(start, a + b, |a| + n) == RunTo(Run(start, a), b, n)
  {
    if n > 0 {
      RunConcat(start, a, b, n - 1);
    } else {
      RunToPrefix(start, a, a + b, |a|);
    }
  }

  lemma {:induction false} RunJoin(start: State, a: seq<string>, b: seq<string>, middle: State, end: State)
    requires Run(start, a) == middle && Run(middle, b) == end
    ensures Run(start, a + b) == end
  {
    RunConcat(start, a, b, |b|);
  }

  lemma {:induction false} RunToPrefix(start: State, a: seq<string>, b: seq<string>, n: nat)
    requires n <= |a| <= |b| && forall i | 0 <= i < n :: a[i] == b[i]
    ensures RunTo(start, a, n) == RunTo(start, b, n)
  {
    if n > 0 { RunToPrefix(start, a, b, n - 1); }
  }

  // ---------------------------------------------------------------- whose data an event gets

  // The same builder, dropping data that no name owns.
  function OwnStep(s: State, line: string): State {
    if IsDataLine(line) && s.name == "" then s else Step(s, line)
  }

  function OwnTo(lines: seq<string>, n: nat): State
    requires n <= |lines|
  {
    if n == 0 then INITIAL else OwnStep(OwnTo(lines, n - 1), lines[n - 1])
  }

  predicate Naming(l: string) {
    IsNameLine(l) && NameValue(l) != ""
  }

  // A blank line, or a name line without a value
  predicate Unnaming(l: string) {
    Strip(l) == "" || (IsNameLine(l) && NameValue(l) == "")
  }

  // The first n lines have no naming line since the last line that takes the name away.
  ghost predicate Unnamed(lines: seq<string>, n: nat)
    requires n <= |lines|
  {
    forall i | 0 <= i < n && Naming(lines[i]) :: exists j | i < j < n :: Unnaming(lines[j])
  }

  // Some data line among the first n stands where there is no name.
  ghost predicate StrayTo(lines: seq<string>, n: nat)
    requires n <= |lines|
  {
    exists i | 0 <= i < n :: IsDataLine(lines[i]) && Unnamed(lines, i)
  }

  // Some such data line has a naming line after it.
  ghost predicate LeaksTo(lines: seq<string>, n: nat)
    requires n <= |lines|
  {
    exists i, j | 0 <= i < j < n :: IsDataLine(lines[i]) && Unnamed(lines, i) && Naming(lines[j])
  }

  // One more line: named after a naming line, unnamed after one that takes the name away.
  lemma {:induction false} UnnamedStep(lines: seq<string>, n: nat)
    requires n < |lines|
    ensures Naming(lines[n]) ==> !Unnamed(lines, n + 1)
    ensures Unnaming(lines[n]) ==> Unnamed(lines, n + 1)
    ensures !Naming(lines[n]) && !Unnaming(lines[n]) ==> (Unnamed(lines, n + 1) <==> Unnamed(lines, n))
  {
    if IsNameLine(lines[n]) {
      StripEmptyIff(lines[n]);
    }
    if !Naming(lines[n]) && !Unnaming(lines[n]) && Unnamed(lines, n + 1) {
      forall i | 0 <= i < n && Naming(lines[i]) ensures exists j | i < j < n :: Unnaming(lines[j]) {
        var j :| i < j < n + 1 && Unnaming(lines[j]);
      }
    }
  }

  lemma {:induction false} StrayStep(lines: seq<string>, n: nat)
    requires n < |lines|
    ensures StrayTo(lines, n + 1) <==> StrayTo(lines, n) || (IsDataLine(lines[n]) && Unnamed(lines, n))
    ensures LeaksTo(lines, n + 1) <==> LeaksTo(lines, n) || (StrayTo(lines, n) && Naming(lines[n]))
  {
  }

  lemma {:induction false} OwnNameStep(s: State, l: string)
    ensures Naming(l) ==> OwnStep(s, l).name != ""
    ensures Unnaming(l) ==> OwnStep(s, l).name == ""
    ensures !Naming(l) && !Unnaming(l) ==> OwnStep(s, l).name == s.name
  {
    LineStep([], l);
    if Strip(l) == "" { BlankIsNoField(l); }
  }

  // The comparison machine has no name exactly where the lines say so.
  lemma {:induction false} OwnNameless(lines: seq<string>, n: nat)
    requires n <= |lines|
    ensures OwnTo(lines, n).name == "" <==> Unnamed(lines, n)
  {
    if n > 0 {
      OwnNameless(lines, n - 1);
      UnnamedStep(lines, n - 1);
      OwnNameStep(OwnTo(lines, n - 1), lines[n - 1]);
    }
  }

  // How the two builders compare, by whether data has strayed and leaked.
  predicate Compare(s: State, t: State, stray: bool, leaks: bool) {
    && s.name == t.name && |s.done| == |t.done|
    && (t.name == "" ==> t.data == [])
    && (!stray ==> s == t)
    && (stray && !leaks ==> s.done == t.done && s.name == "" && s.data != [])
    && (leaks ==> s.done != t.done || (s.name != "" && s.data != t.data))
  }

  lemma {:induction false} CommitCompares(s: State, t: State, stray: bool, leaks: bool)
    requires Compare(s, t, stray, leaks)
    ensures leaks <==> Committed(s).done != Committed(t).done
    ensures |Committed(s).done| == |Committed(t).done|
  {
    var k := |s.done|;
    assert s.name != "" ==> Committed(s).done[..k] == s.done && Committed(s).done[k] == Group(s.name, s.data);
    assert t.name != "" ==> Committed(t).done[..k] == t.done && Committed(t).done[k] == Group(t.name, t.data);
  }

  lemma {:induction false} StepCompares(s: State, t: State, stray: bool, leaks: bool, l: string)
    requires Compare(s, t, stray, leaks)
    requires leaks ==> stray
    ensures Compare(Step(s, l), OwnStep(t, l), stray || (IsDataLine(l) && t.name == ""), leaks || (stray && Naming(l)))
  {
    CommitCompares(s, t, stray, leaks);
    LineStep([], l);
    if IsDataLine(l) {
      var v := [DataValue(l)];
      if s.data + v == t.data + v {
        assert s.data == (s.data + v)[..|s.data|] == (t.data + v)[..|t.data|] == t.data;
      }
    }
  }

  lemma {:induction false} RunCompares(lines: seq<string>, n: nat)
    requires n <= |lines|
    ensures LeaksTo(lines, n) ==> StrayTo(lines, n)
    ensures Compare(RunTo(INITIAL, lines, n), OwnTo(lines, n), StrayTo(lines, n), LeaksTo(lines, n))
  {
    if n > 0 {
      RunCompares(lines, n - 1);
      OwnNameless(lines, n - 1);
      StrayStep(lines, n - 1);
      StepCompares(RunTo(INITIAL, lines, n - 1), OwnTo(lines, n - 1),
                   StrayTo(lines, n - 1), LeaksTo(lines, n - 1), lines[n - 1]);
    }
  }

  // Every committed event has just the data lines it owns exactly when no unowned data
  // line has a name line after it.
  lemma {:induction false} TraceOwnsDataIff(lines: seq<string>)
    ensures Final(lines).done == Committed(OwnTo(lines, |lines|)).done <==> !LeaksTo(lines, |lines|)
  {
    RunCompares(lines, |lines|);
    CommitCompares(Run(INITIAL, lines), OwnTo(lines, |lines|), StrayTo(lines, |lines|), LeaksTo(lines, |lines|));
  }

  // The shortest leak: a data line, then a name line.
  lemma {:induction false} DataBeforeNameLeaks(d: string, n: string)
    requires IsDataLine(d) && Naming(n)
    ensures Final([d, n]).done == [Group(NameValue(n), [DataValue(d)])]
    ensures Committed(OwnTo([d, n], 2)).done == [Group(NameValue(n), [])]
  {
    var lines := [d, n];
    LineStep([], d);
    LineStep([], n);
    assert RunTo(INITIAL, lines, 1) == State([], "", [] + [DataValue(d)]);
    assert OwnTo(lines, 1) == INITIAL;
    assert [] + [DataValue(d)] == [DataValue(d)];
  }
}
