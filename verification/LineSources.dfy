/**
 Two ways to cut a text into lines: `splitlines`, and reading up to each "\n" and
 stripping the line end.  They agree on exactly the texts whose only breaks are "\n",
 "\r\n" and a final "\r".
 */
module LineSources {
  import opened PyText
  import opened EventStream

  // What successive `readline` calls return: each line with its "\n".
  function RawLines(text: string): seq<string>
    decreases |text|
  {
    if text == "" then [] else
    var k := FirstNewline(text);
    if k == |text| then [text] else [text[..k + 1]] + RawLines(text[k + 1..])
  }

  // `raw.rstrip("\n").rstrip("\r")`
  function Chomp(raw: string): string {
    TrimEnd(TrimEnd(raw, {'\n'}), {'\r'})
  }

  function Chomped(raws: seq<string>): seq<string> {
    seq(|raws|, i requires 0 <= i < |raws| => Chomp(raws[i]))
  }

  lemma {:induction false} ChompedHead(raw: string, raws: seq<string>)
    ensures Chomped([raw] + raws) == [Chomp(raw)] + Chomped(raws)
  {
  }

  predicate CleanBreakAt(s: string, i: nat)
    requires i < |s|
  {
    IsBreak(s[i]) ==> s[i] == '\n' || (s[i] == '\r' && (i + 1 == |s| || s[i + 1] == '\n'))
  }

  predicate CleanBreaks(s: string) {
    forall i | 0 <= i < |s| :: CleanBreakAt(s, i)
  }

  lemma {:induction false} TrimmedOnce(c: string)
    requires c != "" && c[|c| - 1] == '\r' && BreakFree(c[..|c| - 1])
    ensures TrimEnd(c, {'\r'}) == c[..|c| - 1]
  {
    TrimEndTrims(c, {'\r'});
    TrimEndOfBreakFree(c[..|c| - 1], {'\r'});
  }

  lemma {:induction false} UntrimmedNewline(c: string)
    requires '\n' !in c
    ensures TrimEnd(c + "\n", {'\n'}) == c == TrimEnd(c, {'\n'})
  {
    var s := c + "\n";
    assert s[..|c|] == c && s[|c|] == '\n';
    assert forall i | 0 <= i < |c| :: s[i] == c[i] && c[i] in c;
    TrimEndTrims(s, {'\n'});
    TrimEndTrims(c, {'\n'});
    var r, t := TrimEnd(s, {'\n'}), TrimEnd(c, {'\n'});
    assert r != "" ==> r[|r| - 1] == s[|r| - 1];
    assert |r| == |c| && r == s[..|r|];
    assert |t| == |c|;
  }

  // One chunk, ended by "\n": always at least one line, and just the chomped one exactly
  // when the breaks of the chunk are clean.
  lemma {:induction false} TerminatedChunk(c: string)
    requires '\n' !in c
    ensures |SplitLines(c + "\n")| >= 1
    ensures SplitLines(c + "\n") == [Chomp(c + "\n")] <==> CleanBreaks(c)
  {
    UntrimmedNewline(c);
    FindBreakIsFirst(c, 0);
    assert c + "\n" + "" == c + "\n";
    var k := FirstBreak(c);
    if k == |c| {
      SplitLinesHead(c, false, "");
      TrimEndOfBreakFree(c, {'\r'});
    } else {
      AfterFirstBreak(c, "");
      SplitLinesStep(c + "\n");
      assert BreakFree(c[..k]);
      if c[k] == '\r' && k + 1 == |c| {
        TrimmedOnce(c);
      } else {
        assert !CleanBreakAt(c, k) by { if k + 1 < |c| { assert c[k + 1] in c; } assert c[k] in c; }
      }
    }
  }

  lemma {:induction false} UnterminatedChunk(c: string)
    requires '\n' !in c && c != ""
    ensures |SplitLines(c)| >= 1
    ensures SplitLines(c) == [Chomp(c)] <==> CleanBreaks(c)
  {
    UntrimmedNewline(c);
    FindBreakIsFirst(c, 0);
    var k := FirstBreak(c);
    if k == |c| {
      TrimEndOfBreakFree(c, {'\r'});
    } else {
      SplitLinesStep(c);
      assert BreakFree(c[..k]);
      assert c[k] in c && (k + 1 < |c| ==> c[k + 1] in c);
      if k + 1 == |c| {
        TrimEndTrims(c, {'\r'});
        if c[k] == '\r' { TrimmedOnce(c); } else { assert !CleanBreakAt(c, k) && Chomp(c) == c && SplitLines(c)[0] == c[..k]; }
      } else {
        assert !CleanBreakAt(c, k);
      }
    }
  }

  lemma {:induction false} CleanBreaksAtNewline(c: string, rest: string)
    requires '\n' !in c
    ensures CleanBreaks(c + "\n" + rest) <==> CleanBreaks(c) && CleanBreaks(rest)
  {
    var s := c + "\n" + rest;
    assert forall i | 0 <= i < |c| :: s[i] == c[i];
    assert s[|c|] == '\n';
    assert forall i | 0 <= i < |rest| :: s[|c| + 1 + i] == rest[i];
    assert forall i | 0 <= i < |c| :: CleanBreakAt(s, i) <==> CleanBreakAt(c, i);
    assert forall i | 0 <= i < |rest| :: CleanBreakAt(s, |c| + 1 + i) <==> CleanBreakAt(rest, i);
    if CleanBreaks(c) && CleanBreaks(rest) {
      forall i | 0 <= i < |s| ensures CleanBreakAt(s, i) {
        if i > |c| { assert CleanBreakAt(rest, i - |c| - 1); }
      }
    }
  }

  // Reading line by line sees the lines `splitlines` sees exactly when the breaks are
  // clean; otherwise `splitlines` may only see more of them.
  lemma {:induction false} LinesAgreeIff(text: string)
    ensures |SplitLines(text)| >= |RawLines(text)|
    ensures Chomped(RawLines(text)) == SplitLines(text) <==> CleanBreaks(text)
    decreases |text|
  {
    if text != "" {
      var k := FirstNewline(text);
      FindNewlineIsFirst(text, 0);
      if k == |text| {
        UnterminatedChunk(text);
        assert Chomped(RawLines(text)) == [Chomp(text)];
      } else {
        var c, rest := text[..k], text[k + 1..];
        assert text == c + "\n" + rest && text[..k + 1] == c + "\n";
        LinesAgreeIff(rest);
        TerminatedChunk(c);
        CleanBreaksAtNewline(c, rest);
        SplitLinesAtNewline(c, rest);
        assert RawLines(text) == [c + "\n"] + RawLines(rest);
        ChompedHead(c + "\n", RawLines(rest));
        HeadAndRest(Chomp(c + "\n"), Chomped(RawLines(rest)), SplitLines(c + "\n"), SplitLines(rest));
      }
    }
  }

  lemma {:induction false} HeadAndRest(h: string, t: seq<string>, hs: seq<string>, ts: seq<string>)
    requires |hs| >= 1 && |ts| >= |t|
    ensures [h] + t == hs + ts <==> hs == [h] && t == ts
  {
    if [h] + t == hs + ts {
      assert |hs| == 1 && hs[0] == ([h] + t)[0];
      assert ([h] + t)[1..] == (hs + ts)[1..];
    }
  }

  // On clean texts the incremental reader finds the events of the batch parser.
  lemma {:induction false} IncrementalMatchesBatch(text: string)
    requires CleanBreaks(text)
    ensures Events(Chomped(RawLines(text)), false) == Parse(text)
  {
    LinesAgreeIff(text);
  }
}
