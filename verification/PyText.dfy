/**
 The string primitives the stream scripts rely on, with the character classes of
 Python's `str`: `strip`, `lstrip`, `rstrip(chars)`, `splitlines`, `split("\n")`
 and `"\n".join`.
 */
module PyText {

  // The characters `str.splitlines` breaks at.
  predicate IsBreak(c: char) {
    || '\U{0A}' <= c <= '\U{0D}'
    || '\U{1C}' <= c <= '\U{1E}'
    || c == '\U{85}' || c == '\U{2028}' || c == '\U{2029}'
  }

  // The characters `str.strip` removes.
  predicate IsSpace(c: char) {
    || '\U{09}' <= c <= '\U{0D}'
    || '\U{1C}' <= c <= '\U{20}'
    || c == '\U{85}' || c == '\U{A0}' || c == '\U{1680}'
    || '\U{2000}' <= c <= '\U{200A}'
    || c == '\U{2028}' || c == '\U{2029}' || c == '\U{202F}' || c == '\U{205F}' || c == '\U{3000}'
  }

  predicate BreakFree(s: string) {
    forall i | 0 <= i < |s| :: !IsBreak(s[i])
  }

  predicate LeftTrimmed(s: string) {
    s != "" ==> !IsSpace(s[0])
  }

  predicate Trimmed(s: string) {
    LeftTrimmed(s) && (s != "" ==> !IsSpace(s[|s| - 1]))
  }

  // ---------------------------------------------------------------- strip

  // First index from `i` on that holds no whitespace, or the length.
  function SkipSpaces(s: string, i: nat): (j: nat)
    requires i <= |s|
    ensures i <= j <= |s|
    decreases |s| - i
  {
    if i < |s| && IsSpace(s[i]) then SkipSpaces(s, i + 1) else i
  }

  // Length of the longest prefix of s[..n] that does not end in whitespace.
  function DropSpaces(s: string, n: nat): (m: nat)
    requires n <= |s|
    ensures m <= n
  {
    if n > 0 && IsSpace(s[n - 1]) then DropSpaces(s, n - 1) else n
  }

  // Length of the longest prefix of s[..n] that does not end in a character of `chars`.
  function DropChars(s: string, chars: set<char>, n: nat): (m: nat)
    requires n <= |s|
    ensures m <= n
  {
    if n > 0 && s[n - 1] in chars then DropChars(s, chars, n - 1) else n
  }

  function LStrip(s: string): string {
    s[SkipSpaces(s, 0)..]
  }

  function RStrip(s: string): string {
    s[..DropSpaces(s, |s|)]
  }

  function Strip(s: string): string {
    RStrip(LStrip(s))
  }

  // `s.rstrip(chars)`: drops the longest suffix made of characters of `chars`.
  function TrimEnd(s: string, chars: set<char>): string {
    s[..DropChars(s, chars, |s|)]
  }

  lemma {:induction false} SkipSpacesIsMaximal(s: string, i: nat)
    requires i <= |s|
    ensures var j := SkipSpaces(s, i);
            (j < |s| ==> !IsSpace(s[j])) && forall k | i <= k < j :: IsSpace(s[k])
    decreases |s| - i
  {
    if i < |s| && IsSpace(s[i]) { SkipSpacesIsMaximal(s, i + 1); }
  }

  lemma {:induction false} DropSpacesIsMaximal(s: string, n: nat)
    requires n <= |s|
    ensures var m := DropSpaces(s, n);
            (m > 0 ==> !IsSpace(s[m - 1])) && forall k | m <= k < n :: IsSpace(s[k])
  {
    if n > 0 && IsSpace(s[n - 1]) { DropSpacesIsMaximal(s, n - 1); }
  }

  lemma {:induction false} DropCharsIsMaximal(s: string, chars: set<char>, n: nat)
    requires n <= |s|
    ensures var m := DropChars(s, chars, n);
            (m > 0 ==> s[m - 1] !in chars) && forall k | m <= k < n :: s[k] in chars
  {
    if n > 0 && s[n - 1] in chars { DropCharsIsMaximal(s, chars, n - 1); }
  }

  lemma {:induction false} LStripTrims(s: string)
    ensures LeftTrimmed(LStrip(s))
    ensures LeftTrimmed(s) ==> LStrip(s) == s
    ensures BreakFree(s) ==> BreakFree(LStrip(s))
  {
    SkipSpacesIsMaximal(s, 0);
  }

  lemma {:induction false} RStripTrims(s: string)
    requires LeftTrimmed(s)
    ensures Trimmed(RStrip(s))
    ensures Trimmed(s) ==> RStrip(s) == s
    ensures BreakFree(s) ==> BreakFree(RStrip(s))
  {
    DropSpacesIsMaximal(s, |s|);
    assert RStrip(s) != "" ==> RStrip(s)[0] == s[0];
  }

  lemma {:induction false} StripTrims(s: string)
    ensures Trimmed(Strip(s))
    ensures Trimmed(s) ==> Strip(s) == s
    ensures BreakFree(s) ==> BreakFree(Strip(s))
  {
    LStripTrims(s);
    RStripTrims(LStrip(s));
  }

  // Only blank texts strip to nothing.
  lemma {:induction false} StripEmptyIff(s: string)
    ensures Strip(s) == "" <==> forall i | 0 <= i < |s| :: IsSpace(s[i])
  {
    SkipSpacesIsMaximal(s, 0);
    DropSpacesIsMaximal(LStrip(s), |LStrip(s)|);
    var j := SkipSpaces(s, 0);
    if j < |s| {
      assert LStrip(s)[0] == s[j];
    }
  }

  lemma {:induction false} TrimEndTrims(s: string, chars: set<char>)
    ensures var r := TrimEnd(s, chars);
            && r <= s
            && (r != "" ==> r[|r| - 1] !in chars)
            && forall i | |r| <= i < |s| :: s[i] in chars
  {
    DropCharsIsMaximal(s, chars, |s|);
  }

  lemma {:induction false} TrimEndOfBreakFree(s: string, chars: set<char>)
    requires BreakFree(s) && forall c | c in chars :: IsBreak(c)
    ensures TrimEnd(s, chars) == s
  {
  }

  // ---------------------------------------------------------------- splitlines

  // First index from `i` on that holds a line break, or the length.
  function FindBreak(s: string, i: nat): (k: nat)
    requires i <= |s|
    ensures i <= k <= |s|
    decreases |s| - i
  {
    if i < |s| && !IsBreak(s[i]) then FindBreak(s, i + 1) else i
  }

  // Index of the first line break of `s`, or its length.
  function FirstBreak(s: string): (k: nat)
    ensures k <= |s|
  {
    FindBreak(s, 0)
  }

  lemma {:induction false} FindBreakIsFirst(s: string, i: nat)
    requires i <= |s|
    ensures var k := FindBreak(s, i);
            (k < |s| ==> IsBreak(s[k])) && forall j | i <= j < k :: !IsBreak(s[j])
    decreases |s| - i
  {
    if i < |s| && !IsBreak(s[i]) { FindBreakIsFirst(s, i + 1); }
  }

  // The first break is the only index with no break before it and a break, or the end, at it.
  lemma {:induction false} FirstBreakIs(s: string, k: nat)
    requires k <= |s| && (k < |s| ==> IsBreak(s[k]))
    requires forall i | 0 <= i < k :: !IsBreak(s[i])
    ensures FirstBreak(s) == k
  {
    FindBreakIsFirst(s, 0);
  }

  // "\r\n" is one break of two characters; every other break is one character.
  function BreakWidth(s: string, k: nat): (w: nat)
    requires k < |s|
    ensures 1 <= w && k + w <= |s|
  {
    if s[k] == '\r' && k + 1 < |s| && s[k + 1] == '\n' then 2 else 1
  }

  function SplitLines(s: string): (ls: seq<string>)
    decreases |s|
  {
    if s == "" then [] else
    var k := FirstBreak(s);
    if k == |s| then [s]
    else [s[..k]] + SplitLines(s[k + BreakWidth(s, k)..])
  }

  lemma {:induction false} SplitLinesBreakFree(s: string)
    ensures forall l | l in SplitLines(s) :: BreakFree(l)
    decreases |s|
  {
    var k := FirstBreak(s);
    FindBreakIsFirst(s, 0);
    if k < |s| {
      SplitLinesBreakFree(s[k + BreakWidth(s, k)..]);
    }
  }

  // A line terminator, "\r\n" or "\n".
  function Terminator(crlf: bool): string {
    if crlf then "\r\n" else "\n"
  }

  // Text made of terminated lines; `crlf[i]` chooses the terminator of line i.
  function Unlines(ls: seq<string>, crlf: seq<bool>): string
    requires |crlf| == |ls|
  {
    if ls == [] then "" else ls[0] + Terminator(crlf[0]) + Unlines(ls[1..], crlf[1..])
  }

  lemma {:induction false} FirstBreakAfter(l: string, rest: string)
    requires BreakFree(l) && rest != "" && IsBreak(rest[0])
    ensures FirstBreak(l + rest) == |l|
  {
    FirstBreakIs(l + rest, |l|);
  }

  // A break-free prefix followed by a terminator is read off as one line.
  lemma {:induction false} SplitLinesHead(l: string, crlf: bool, rest: string)
    requires BreakFree(l)
    ensures SplitLines(l + Terminator(crlf) + rest) == [l] + SplitLines(rest)
  {
    var t := Terminator(crlf);
    var s := l + t + rest;
    assert s == l + (t + rest);
    FirstBreakAfter(l, t + rest);
    assert s[|l|] == t[0] && s[..|l|] == l;
    if crlf { assert s[|l| + 1] == t[1]; }
    assert s[|l| + |t|..] == rest;
  }

  lemma {:induction false} SplitLinesUnlines(ls: seq<string>, crlf: seq<bool>)
    requires |crlf| == |ls|
    requires forall l | l in ls :: BreakFree(l)
    ensures SplitLines(Unlines(ls, crlf)) == ls
  {
    if ls != [] {
      SplitLinesUnlines(ls[1..], crlf[1..]);
      SplitLinesHead(ls[0], crlf[0], Unlines(ls[1..], crlf[1..]));
    }
  }

  // ---------------------------------------------------------------- join and split on "\n"

  function JoinFrom(ls: seq<string>, i: nat): string
    requires i <= |ls|
    decreases |ls| - i
  {
    if i == |ls| then "" else if i == |ls| - 1 then ls[i] else ls[i] + "\n" + JoinFrom(ls, i + 1)
  }

  // `"\n".join(ls)`
  function Join(ls: seq<string>): string {
    JoinFrom(ls, 0)
  }

  lemma {:induction false} JoinFromTail(ls: seq<string>, i: nat)
    requires 1 <= i <= |ls|
    ensures JoinFrom(ls, i) == JoinFrom(ls[1..], i - 1)
    decreases |ls| - i
  {
    if i < |ls| { JoinFromTail(ls, i + 1); }
  }

  function FindNewline(s: string, i: nat): (k: nat)
    requires i <= |s|
    ensures i <= k <= |s|
    decreases |s| - i
  {
    if i < |s| && s[i] != '\n' then FindNewline(s, i + 1) else i
  }

  function FirstNewline(s: string): (k: nat)
    ensures k <= |s|
  {
    FindNewline(s, 0)
  }

  lemma {:induction false} FindNewlineIsFirst(s: string, i: nat)
    requires i <= |s|
    ensures var k := FindNewline(s, i);
            (k < |s| ==> s[k] == '\n') && forall j | i <= j < k :: s[j] != '\n'
    decreases |s| - i
  {
    if i < |s| && s[i] != '\n' { FindNewlineIsFirst(s, i + 1); }
  }

  lemma {:induction false} FirstNewlineIs(s: string, k: nat)
    requires k <= |s| && (k < |s| ==> s[k] == '\n')
    requires forall i | 0 <= i < k :: s[i] != '\n'
    ensures FirstNewline(s) == k
  {
    FindNewlineIsFirst(s, 0);
  }

  function SplitNewline(s: string): (ls: seq<string>)
    ensures ls != []
    decreases |s|
  {
    var k := FirstNewline(s);
    if k == |s| then [s] else [s[..k]] + SplitNewline(s[k + 1..])
  }

  lemma {:induction false} JoinSplitNewline(s: string)
    ensures Join(SplitNewline(s)) == s
    decreases |s|
  {
    var k := FirstNewline(s);
    FindNewlineIsFirst(s, 0);
    if k < |s| {
      JoinSplitNewline(s[k + 1..]);
      JoinFromTail(SplitNewline(s), 1);
      assert SplitNewline(s)[1..] == SplitNewline(s[k + 1..]);
      assert s == s[..k] + "\n" + s[k + 1..];
    }
  }

  lemma {:induction false} SplitNewlineHead(l: string, rest: string)
    requires '\n' !in l
    ensures SplitNewline(l + "\n" + rest) == [l] + SplitNewline(rest)
    ensures SplitNewline(l) == [l]
  {
    var s := l + "\n" + rest;
    assert forall i | 0 <= i < |l| :: s[i] == l[i] && l[i] in l;
    assert s[|l|] == '\n';
    FirstNewlineIs(s, |l|);
    FirstNewlineIs(l, |l|);
    assert s[..|l|] == l && s[|l| + 1..] == rest;
  }

  lemma {:induction false} SplitNewlineJoin(ls: seq<string>)
    requires ls != [] && forall l | l in ls :: '\n' !in l
    ensures SplitNewline(Join(ls)) == ls
  {
    assert ls[0] in ls;
    if |ls| > 1 {
      SplitNewlineJoin(ls[1..]);
      JoinFromTail(ls, 1);
      SplitNewlineHead(ls[0], Join(ls[1..]));
    } else {
      SplitNewlineHead(ls[0], "");
    }
  }
}
