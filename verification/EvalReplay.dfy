/**
 Replaying recorded sessions: records are replayed in order until a limit, the differences
 are aggregated, and those outside the thresholds are flagged.
 */
module EvalReplay {
  import opened Fractions
  import opened Wrappers

  // What replaying one record gives.  A failed replay carries an error and nothing else.
  datatype Diff =
    | Failed(error: string)
    | Compared(tokenJaccard: Option<real>, sourcesOverlap: Option<real>, latencyDeltaMs: Option<int>, toolCallsMatch: bool)

  datatype Flag = TokenJaccard | SourcesOverlap | LatencyDelta

  datatype Flagged = Flagged(diff: Diff, flags: seq<Flag>)

  const TOKEN_JACCARD_MIN := 0.85
  const SOURCES_OVERLAP_MIN := 0.70
  const LATENCY_DELTA_MAX_MS := 5000

  // ---------------------------------------------------------------- replaying

  function AllRecords<R>(sessions: seq<seq<R>>, n: nat): seq<R>
    requires n <= |sessions|
  {
    if n == 0 then [] else AllRecords(sessions, n - 1) + sessions[n - 1]
  }

  lemma {:induction false} RecordsGrow<R>(sessions: seq<seq<R>>, m: nat, n: nat)
    requires m <= n <= |sessions|
    ensures AllRecords(sessions, m) <= AllRecords(sessions, n)
  {
    if m < n {
      RecordsGrow(sessions, m, n - 1);
    }
  }

  function Replayed<R>(replay: R -> Diff, rs: seq<R>, n: nat): seq<Diff>
    requires n <= |rs|
  {
    if n == 0 then [] else Replayed(replay, rs, n - 1) + [replay(rs[n - 1])]
  }

  lemma {:induction false} ReplayedPrefix<R>(replay: R -> Diff, rs: seq<R>, more: seq<R>, n: nat)
    requires n <= |rs| && rs <= more
    ensures Replayed(replay, more, n) == Replayed(replay, rs, n)
  {
    if n > 0 {
      ReplayedPrefix(replay, rs, more, n - 1);
    }
  }

  // How many of `total` records the limit lets through.
  function Allowed(limit: Option<int>, total: nat): nat {
    if limit.None? || limit.value >= total then total else if limit.value < 0 then 0 else limit.value
  }

  predicate Exhausted(limit: Option<int>, seen: nat) {
    limit.Some? && seen >= limit.value
  }

  // A session is read only while the records of the sessions before it do not exhaust the limit.
  ghost predicate ReadOnlyAsNeeded<R>(sessions: seq<seq<R>>, limit: Option<int>, read: nat)
    requires read <= |sessions|
  {
    && (forall k :: 0 <= k < read ==> !Exhausted(limit, |AllRecords(sessions, k)|))
    && (read < |sessions| ==> Exhausted(limit, |AllRecords(sessions, read)|))
  }

  // The diffs so far are those of the first records, as many as seen and never above the limit.
  ghost predicate SeenFirst<R>(replay: R -> Diff, rs: seq<R>, limit: Option<int>, diffs: seq<Diff>, seen: nat) {
    && seen <= |rs| && diffs == Replayed(replay, rs, seen) && |diffs| == seen
    && (limit.Some? ==> seen <= Allowed(limit, |rs|) )
  }

  lemma {:induction false} SeenGrows<R>(replay: R -> Diff, rs: seq<R>, more: seq<R>, limit: Option<int>,
                                        diffs: seq<Diff>, seen: nat)
    requires SeenFirst(replay, rs, limit, diffs, seen) && rs <= more
    ensures SeenFirst(replay, more, limit, diffs, seen)
  {
    ReplayedPrefix(replay, rs, more, seen);
  }

  // The inner loop of `_run`: the records of one session, of which `before` come earlier.
  method ReplaySession<R>(replay: R -> Diff, records: seq<R>, limit: Option<int>, diffs: seq<Diff>,
                          ghost before: seq<R>)
    returns (all: seq<Diff>)
    requires SeenFirst(replay, before, limit, diffs, Allowed(limit, |before|))
    ensures SeenFirst(replay, before + records, limit, all, Allowed(limit, |before + records|))
  {
    all := diffs;
    ghost var rs := before + records;
    SeenGrows(replay, before, rs, limit, diffs, |diffs|);
    var i := 0;
    while i < |records|
      invariant i <= |records| && SeenFirst(replay, rs, limit, all, |all|)
      invariant |all| == Allowed(limit, |before| + i)
    {
      if limit.Some? && |all| >= limit.value {
        break;
      }
      assert rs[|all|] == records[i];
      all := all + [replay(records[i])];
      i := i + 1;
    }
  }

  // `_run`: exactly the first min(limit, total) records of all sessions are replayed, in order.
  method Run<R>(replay: R -> Diff, sessions: seq<seq<R>>, limit: Option<int>) returns (diffs: seq<Diff>, read: nat)
    ensures var rs := AllRecords(sessions, |sessions|);
            diffs == Replayed(replay, rs, Allowed(limit, |rs|))
    ensures read <= |sessions| && ReadOnlyAsNeeded(sessions, limit, read)
  {
    diffs, read := [], 0;
    while read < |sessions|
      invariant read <= |sessions|
      invariant SeenFirst(replay, AllRecords(sessions, read), limit, diffs, Allowed(limit, |AllRecords(sessions, read)|))
      invariant forall k :: 0 <= k < read ==> !Exhausted(limit, |AllRecords(sessions, k)|)
    {
      if limit.Some? && |diffs| >= limit.value {
        break;
      }
      diffs := ReplaySession(replay, sessions[read], limit, diffs, AllRecords(sessions, read));
      read := read + 1;
    }
    RecordsGrow(sessions, read, |sessions|);
    SeenGrows(replay, AllRecords(sessions, read), AllRecords(sessions, |sessions|), limit, diffs, |diffs|);
  }

  // ---------------------------------------------------------------- flagging

  function FlagsOf(d: Diff): seq<Flag>
    requires d.Compared?
  {
    (if d.tokenJaccard.Some? && d.tokenJaccard.value < TOKEN_JACCARD_MIN then [TokenJaccard] else [])
    + (if d.sourcesOverlap.Some? && d.sourcesOverlap.value < SOURCES_OVERLAP_MIN then [SourcesOverlap] else [])
    + (if d.latencyDeltaMs.Some? && d.latencyDeltaMs.value > LATENCY_DELTA_MAX_MS then [LatencyDelta] else [])
  }

  predicate Regressed(d: Diff) {
    d.Failed? || FlagsOf(d) != []
  }

  // The flagged ones among the first n diffs.
  function FlaggedTo(diffs: seq<Diff>, n: nat): seq<Flagged>
    requires n <= |diffs|
  {
    if n == 0 then []
    else if !Regressed(diffs[n - 1]) then FlaggedTo(diffs, n - 1)
    else FlaggedTo(diffs, n - 1)
         + [Flagged(diffs[n - 1], if diffs[n - 1].Failed? then [] else FlagsOf(diffs[n - 1]))]
  }

  // `_flag_regressions`
  method FlagRegressions(diffs: seq<Diff>) returns (flagged: seq<Flagged>)
    ensures flagged == FlaggedTo(diffs, |diffs|)
  {
    flagged := [];
    for i := 0 to |diffs|
      invariant flagged == FlaggedTo(diffs, i)
    {
      var d := diffs[i];
      if d.Failed? {
        flagged := flagged + [Flagged(d, [])];
      } else {
        var bad: seq<Flag> := [];
        if d.tokenJaccard.GetOr(1.0) < TOKEN_JACCARD_MIN {
          bad := bad + [TokenJaccard];
        }
        if d.sourcesOverlap.GetOr(1.0) < SOURCES_OVERLAP_MIN {
          bad := bad + [SourcesOverlap];
        }
        if d.latencyDeltaMs.GetOr(0) > LATENCY_DELTA_MAX_MS {
          bad := bad + [LatencyDelta];
        }
        assert bad == FlagsOf(d);
        if bad != [] {
          flagged := flagged + [Flagged(d, bad)];
        }
      }
    }
  }

  // Where each flagged diff comes from: a strictly increasing list of places.
  function Places(diffs: seq<Diff>, n: nat): seq<nat>
    requires n <= |diffs|
  {
    if n == 0 then [] else if Regressed(diffs[n - 1]) then Places(diffs, n - 1) + [n - 1] else Places(diffs, n - 1)
  }

  ghost predicate Rising(places: seq<nat>, n: nat) {
    && (forall a :: 0 <= a < |places| ==> places[a] < n)
    && forall a, b :: 0 <= a < b < |places| ==> places[a] < places[b]
  }

  lemma {:induction false} PlacesOfRegressed(diffs: seq<Diff>, n: nat)
    requires n <= |diffs|
    ensures Rising(Places(diffs, n), n)
    ensures forall i :: i in Places(diffs, n) <==> 0 <= i < n && Regressed(diffs[i])
  {
    if n > 0 {
      PlacesOfRegressed(diffs, n - 1);
      OnePlaceMore(Places(diffs, n - 1), n - 1);
    }
  }

  lemma {:induction false} OnePlaceMore(places: seq<nat>, n: nat)
    requires Rising(places, n)
    ensures Rising(places, n + 1) && Rising(places + [n], n + 1)
    ensures forall i :: i in places + [n] <==> i in places || i == n
  {
  }

  ghost predicate Picked(flagged: seq<Flagged>, diffs: seq<Diff>, places: seq<nat>) {
    |flagged| == |places| && forall a :: 0 <= a < |places| ==> places[a] < |diffs| && flagged[a].diff == diffs[places[a]]
  }

  // The flagged diffs are the failed ones and those across a threshold, all of them, in order.
  lemma {:induction false} FlaggedAreTheRegressed(diffs: seq<Diff>, n: nat)
    requires n <= |diffs|
    ensures Picked(FlaggedTo(diffs, n), diffs, Places(diffs, n)) && Rising(Places(diffs, n), n)
    ensures forall i :: i in Places(diffs, n) <==> 0 <= i < n && Regressed(diffs[i])
  {
    PlacesOfRegressed(diffs, n);
    if n > 0 {
      FlaggedAreTheRegressed(diffs, n - 1);
    }
  }

  // ---------------------------------------------------------------- aggregation

  function ErrorCount(diffs: seq<Diff>, n: nat): nat
    requires n <= |diffs|
  {
    if n == 0 then 0 else ErrorCount(diffs, n - 1) + (if diffs[n - 1].Failed? then 1 else 0)
  }

  function MatchCount(diffs: seq<Diff>, n: nat): nat
    requires n <= |diffs|
  {
    if n == 0 then 0
    else MatchCount(diffs, n - 1) + (if diffs[n - 1].Compared? && diffs[n - 1].toolCallsMatch then 1 else 0)
  }

  // `tool_match_count / max(1, len(diffs) - error_count)`
  function MatchRate(diffs: seq<Diff>): real {
    var n := |diffs|;
    var compared := n - ErrorCount(diffs, n);
    MatchCount(diffs, n) as real / (if compared > 1 then compared else 1) as real
  }

  lemma {:induction false} MatchesAreCompared(diffs: seq<Diff>, n: nat)
    requires n <= |diffs|
    ensures MatchCount(diffs, n) + ErrorCount(diffs, n) <= n
    ensures MatchCount(diffs, n) + ErrorCount(diffs, n) == n
            <==> forall i :: 0 <= i < n ==> diffs[i].Failed? || diffs[i].toolCallsMatch
  {
    if n > 0 {
      MatchesAreCompared(diffs, n - 1);
    }
  }

  // The rate lies between 0 and 1; it is 1 exactly when some replay was compared and every
  // compared one matched.
  lemma {:induction false} MatchRateIsARate(diffs: seq<Diff>)
    ensures 0.0 <= MatchRate(diffs) <= 1.0
    ensures MatchRate(diffs) == 1.0
            <==> ErrorCount(diffs, |diffs|) < |diffs|
                 && forall i :: 0 <= i < |diffs| ==> diffs[i].Failed? || diffs[i].toolCallsMatch
  {
    MatchesAreCompared(diffs, |diffs|);
    var compared := |diffs| - ErrorCount(diffs, |diffs|);
    Fraction(MatchCount(diffs, |diffs|), if compared > 1 then compared else 1);
  }
}
