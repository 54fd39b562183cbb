/** When merging raises: only by appending where a falsy value stands in place of a list. */
module MergeFailure {
  import opened Wrappers
  import opened Folds
  import opened ReportMerge
  import opened MergeKeeps

  ghost predicate AllTurnLists(ss: seq<Session>) {
    forall i :: 0 <= i < |ss| ==> !ss[i].turns.presence.NoList?
  }

  // Neither in place of the list of sessions nor of a list of turns stands a value that is no list.
  ghost predicate AllLists(l: Listing<Session>) {
    !l.presence.NoList? && AllTurnLists(l.OrEmpty())
  }

  lemma {:induction false} PutTurnsSucceeds(l: Listing<Attrs>, os: seq<Attrs>, n: nat)
    requires n <= |os| && !l.presence.NoList?
    ensures FoldTo(PutTurn, l, os, n).Success? && !FoldTo(PutTurn, l, os, n).value.presence.NoList?
  {
    if n > 0 {
      PutTurnsSucceeds(l, os, n - 1);
    }
  }

  lemma {:induction false} PutSessionSucceeds(fields: set<string>, l: Listing<Session>, o: Session)
    requires AllLists(l) && !o.turns.presence.NoList?
    ensures PutSession(fields, l, o).Success? && AllLists(PutSession(fields, l, o).value)
  {
    var j := Find(SessionKeys(l.OrEmpty()), Key(o.attrs));
    if Key(o.attrs) != "" && j >= 0 {
      assert !l.OrEmpty()[j].turns.presence.NoList?;
      PutTurnsSucceeds(l.OrEmpty()[j].turns, o.turns.OrEmpty(), |o.turns.OrEmpty()|);
    }
  }

  lemma {:induction false} PutSessionsSucceed(fields: set<string>, l: Listing<Session>, os: seq<Session>, n: nat)
    requires n <= |os| && AllLists(l) && AllTurnLists(os)
    ensures FoldTo(Putting(fields), l, os, n).Success? && AllLists(FoldTo(Putting(fields), l, os, n).value)
  {
    if n > 0 {
      PutSessionsSucceed(fields, l, os, n - 1);
      PutSessionSucceeds(fields, FoldTo(Putting(fields), l, os, n - 1).value, os[n - 1]);
    }
  }

  // Without such values in the base and in the overlays' sessions, merging never raises, and
  // the result has none either, so it can be merged into again.
  lemma {:induction false} MergeSucceeds(fields: set<string>, base: Report, overlays: seq<Report>)
    requires AllLists(base.sessions) && AllTurnLists(AllSessions(overlays))
    ensures MergeReports(fields, base, overlays).Success?
    ensures AllLists(MergeReports(fields, base, overlays).value.sessions)
  {
    PutSessionsSucceed(fields, base.sessions, AllSessions(overlays), |AllSessions(overlays)|);
  }

  // A base whose `sessions` is no list takes no new session: merging raises exactly when the
  // overlays hold a session with an id.
  lemma {:induction false} NoListBaseRaisesIff(fields: set<string>, base: Report, overlays: seq<Report>)
    requires base.sessions == Listing(NoList, [])
    ensures MergeReports(fields, base, overlays).Failure?
            <==> exists i :: 0 <= i < |AllSessions(overlays)| && Key(AllSessions(overlays)[i].attrs) != ""
  {
    NoListBaseStays(fields, base.sessions, AllSessions(overlays), |AllSessions(overlays)|);
  }

  lemma {:induction false} NoListBaseStays(fields: set<string>, l: Listing<Session>, os: seq<Session>, n: nat)
    requires n <= |os| && l == Listing(NoList, [])
    ensures FoldTo(Putting(fields), l, os, n)
            == if exists i :: 0 <= i < n && Key(os[i].attrs) != "" then Failure(AppendToNoList) else Success(l)
  {
    if n > 0 {
      NoListBaseStays(fields, l, os, n - 1);
      assert Find(SessionKeys([]), Key(os[n - 1].attrs)) == -1;
    }
  }

  // ---------------------------------------------------------------- when merging raises

  // Some turn among the first n has an id.
  ghost predicate BringsTurn(os: seq<Attrs>, n: nat)
    requires n <= |os|
  {
    exists a :: 0 <= a < n && Key(os[a]) != ""
  }

  // What is no list takes no new turn.
  lemma {:induction false} PutTurnsOnNoList(l: Listing<Attrs>, os: seq<Attrs>, n: nat)
    requires n <= |os| && l.presence.NoList?
    ensures FoldTo(PutTurn, l, os, n) == if BringsTurn(os, n) then Failure(AppendToNoList) else Success(l)
  {
    if n > 0 {
      PutTurnsOnNoList(l, os, n - 1);
      assert Find(TurnKeys([]), Key(os[n - 1])) == -1;
      if Key(os[n - 1]) != "" {
        assert BringsTurn(os, n);
      }
    }
  }

  // The session raises: it brings a turn with an id to a session that came into the report
  // with `turns` that are no list, or is new where `sessions` is none.
  ghost predicate Raises(origins: seq<Session>, noList: bool, o: Session) {
    var j := Target(origins, o);
    && Key(o.attrs) != ""
    && if j >= 0 then origins[j].turns.presence.NoList? && BringsTurn(o.turns.OrEmpty(), |o.turns.OrEmpty()|)
       else noList
  }

  // Overlay session k raises, given how the sessions before it came into the report.
  ghost predicate RaisesAt(l: Listing<Session>, os: seq<Session>, k: nat)
    requires k < |os|
  {
    Raises(Origins(l.OrEmpty(), os, k), l.presence.NoList?, os[k])
  }

  // One of the first n overlay sessions raises.
  ghost predicate RaisesBefore(l: Listing<Session>, os: seq<Session>, n: nat)
    requires n <= |os|
  {
    n > 0 && (RaisesBefore(l, os, n - 1) || RaisesAt(l, os, n - 1))
  }

  lemma {:induction false} RaisesBeforeHas(l: Listing<Session>, os: seq<Session>, n: nat, k: nat)
    requires k < n <= |os| && RaisesAt(l, os, k)
    ensures RaisesBefore(l, os, n)
  {
    if k < n - 1 {
      RaisesBeforeHas(l, os, n - 1, k);
    }
  }

  lemma {:induction false} RaisesBeforeFinds(l: Listing<Session>, os: seq<Session>, n: nat) returns (k: nat)
    requires n <= |os| && RaisesBefore(l, os, n)
    ensures k < n && RaisesAt(l, os, k)
  {
    if RaisesAt(l, os, n - 1) {
      k := n - 1;
    } else {
      k := RaisesBeforeFinds(l, os, n - 1);
    }
  }

  // The same ones have turns that are no list.
  ghost predicate ListsAlike(ss: seq<Session>, ts: seq<Session>) {
    |ss| == |ts| && forall i :: 0 <= i < |ss| ==> (ss[i].turns.presence.NoList? <==> ts[i].turns.presence.NoList?)
  }

  // One session is put in, where those without a list of turns are those of `origins`.
  lemma {:induction false} PutSessionRaisesIff(fields: set<string>, origins: seq<Session>, m: Listing<Session>,
                                               o: Session)
    requires ListsAlike(origins, m.OrEmpty()) && SessionKeys(origins) == SessionKeys(m.OrEmpty())
    ensures PutSession(fields, m, o).Failure? <==> Raises(origins, m.presence.NoList?, o)
    ensures PutSession(fields, m, o).Success? ==>
      && ListsAlike(Origins(origins, [o], 1), PutSession(fields, m, o).value.OrEmpty())
      && (m.presence.NoList? <==> PutSession(fields, m, o).value.presence.NoList?)
  {
    var ms, os := m.OrEmpty(), o.turns.OrEmpty();
    var j := Find(SessionKeys(ms), Key(o.attrs));
    FindNone(SessionKeys(ms), Key(o.attrs));
    assert Origins(origins, [o], 0) == origins;
    if Key(o.attrs) != "" && j >= 0 {
      assert ms[j].turns.presence.NoList? <==> origins[j].turns.presence.NoList?;
      if ms[j].turns.presence.NoList? {
        PutTurnsOnNoList(ms[j].turns, os, |os|);
      } else {
        PutTurnsSucceeds(ms[j].turns, os, |os|);
      }
    }
  }

  lemma {:induction false} PutSessionsRaiseIff(fields: set<string>, l: Listing<Session>, os: seq<Session>, n: nat)
    requires "id" !in fields && n <= |os|
    ensures FoldTo(Putting(fields), l, os, n).Failure? <==> RaisesBefore(l, os, n)
    ensures FoldTo(Putting(fields), l, os, n).Success? ==>
      && ListsAlike(Origins(l.OrEmpty(), os, n), FoldTo(Putting(fields), l, os, n).value.OrEmpty())
      && (l.presence.NoList? <==> FoldTo(Putting(fields), l, os, n).value.presence.NoList?)
  {
    if n > 0 {
      PutSessionsRaiseIff(fields, l, os, n - 1);
      var r, before := FoldTo(Putting(fields), l, os, n - 1), Origins(l.OrEmpty(), os, n - 1);
      if r.Success? {
        KeysOfMerged(fields, l, os, n - 1);
        PutSessionRaisesIff(fields, before, r.value, os[n - 1]);
        OriginsStep(l.OrEmpty(), os, n);
      }
    }
  }

  // Merging raises if and only if some overlay session brings a turn with an id to a session
  // that came with `turns` that are no list, from the base or from an earlier overlay, or
  // brings a new session id to a base whose `sessions` is no list.
  lemma {:induction false} MergeRaisesIff(fields: set<string>, base: Report, overlays: seq<Report>)
    requires "id" !in fields
    ensures var os := AllSessions(overlays);
            MergeReports(fields, base, overlays).Failure? <==> exists k :: 0 <= k < |os| && RaisesAt(base.sessions, os, k)
  {
    PutSessionsRaiseIff(fields, base.sessions, AllSessions(overlays), |AllSessions(overlays)|);
    var l, os := base.sessions, AllSessions(overlays);
    if RaisesBefore(l, os, |os|) {
      var k := RaisesBeforeFinds(l, os, |os|);
    } else {
      forall k | 0 <= k < |os| && RaisesAt(l, os, k) ensures false {
        RaisesBeforeHas(l, os, |os|, k);
      }
    }
  }

  // A session whose `turns` are null, say, and an overlay of its id with a turn that has an id
  lemma {:induction false} NoListTurnsRaise(fields: set<string>, extra: Attrs, id: Value, turn: Attrs)
    requires "id" !in fields && id.Json? && id.idText != "" && Key(turn) != ""
    ensures var base := Report(extra, Items([Session(map["id" := id], Listing(NoList, []))]));
            var overlay := Report(extra, Items([Session(map["id" := id], Items([turn]))]));
            MergeReports(fields, base, [overlay]).Failure?
  {
    var s, o := Session(map["id" := id], Listing(NoList, [])), Session(map["id" := id], Items([turn]));
    var base, overlay := Report(extra, Items([s])), Report(extra, Items([o]));
    assert AllSessionsTo([overlay], 0) == [];
    var os := AllSessions([overlay]);
    assert os == [o];
    assert Origins([s], os, 0) == [s];
    assert SessionKeys([s])[0] == Key(o.attrs);
    FindIs(SessionKeys([s]), Key(o.attrs), 0);
    assert Key(o.turns.OrEmpty()[0]) != "";
    assert RaisesAt(base.sessions, os, 0);
    MergeRaisesIff(fields, base, [overlay]);
  }
}
