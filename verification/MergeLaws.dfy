/**
 What merging keeps and what it changes: positions and ids, and the last writer of each
 field.
 */
module MergeLaws {
  import opened Wrappers
  import opened Folds
  import opened ReportMerge

  // ---------------------------------------------------------------- ids

  // A nonblank id not seen before goes to the end.
  function AddKey(keys: seq<string>, k: string): seq<string> {
    if k == "" || k in keys then keys else keys + [k]
  }

  function AddKeysTo(keys: seq<string>, ks: seq<string>, n: nat): seq<string>
    requires n <= |ks|
  {
    if n == 0 then keys else AddKey(AddKeysTo(keys, ks, n - 1), ks[n - 1])
  }

  function AddKeys(keys: seq<string>, ks: seq<string>): seq<string> {
    AddKeysTo(keys, ks, |ks|)
  }

  // No id but the blank one occurs twice.
  predicate Distinct(keys: seq<string>) {
    forall i, j | 0 <= i < j < |keys| && keys[i] != "" :: keys[i] != keys[j]
  }

  lemma {:induction false} AddKeyKeepsDistinct(keys: seq<string>, k: string)
    requires Distinct(keys)
    ensures Distinct(AddKey(keys, k)) && keys <= AddKey(keys, k)
  {
  }

  lemma {:induction false} AddKeysKeepDistinct(keys: seq<string>, ks: seq<string>, n: nat)
    requires n <= |ks|
    ensures keys <= AddKeysTo(keys, ks, n)
    ensures Distinct(keys) ==> Distinct(AddKeysTo(keys, ks, n))
  {
    if n > 0 {
      AddKeysKeepDistinct(keys, ks, n - 1);
      if Distinct(keys) { AddKeyKeepsDistinct(AddKeysTo(keys, ks, n - 1), ks[n - 1]); }
    }
  }

  lemma {:induction false} PutTurnKeys(l: Listing<Attrs>, o: Attrs)
    requires PutTurn(l, o).Success?
    ensures TurnKeys(PutTurn(l, o).value.OrEmpty()) == AddKey(TurnKeys(l.OrEmpty()), Key(o))
  {
    var ts := l.OrEmpty();
    var j := Find(TurnKeys(ts), Key(o));
    FindNone(TurnKeys(ts), Key(o));
    if Key(o) != "" && j >= 0 {
      FindToIsLast(TurnKeys(ts), Key(o), |ts|);
      assert "id" in o && Key(ts[j] + o) == Key(o) == Key(ts[j]);
    }
  }

  lemma {:induction false} PutTurnsKeys(l: Listing<Attrs>, os: seq<Attrs>, n: nat)
    requires n <= |os| && FoldTo(PutTurn, l, os, n).Success?
    ensures TurnKeys(FoldTo(PutTurn, l, os, n).value.OrEmpty()) == AddKeysTo(TurnKeys(l.OrEmpty()), TurnKeys(os), n)
  {
    if n > 0 {
      PutTurnsKeys(l, os, n - 1);
      PutTurnKeys(FoldTo(PutTurn, l, os, n - 1).value, os[n - 1]);
    }
  }

  lemma {:induction false} UpdateFieldsKey(fields: set<string>, t: Attrs, o: Attrs)
    requires "id" !in fields
    ensures Key(UpdateFields(fields, t, o)) == Key(t)
  {
    assert Get(UpdateFields(fields, t, o), "id") == Get(t, "id");
  }

  lemma {:induction false} PutSessionKeys(fields: set<string>, l: Listing<Session>, o: Session)
    requires "id" !in fields
    requires PutSession(fields, l, o).Success?
    ensures SessionKeys(PutSession(fields, l, o).value.OrEmpty()) == AddKey(SessionKeys(l.OrEmpty()), Key(o.attrs))
  {
    var ss := l.OrEmpty();
    var j := Find(SessionKeys(ss), Key(o.attrs));
    FindNone(SessionKeys(ss), Key(o.attrs));
    if j >= 0 { UpdateFieldsKey(fields, ss[j].attrs, o.attrs); }
  }

  lemma {:induction false} PutSessionsKeys(fields: set<string>, l: Listing<Session>, os: seq<Session>, n: nat)
    requires "id" !in fields
    requires n <= |os| && FoldTo(Putting(fields), l, os, n).Success?
    ensures SessionKeys(FoldTo(Putting(fields), l, os, n).value.OrEmpty())
            == AddKeysTo(SessionKeys(l.OrEmpty()), SessionKeys(os), n)
  {
    if n > 0 {
      PutSessionsKeys(fields, l, os, n - 1);
      PutSessionKeys(fields, FoldTo(Putting(fields), l, os, n - 1).value, os[n - 1]);
    }
  }

  // Sessions of the merged report: those of the base in place, then the new ids of the
  // overlays in the order they are first seen.
  lemma {:induction false} MergedSessionIds(fields: set<string>, base: Report, overlays: seq<Report>)
    requires "id" !in fields
    requires MergeReports(fields, base, overlays).Success?
    ensures SessionKeys(MergeReports(fields, base, overlays).value.sessions.OrEmpty())
            == AddKeys(SessionKeys(base.sessions.OrEmpty()), SessionKeys(AllSessions(overlays)))
    ensures MergeReports(fields, base, overlays).value.extra == base.extra
  {
    var os := AllSessions(overlays);
    PutSessionsKeys(fields, base.sessions, os, |os|);
  }

  // Sessions keep their place, and their turns theirs.
  ghost predicate Grows(ss: seq<Session>, ts: seq<Session>) {
    && |ss| <= |ts|
    && forall i | 0 <= i < |ss| ::
         Key(ts[i].attrs) == Key(ss[i].attrs) && TurnKeys(ss[i].turns.OrEmpty()) <= TurnKeys(ts[i].turns.OrEmpty())
  }

  // Turn ids are distinct in every session.
  ghost predicate DistinctTurns(ss: seq<Session>) {
    forall i | 0 <= i < |ss| :: Distinct(TurnKeys(ss[i].turns.OrEmpty()))
  }

  lemma {:induction false} PutSessionGrows(fields: set<string>, l: Listing<Session>, o: Session)
    requires "id" !in fields
    requires PutSession(fields, l, o).Success?
    ensures Grows(l.OrEmpty(), PutSession(fields, l, o).value.OrEmpty())
  {
    var ss := l.OrEmpty();
    var j := Find(SessionKeys(ss), Key(o.attrs));
    if Key(o.attrs) != "" && j >= 0 {
      var t, os := ss[j], o.turns.OrEmpty();
      UpdateFieldsKey(fields, t.attrs, o.attrs);
      PutTurnsKeys(t.turns, os, |os|);
      AddKeysKeepDistinct(TurnKeys(t.turns.OrEmpty()), TurnKeys(os), |os|);
    }
  }

  lemma {:induction false} PutSessionKeepsDistinct(fields: set<string>, l: Listing<Session>, o: Session)
    requires PutSession(fields, l, o).Success? && DistinctTurns(l.OrEmpty()) && Distinct(TurnKeys(o.turns.OrEmpty()))
    ensures DistinctTurns(PutSession(fields, l, o).value.OrEmpty())
  {
    var ss := l.OrEmpty();
    var j := Find(SessionKeys(ss), Key(o.attrs));
    if Key(o.attrs) != "" && j >= 0 {
      var t, os := ss[j], o.turns.OrEmpty();
      PutTurnsKeys(t.turns, os, |os|);
      AddKeysKeepDistinct(TurnKeys(t.turns.OrEmpty()), TurnKeys(os), |os|);
    }
  }

  lemma {:induction false} GrowsTransitive(ss: seq<Session>, ts: seq<Session>, us: seq<Session>)
    requires Grows(ss, ts) && Grows(ts, us)
    ensures Grows(ss, us)
  {
  }

  lemma {:induction false} PutSessionsGrow(fields: set<string>, l: Listing<Session>, os: seq<Session>, n: nat)
    requires "id" !in fields
    requires n <= |os| && FoldTo(Putting(fields), l, os, n).Success?
    ensures Grows(l.OrEmpty(), FoldTo(Putting(fields), l, os, n).value.OrEmpty())
  {
    if n > 0 {
      PutSessionsGrow(fields, l, os, n - 1);
      GrowsByOne(fields, l.OrEmpty(), FoldTo(Putting(fields), l, os, n - 1).value, os[n - 1]);
    }
  }

  lemma {:induction false} GrowsByOne(fields: set<string>, ss: seq<Session>, m: Listing<Session>, o: Session)
    requires "id" !in fields && PutSession(fields, m, o).Success? && Grows(ss, m.OrEmpty())
    ensures Grows(ss, PutSession(fields, m, o).value.OrEmpty())
  {
    PutSessionGrows(fields, m, o);
    GrowsTransitive(ss, m.OrEmpty(), PutSession(fields, m, o).value.OrEmpty());
  }

  lemma {:induction false} PutSessionsKeepDistinct(fields: set<string>, l: Listing<Session>, os: seq<Session>, n: nat)
    requires n <= |os| && FoldTo(Putting(fields), l, os, n).Success?
    requires DistinctTurns(l.OrEmpty()) && DistinctTurns(os)
    ensures DistinctTurns(FoldTo(Putting(fields), l, os, n).value.OrEmpty())
  {
    if n > 0 {
      PutSessionsKeepDistinct(fields, l, os, n - 1);
      PutSessionKeepsDistinct(fields, FoldTo(Putting(fields), l, os, n - 1).value, os[n - 1]);
    }
  }

  // Nothing is lost or reordered, and distinct ids stay distinct.
  lemma {:induction false} MergeKeepsPlaces(fields: set<string>, base: Report, overlays: seq<Report>)
    requires "id" !in fields
    requires MergeReports(fields, base, overlays).Success?
    ensures var ss, ts := base.sessions.OrEmpty(), MergeReports(fields, base, overlays).value.sessions.OrEmpty();
            && Grows(ss, ts)
            && (Distinct(SessionKeys(ss)) ==> Distinct(SessionKeys(ts)))
            && (DistinctTurns(ss) && DistinctTurns(AllSessions(overlays)) ==> DistinctTurns(ts))
  {
    var os := AllSessions(overlays);
    PutSessionsGrow(fields, base.sessions, os, |os|);
    if DistinctTurns(base.sessions.OrEmpty()) && DistinctTurns(os) {
      PutSessionsKeepDistinct(fields, base.sessions, os, |os|);
    }
    MergedSessionIds(fields, base, overlays);
    AddKeysKeepDistinct(SessionKeys(base.sessions.OrEmpty()), SessionKeys(os), |os|);
  }

  // ---------------------------------------------------------------- the last writer of a turn field

  // Field f of the last turn with id `tid`.
  function TurnField(ts: seq<Attrs>, tid: string, f: string): Option<Value> {
    var i := Find(TurnKeys(ts), tid);
    if i >= 0 && f in ts[i] then Some(ts[i][f]) else None
  }

  // Field f of the last turn with id `tid` that has it, among the first n.
  function SuppliedTo(ts: seq<Attrs>, tid: string, f: string, n: nat): Option<Value>
    requires n <= |ts|
  {
    if n == 0 then None
    else if Key(ts[n - 1]) == tid && f in ts[n - 1] then Some(ts[n - 1][f])
    else SuppliedTo(ts, tid, f, n - 1)
  }

  function OrElse(a: Option<Value>, b: Option<Value>): Option<Value> {
    if a.Some? then a else b
  }

  lemma {:induction false} PutTurnField(l: Listing<Attrs>, o: Attrs, tid: string, f: string)
    requires tid != "" && PutTurn(l, o).Success?
    ensures TurnField(PutTurn(l, o).value.OrEmpty(), tid, f) ==
            if Key(o) == tid && f in o then Some(o[f]) else TurnField(l.OrEmpty(), tid, f)
  {
    var ts := l.OrEmpty();
    var keys := TurnKeys(ts);
    var j := Find(keys, Key(o));
    FindToIsLast(keys, Key(o), |ts|);
    PutTurnKeys(l, o);
    if Key(o) != "" && j < 0 {
      FindSnoc(keys, Key(o), tid);
      FindNone(keys, Key(o));
    }
    if Key(o) != "" && j >= 0 {
      FindNone(keys, Key(o));
      FindToIsLast(keys, tid, |ts|);
    }
  }

  lemma {:induction false} PutTurnsField(l: Listing<Attrs>, os: seq<Attrs>, tid: string, f: string, n: nat)
    requires n <= |os| && tid != "" && FoldTo(PutTurn, l, os, n).Success?
    ensures TurnField(FoldTo(PutTurn, l, os, n).value.OrEmpty(), tid, f)
            == OrElse(SuppliedTo(os, tid, f, n), TurnField(l.OrEmpty(), tid, f))
  {
    if n > 0 {
      PutTurnsField(l, os, tid, f, n - 1);
      PutTurnField(FoldTo(PutTurn, l, os, n - 1).value, os[n - 1], tid, f);
    }
  }

  // The field of the last turn of the id, where it has the field, is the one supplied.
  lemma {:induction false} LastTurnSupplies(ts: seq<Attrs>, tid: string, f: string, n: nat)
    requires n <= |ts|
    ensures var i := FindTo(TurnKeys(ts), tid, n);
            && (i >= 0 && f in ts[i] ==> SuppliedTo(ts, tid, f, n) == Some(ts[i][f]))
            && (i < 0 ==> SuppliedTo(ts, tid, f, n) == None)
  {
    if n > 0 {
      LastTurnSupplies(ts, tid, f, n - 1);
      assert TurnKeys(ts)[n - 1] == Key(ts[n - 1]);
    }
  }

  // Field f of the turn (sid, tid) of a list of sessions.
  function FieldOf(ss: seq<Session>, sid: string, tid: string, f: string): Option<Value> {
    var j := Find(SessionKeys(ss), sid);
    if j >= 0 then TurnField(ss[j].turns.OrEmpty(), tid, f) else None
  }

  // What an overlay session supplies for (sid, tid, f): the field of its last turn that has it.
  function Supply(o: Session, sid: string, tid: string, f: string): Option<Value> {
    if Key(o.attrs) == sid then SuppliedTo(o.turns.OrEmpty(), tid, f, |o.turns.OrEmpty()|) else None
  }

  // What the last overlay session that supplies it supplies, among the first n.
  function LastSupplyTo(os: seq<Session>, sid: string, tid: string, f: string, n: nat): Option<Value>
    requires n <= |os|
  {
    if n == 0 then None
    else OrElse(Supply(os[n - 1], sid, tid, f), LastSupplyTo(os, sid, tid, f, n - 1))
  }

  // The first overlay session of the id among the first n, or n.
  function FirstTo(os: seq<Session>, sid: string, n: nat): (k: nat)
    requires n <= |os|
    ensures k <= n
  {
    if n == 0 then 0
    else
      var k := FirstTo(os, sid, n - 1);
      if k < n - 1 || Key(os[n - 1].attrs) == sid then k else n
  }

  // Only turns before the last one of the id have the field.
  predicate Shadowed(ts: seq<Attrs>, tid: string, f: string) {
    TurnField(ts, tid, f).None? && SuppliedTo(ts, tid, f, |ts|).Some?
  }

  // No overlay session from k on and before n supplies the field.
  predicate NoneSupplies(os: seq<Session>, sid: string, tid: string, f: string, k: nat, n: nat)
    requires n <= |os|
  {
    n <= k || (Supply(os[n - 1], sid, tid, f).None? && NoneSupplies(os, sid, tid, f, k, n - 1))
  }

  // The field is lost: the session comes from an overlay, which repeats the turn id with the
  // field in earlier turns only, and no later overlay session of the id supplies it.
  predicate HiddenTo(ss: seq<Session>, os: seq<Session>, sid: string, tid: string, f: string, n: nat)
    requires n <= |os|
  {
    var k := FirstTo(os, sid, n);
    && sid !in SessionKeys(ss) && k < n
    && Shadowed(os[k].turns.OrEmpty(), tid, f) && NoneSupplies(os, sid, tid, f, k + 1, n)
  }

  predicate Hidden(ss: seq<Session>, os: seq<Session>, sid: string, tid: string, f: string) {
    HiddenTo(ss, os, sid, tid, f, |os|)
  }

  lemma {:induction false} NothingBeforeFirst(os: seq<Session>, sid: string, tid: string, f: string, n: nat)
    requires n <= |os| && FirstTo(os, sid, n) == n
    ensures LastSupplyTo(os, sid, tid, f, n) == None && sid !in SessionKeys(os)[..n]
  {
    if n > 0 {
      NothingBeforeFirst(os, sid, tid, f, n - 1);
      assert SessionKeys(os)[..n] == SessionKeys(os)[..n - 1] + [Key(os[n - 1].attrs)];
    }
  }

  lemma {:induction false} FirstHasKey(os: seq<Session>, sid: string, n: nat)
    requires n <= |os| && FirstTo(os, sid, n) < n
    ensures Key(os[FirstTo(os, sid, n)].attrs) == sid
  {
    if FirstTo(os, sid, n - 1) < n - 1 {
      FirstHasKey(os, sid, n - 1);
    }
  }

  lemma {:induction false} AddedKeys(keys: seq<string>, ks: seq<string>, k: string, n: nat)
    requires n <= |ks| && k != ""
    ensures k in AddKeysTo(keys, ks, n) <==> k in keys || k in ks[..n]
  {
    if n > 0 {
      AddedKeys(keys, ks, k, n - 1);
      assert ks[..n] == ks[..n - 1] + [ks[n - 1]];
    }
  }

  // The report knows the session after n overlay sessions.
  lemma {:induction false} KnownIff(fields: set<string>, l: Listing<Session>, os: seq<Session>, sid: string, n: nat)
    requires "id" !in fields && sid != ""
    requires n <= |os| && FoldTo(Putting(fields), l, os, n).Success?
    ensures sid in SessionKeys(FoldTo(Putting(fields), l, os, n).value.OrEmpty())
            <==> sid in SessionKeys(l.OrEmpty()) || FirstTo(os, sid, n) < n
  {
    PutSessionsKeys(fields, l, os, n);
    AddedKeys(SessionKeys(l.OrEmpty()), SessionKeys(os), sid, n);
    if FirstTo(os, sid, n) == n {
      NothingBeforeFirst(os, sid, "", "", n);
    } else {
      FirstHasKey(os, sid, n);
      assert SessionKeys(os)[..n][FirstTo(os, sid, n)] == sid;
    }
  }

  // One overlay session: merged where the id is known, else appended as it is.
  lemma {:induction false} PutSessionField(fields: set<string>, l: Listing<Session>, o: Session, sid: string,
                                           tid: string, f: string)
    requires "id" !in fields
    requires sid != "" && tid != "" && PutSession(fields, l, o).Success?
    ensures FieldOf(PutSession(fields, l, o).value.OrEmpty(), sid, tid, f)
            == if Key(o.attrs) == sid && sid !in SessionKeys(l.OrEmpty()) then TurnField(o.turns.OrEmpty(), tid, f)
               else OrElse(Supply(o, sid, tid, f), FieldOf(l.OrEmpty(), sid, tid, f))
  {
    var ss := l.OrEmpty();
    var keys, k := SessionKeys(ss), Key(o.attrs);
    var j := Find(keys, k);
    FindNone(keys, k);
    PutSessionKeys(fields, l, o);
    if k != "" {
      if j >= 0 {
        FindToIsLast(keys, k, |ss|);
        FindToIsLast(keys, sid, |ss|);
        PutTurnsField(ss[j].turns, o.turns.OrEmpty(), tid, f, |o.turns.OrEmpty()|);
      } else {
        FindSnoc(keys, k, sid);
      }
    }
  }

  // What is found of a field: nothing if it is hidden, else what the last overlay session
  // that supplies it supplies, else what the base has.
  function Expected(ss: seq<Session>, os: seq<Session>, sid: string, tid: string, f: string, n: nat): Option<Value>
    requires n <= |os|
  {
    if HiddenTo(ss, os, sid, tid, f, n) then None
    else OrElse(LastSupplyTo(os, sid, tid, f, n), FieldOf(ss, sid, tid, f))
  }

  // The session comes with overlay session n - 1.
  lemma {:induction false} ExpectedAtFirst(ss: seq<Session>, os: seq<Session>, sid: string, tid: string, f: string,
                                           n: nat)
    requires 0 < n <= |os| && sid !in SessionKeys(ss)
    requires Key(os[n - 1].attrs) == sid && FirstTo(os, sid, n - 1) == n - 1
    ensures Expected(ss, os, sid, tid, f, n) == TurnField(os[n - 1].turns.OrEmpty(), tid, f)
  {
    var us := os[n - 1].turns.OrEmpty();
    FindNone(SessionKeys(ss), sid);
    NothingBeforeFirst(os, sid, tid, f, n - 1);
    LastTurnSupplies(us, tid, f, |us|);
    assert FieldOf(ss, sid, tid, f) == None;
  }

  // It was there before, or is still to come.
  lemma {:induction false} HiddenStep(ss: seq<Session>, os: seq<Session>, sid: string, tid: string, f: string, n: nat)
    requires 0 < n <= |os|
    requires sid in SessionKeys(ss) || FirstTo(os, sid, n - 1) < n - 1 || Key(os[n - 1].attrs) != sid
    ensures HiddenTo(ss, os, sid, tid, f, n)
            <==> HiddenTo(ss, os, sid, tid, f, n - 1) && Supply(os[n - 1], sid, tid, f).None?
  {
  }

  lemma {:induction false} ExpectedStep(ss: seq<Session>, os: seq<Session>, sid: string, tid: string, f: string, n: nat)
    requires 0 < n <= |os|
    ensures Expected(ss, os, sid, tid, f, n)
            == if Key(os[n - 1].attrs) == sid && sid !in SessionKeys(ss) && FirstTo(os, sid, n - 1) == n - 1
               then TurnField(os[n - 1].turns.OrEmpty(), tid, f)
               else OrElse(Supply(os[n - 1], sid, tid, f), Expected(ss, os, sid, tid, f, n - 1))
  {
    if Key(os[n - 1].attrs) == sid && sid !in SessionKeys(ss) && FirstTo(os, sid, n - 1) == n - 1 {
      ExpectedAtFirst(ss, os, sid, tid, f, n);
    } else {
      HiddenStep(ss, os, sid, tid, f, n);
    }
  }

  lemma {:induction false} PutSessionsField(fields: set<string>, l: Listing<Session>, os: seq<Session>, sid: string,
                                            tid: string, f: string, n: nat)
    requires "id" !in fields
    requires n <= |os| && sid != "" && tid != "" && FoldTo(Putting(fields), l, os, n).Success?
    ensures FieldOf(FoldTo(Putting(fields), l, os, n).value.OrEmpty(), sid, tid, f)
            == Expected(l.OrEmpty(), os, sid, tid, f, n)
  {
    if n > 0 {
      PutSessionsField(fields, l, os, sid, tid, f, n - 1);
      PutSessionField(fields, FoldTo(Putting(fields), l, os, n - 1).value, os[n - 1], sid, tid, f);
      KnownIff(fields, l, os, sid, n - 1);
      ExpectedStep(l.OrEmpty(), os, sid, tid, f, n);
    }
  }

  // A hidden field is supplied by an overlay and found nowhere.
  lemma {:induction false} HiddenIsSupplied(ss: seq<Session>, os: seq<Session>, sid: string, tid: string, f: string,
                                            n: nat)
    requires n <= |os| && HiddenTo(ss, os, sid, tid, f, n)
    ensures LastSupplyTo(os, sid, tid, f, n).Some?
  {
    var k := FirstTo(os, sid, n);
    if k == n - 1 {
      FirstHasKey(os, sid, n);
    } else {
      assert Supply(os[n - 1], sid, tid, f).None?;
      HiddenIsSupplied(ss, os, sid, tid, f, n - 1);
    }
  }

  // Each turn field of the merged report comes from the last overlay that supplies it, and
  // from the base when none does, exactly unless it is hidden; then it is lost.
  lemma {:induction false} LastOverlayWinsIff(fields: set<string>, base: Report, overlays: seq<Report>,
                                              sid: string, tid: string, f: string)
    requires "id" !in fields
    requires sid != "" && tid != "" && MergeReports(fields, base, overlays).Success?
    ensures var ss, os := base.sessions.OrEmpty(), AllSessions(overlays);
            var found := FieldOf(MergeReports(fields, base, overlays).value.sessions.OrEmpty(), sid, tid, f);
            && (found == OrElse(LastSupplyTo(os, sid, tid, f, |os|), FieldOf(ss, sid, tid, f))
                <==> !Hidden(ss, os, sid, tid, f))
            && (Hidden(ss, os, sid, tid, f) ==> found == None)
  {
    var ss, os := base.sessions.OrEmpty(), AllSessions(overlays);
    PutSessionsField(fields, base.sessions, os, sid, tid, f, |os|);
    if Hidden(ss, os, sid, tid, f) {
      HiddenIsSupplied(ss, os, sid, tid, f, |os|);
    }
  }

  // ---------------------------------------------------------------- the last writer of a session field

  // Field f, by `get`, of the last session with id `sid`.
  function SessionField(ss: seq<Session>, sid: string, f: string): Option<Value> {
    var j := Find(SessionKeys(ss), sid);
    if j >= 0 then Some(Get(ss[j].attrs, f)) else None
  }

  // After `n` overlay sessions: the last one of id `sid` with the field decides; one
  // without the field keeps the value, or gives null where there is none.
  function FieldAfter(os: seq<Session>, sid: string, f: string, was: Option<Value>, n: nat): Option<Value>
    requires n <= |os|
  {
    if n == 0 then was
    else if Key(os[n - 1].attrs) != sid then FieldAfter(os, sid, f, was, n - 1)
    else if f in os[n - 1].attrs then Some(os[n - 1].attrs[f])
    else Some(FieldAfter(os, sid, f, was, n - 1).GetOr(Null))
  }

  lemma {:induction false} PutSessionAttr(fields: set<string>, l: Listing<Session>, o: Session, sid: string, f: string)
    requires "id" !in fields
    requires sid != "" && f in fields && PutSession(fields, l, o).Success?
    ensures SessionField(PutSession(fields, l, o).value.OrEmpty(), sid, f)
            == (var was := SessionField(l.OrEmpty(), sid, f);
                if Key(o.attrs) != sid then was
                else if f in o.attrs then Some(o.attrs[f]) else Some(was.GetOr(Null)))
  {
    var ss := l.OrEmpty();
    var keys, k := SessionKeys(ss), Key(o.attrs);
    var j := Find(keys, k);
    FindNone(keys, k);
    PutSessionKeys(fields, l, o);
    if k != "" {
      if j >= 0 {
        FindToIsLast(keys, k, |ss|);
        FindToIsLast(keys, sid, |ss|);
      } else {
        FindSnoc(keys, k, sid);
      }
    }
  }

  lemma {:induction false} SessionFieldsFollow(fields: set<string>, l: Listing<Session>, os: seq<Session>,
                                               sid: string, f: string, n: nat)
    requires "id" !in fields
    requires n <= |os| && sid != "" && f in fields && FoldTo(Putting(fields), l, os, n).Success?
    ensures SessionField(FoldTo(Putting(fields), l, os, n).value.OrEmpty(), sid, f)
            == FieldAfter(os, sid, f, SessionField(l.OrEmpty(), sid, f), n)
  {
    if n > 0 {
      SessionFieldsFollow(fields, l, os, sid, f, n - 1);
      PutSessionAttr(fields, FoldTo(Putting(fields), l, os, n - 1).value, os[n - 1], sid, f);
    }
  }
}
