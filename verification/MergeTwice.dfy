/**
 Applying the same overlay a second time changes nothing, exactly unless the first time lost
 a field of a turn that the overlay repeats.
 */
module MergeTwice {
  import opened Wrappers
  import opened Folds
  import opened ReportMerge
  import opened MergeLaws
  import opened MergeKeeps
  import opened MergeFailure

  // The same under `get`, with the same turns.
  ghost predicate SameSession(s: Session, t: Session) {
    s.turns == t.turns && forall f: string :: Get(s.attrs, f) == Get(t.attrs, f)
  }

  ghost predicate SameSessions(ss: seq<Session>, ts: seq<Session>) {
    |ss| == |ts| && forall i | 0 <= i < |ss| :: SameSession(ss[i], ts[i])
  }

  lemma {:induction false} SameKeys(ss: seq<Session>, ts: seq<Session>)
    requires SameSessions(ss, ts)
    ensures SessionKeys(ss) == SessionKeys(ts)
  {
    forall i | 0 <= i < |ss| ensures SessionKeys(ss)[i] == SessionKeys(ts)[i] {
      assert SameSession(ss[i], ts[i]);
      assert Get(ss[i].attrs, "id") == Get(ts[i].attrs, "id");
    }
  }

  lemma {:induction false} SameFields(ss: seq<Session>, ts: seq<Session>, sid: string, tid: string, f: string)
    requires SameSessions(ss, ts)
    ensures FieldOf(ss, sid, tid, f) == FieldOf(ts, sid, tid, f)
  {
    SameKeys(ss, ts);
    var j := Find(SessionKeys(ss), sid);
    if j >= 0 {
      assert SameSession(ss[j], ts[j]);
    }
  }

  // ---------------------------------------------------------------- ids of sessions

  // Every nonblank id among the first n is one of the report's.
  ghost predicate AllKnown(keys: seq<string>, ks: seq<string>, n: nat)
    requires n <= |ks|
  {
    forall i :: 0 <= i < n && ks[i] != "" ==> ks[i] in keys
  }

  lemma {:induction false} AddKnownKeys(keys: seq<string>, ks: seq<string>, n: nat)
    requires n <= |ks| && AllKnown(keys, ks, n)
    ensures AddKeysTo(keys, ks, n) == keys
  {
    if n > 0 {
      AddKnownKeys(keys, ks, n - 1);
    }
  }

  lemma {:induction false} AddedAreKnown(keys: seq<string>, ks: seq<string>)
    ensures AllKnown(AddKeys(keys, ks), ks, |ks|)
  {
    forall i | 0 <= i < |ks| && ks[i] != "" ensures ks[i] in AddKeys(keys, ks) {
      AddedKeys(keys, ks, ks[i], |ks|);
      assert ks[..|ks|] == ks;
    }
  }

  lemma {:induction false} KnownOrigins(ss: seq<Session>, os: seq<Session>, n: nat)
    requires n <= |os| && AllKnown(SessionKeys(ss), SessionKeys(os), |os|)
    ensures Origins(ss, os, n) == ss
  {
    if n > 0 {
      KnownOrigins(ss, os, n - 1);
      assert SessionKeys(os)[n - 1] == Key(os[n - 1].attrs);
    }
  }

  // ---------------------------------------------------------------- session fields

  // One of the first n overlay sessions of the id has the field.
  predicate Decided(os: seq<Session>, sid: string, f: string, n: nat)
    requires n <= |os|
  {
    n > 0 && ((Key(os[n - 1].attrs) == sid && f in os[n - 1].attrs) || Decided(os, sid, f, n - 1))
  }

  lemma {:induction false} FieldAfterDecided(os: seq<Session>, sid: string, f: string, was: Option<Value>,
                                             v: Option<Value>, n: nat)
    requires n <= |os|
    ensures if Decided(os, sid, f, n)
            then FieldAfter(os, sid, f, was, n) == FieldAfter(os, sid, f, v, n)
            else FieldAfter(os, sid, f, was, n) in {was, Some(was.GetOr(Null))}
  {
    if n > 0 {
      FieldAfterDecided(os, sid, f, was, v, n - 1);
    }
  }

  // A second pass over the same sessions decides a field as the first did.
  lemma {:induction false} FieldAfterTwice(os: seq<Session>, sid: string, f: string, was: Option<Value>, n: nat)
    requires n <= |os|
    ensures var once := FieldAfter(os, sid, f, was, n);
            once.Some? ==> FieldAfter(os, sid, f, once, n) == once
  {
    var once := FieldAfter(os, sid, f, was, n);
    FieldAfterDecided(os, sid, f, once, was, n);
    FieldAfterDecided(os, sid, f, was, once, n);
  }

  // ---------------------------------------------------------------- turns

  // The second list is the first, or holds a turn.
  predicate Follows(l: Listing<Attrs>, m: Listing<Attrs>) {
    m == l || (m.presence.Present? && m.items != [])
  }

  lemma {:induction false} PutTurnsFollow(l: Listing<Attrs>, os: seq<Attrs>, n: nat)
    requires n <= |os| && FoldTo(PutTurn, l, os, n).Success?
    ensures Follows(l, FoldTo(PutTurn, l, os, n).value)
  {
    if n > 0 {
      PutTurnsFollow(l, os, n - 1);
    }
  }

  ghost predicate TurnsFollow(ss: seq<Session>, ts: seq<Session>) {
    |ss| <= |ts| && forall i :: 0 <= i < |ss| ==> Follows(ss[i].turns, ts[i].turns)
  }

  lemma {:induction false} PutSessionFollows(fields: set<string>, l: Listing<Session>, o: Session)
    requires PutSession(fields, l, o).Success?
    ensures TurnsFollow(l.OrEmpty(), PutSession(fields, l, o).value.OrEmpty())
  {
    var j := Find(SessionKeys(l.OrEmpty()), Key(o.attrs));
    if Key(o.attrs) != "" && j >= 0 {
      PutTurnsFollow(l.OrEmpty()[j].turns, o.turns.OrEmpty(), |o.turns.OrEmpty()|);
    }
  }

  lemma {:induction false} PutSessionsFollow(fields: set<string>, l: Listing<Session>, os: seq<Session>, n: nat)
    requires n <= |os| && FoldTo(Putting(fields), l, os, n).Success?
    ensures TurnsFollow(l.OrEmpty(), FoldTo(Putting(fields), l, os, n).value.OrEmpty())
  {
    if n > 0 {
      PutSessionsFollow(fields, l, os, n - 1);
      PutSessionFollows(fields, FoldTo(Putting(fields), l, os, n - 1).value, os[n - 1]);
    }
  }

  // The ids beyond those of `keys` are new, and not blank.
  ghost predicate NewKeys(keys: seq<string>, more: seq<string>) {
    keys <= more && forall a :: |keys| <= a < |more| ==> more[a] != "" && more[a] !in keys
  }

  lemma {:induction false} AddedAreNew(keys: seq<string>, ks: seq<string>, n: nat)
    requires n <= |ks|
    ensures NewKeys(keys, AddKeysTo(keys, ks, n))
  {
    if n > 0 {
      AddedAreNew(keys, ks, n - 1);
    }
  }

  lemma {:induction false} NewTurnsAreNew(os: seq<Session>, sid: string, was: seq<string>, n: nat)
    requires n <= |os|
    ensures var ids := TurnIdsAfter(os, sid, Some(was), n); ids.Some? && NewKeys(was, ids.value)
  {
    if n > 0 {
      NewTurnsAreNew(os, sid, was, n - 1);
      var before, ids := TurnIdsAfter(os, sid, Some(was), n - 1), TurnKeys(os[n - 1].turns.OrEmpty());
      AddedAreNew(before.value, ids, |ids|);
    }
  }

  // A turn is found by its id, which is a field that is never hidden.
  lemma {:induction false} IdIsFound(ts: seq<Attrs>, tid: string)
    requires tid != ""
    ensures TurnField(ts, tid, "id").Some? <==> tid in TurnKeys(ts)
    ensures SuppliedTo(ts, tid, "id", |ts|).Some? <==> tid in TurnKeys(ts)
  {
    FindNone(TurnKeys(ts), tid);
    FindToIsLast(TurnKeys(ts), tid, |ts|);
    LastTurnSupplies(ts, tid, "id", |ts|);
  }

  lemma {:induction false} IdNotHidden(ss: seq<Session>, os: seq<Session>, sid: string, tid: string)
    requires tid != ""
    ensures !Hidden(ss, os, sid, tid, "id")
  {
    var k := FirstTo(os, sid, |os|);
    if k < |os| {
      IdIsFound(os[k].turns.OrEmpty(), tid);
    }
  }

  ghost predicate SameTurnFields(ts: seq<Attrs>, us: seq<Attrs>) {
    forall tid: string, f: string :: tid != "" ==> TurnField(us, tid, f) == TurnField(ts, tid, f)
  }

  lemma {:induction false} NoNewTurns(ts: seq<Attrs>, us: seq<Attrs>)
    requires NewKeys(TurnKeys(ts), TurnKeys(us)) && SameTurnFields(ts, us)
    ensures TurnKeys(us) == TurnKeys(ts)
  {
    if |us| > |ts| {
      var tid := TurnKeys(us)[|ts|];
      assert TurnField(us, tid, "id") == TurnField(ts, tid, "id");
      IdIsFound(ts, tid);
      IdIsFound(us, tid);
    }
  }

  lemma {:induction false} SameTurnByFields(ts: seq<Attrs>, us: seq<Attrs>, a: nat)
    requires KeepsTurns(ts, us) && TurnKeys(us) == TurnKeys(ts) && SameTurnFields(ts, us) && a < |ts|
    ensures a < |us| && us[a] == ts[a]
  {
    var keys := TurnKeys(ts);
    assert |TurnKeys(us)| == |us| && |keys| == |ts|;
    if !Unreachable(keys, a) {
      FindIs(keys, keys[a], a);
      forall f ensures (f in us[a] <==> f in ts[a]) && (f in us[a] ==> us[a][f] == ts[a][f]) {
        assert TurnField(us, keys[a], f) == TurnField(ts, keys[a], f);
      }
    }
  }

  // Turns that keep what cannot be reached, and have the same fields by id, are the same.
  lemma {:induction false} SameByFields(ts: seq<Attrs>, us: seq<Attrs>)
    requires KeepsTurns(ts, us) && NewKeys(TurnKeys(ts), TurnKeys(us)) && SameTurnFields(ts, us)
    ensures us == ts
  {
    NoNewTurns(ts, us);
    assert |TurnKeys(us)| == |us| && |TurnKeys(ts)| == |ts|;
    forall a | 0 <= a < |ts| ensures us[a] == ts[a] {
      SameTurnByFields(ts, us, a);
    }
  }

  // ---------------------------------------------------------------- the second pass

  // What the overlay sessions are merged into already has all their ids.
  lemma {:induction false} SecondPassKeeps(fields: set<string>, l: Listing<Session>, os: seq<Session>)
    requires "id" !in fields && FoldTo(Putting(fields), l, os, |os|).Success?
    requires AllKnown(SessionKeys(l.OrEmpty()), SessionKeys(os), |os|)
    ensures var ss, ts := l.OrEmpty(), FoldTo(Putting(fields), l, os, |os|).value.OrEmpty();
            SessionKeys(ts) == SessionKeys(ss) && KeepsAll(fields, ss, ts) && TurnsFollow(ss, ts)
  {
    PutSessionsKeys(fields, l, os, |os|);
    AddKnownKeys(SessionKeys(l.OrEmpty()), SessionKeys(os), |os|);
    PutSessionsKeep(fields, l, os, |os|);
    KnownOrigins(l.OrEmpty(), os, |os|);
    PutSessionsFollow(fields, l, os, |os|);
  }

  // All that is found of the session by `get` is the same.
  ghost predicate SameFound(fields: set<string>, ss: seq<Session>, ts: seq<Session>, sid: string) {
    && (forall f :: f in fields ==> SessionField(ts, sid, f) == SessionField(ss, sid, f))
    && (forall tid: string, f: string :: tid != "" ==> FieldOf(ts, sid, tid, f) == FieldOf(ss, sid, tid, f))
  }

  lemma {:induction false} SameTurnsAt(fields: set<string>, l: Listing<Session>, os: seq<Session>, i: nat)
    requires "id" !in fields && FoldTo(Putting(fields), l, os, |os|).Success?
    requires AllKnown(SessionKeys(l.OrEmpty()), SessionKeys(os), |os|)
    requires i < |l.OrEmpty()| && Key(l.OrEmpty()[i].attrs) != ""
    requires Find(SessionKeys(l.OrEmpty()), Key(l.OrEmpty()[i].attrs)) == i
    requires SameFound(fields, l.OrEmpty(), FoldTo(Putting(fields), l, os, |os|).value.OrEmpty(), Key(l.OrEmpty()[i].attrs))
    ensures var ts := FoldTo(Putting(fields), l, os, |os|).value.OrEmpty();
            i < |ts| && ts[i].turns == l.OrEmpty()[i].turns
  {
    var ss, ts := l.OrEmpty(), FoldTo(Putting(fields), l, os, |os|).value.OrEmpty();
    var sid := Key(ss[i].attrs);
    SecondPassKeeps(fields, l, os);
    TurnIdsFollow(fields, l, os, sid, |os|);
    NewTurnsAreNew(os, sid, TurnKeys(ss[i].turns.OrEmpty()), |os|);
    forall tid: string, f: string | tid != ""
      ensures TurnField(ts[i].turns.OrEmpty(), tid, f) == TurnField(ss[i].turns.OrEmpty(), tid, f)
    {
      assert FieldOf(ts, sid, tid, f) == FieldOf(ss, sid, tid, f);
    }
    assert KeepsSession(fields, ss[i], ts[i]) && Follows(ss[i].turns, ts[i].turns);
    SameByFields(ss[i].turns.OrEmpty(), ts[i].turns.OrEmpty());
  }

  lemma {:induction false} SameSessionAt(fields: set<string>, l: Listing<Session>, os: seq<Session>, i: nat)
    requires "id" !in fields && FoldTo(Putting(fields), l, os, |os|).Success?
    requires AllKnown(SessionKeys(l.OrEmpty()), SessionKeys(os), |os|) && i < |l.OrEmpty()|
    requires SameFound(fields, l.OrEmpty(), FoldTo(Putting(fields), l, os, |os|).value.OrEmpty(), Key(l.OrEmpty()[i].attrs))
    ensures var ts := FoldTo(Putting(fields), l, os, |os|).value.OrEmpty();
            i < |ts| && SameSession(l.OrEmpty()[i], ts[i])
  {
    var ss, ts := l.OrEmpty(), FoldTo(Putting(fields), l, os, |os|).value.OrEmpty();
    var keys := SessionKeys(ss);
    SecondPassKeeps(fields, l, os);
    if Unreachable(keys, i) {
      UntouchedStay(fields, l, os, |os|, i);
    } else {
      FindIs(keys, keys[i], i);
      SameTurnsAt(fields, l, os, i);
      assert KeepsSession(fields, ss[i], ts[i]);
      forall f: string ensures Get(ss[i].attrs, f) == Get(ts[i].attrs, f) {
        assert f in fields ==> SessionField(ts, keys[i], f) == SessionField(ss, keys[i], f);
      }
    }
  }

  // ---------------------------------------------------------------- what the second pass finds

  // A field of a turn is the same after the second pass unless the first one lost it.
  lemma {:induction false} FieldTwiceIff(fields: set<string>, l: Listing<Session>, m: Listing<Session>,
                                         os: seq<Session>,
                                         sid: string, tid: string, f: string)
    requires "id" !in fields && sid != "" && tid != ""
    requires FoldTo(Putting(fields), l, os, |os|) == Success(m) && FoldTo(Putting(fields), m, os, |os|).Success?
    requires AllKnown(SessionKeys(m.OrEmpty()), SessionKeys(os), |os|)
    ensures FieldOf(FoldTo(Putting(fields), m, os, |os|).value.OrEmpty(), sid, tid, f)
            == FieldOf(m.OrEmpty(), sid, tid, f)
            <==> !Hidden(l.OrEmpty(), os, sid, tid, f)
  {
    PutSessionsField(fields, l, os, sid, tid, f, |os|);
    PutSessionsField(fields, m, os, sid, tid, f, |os|);
    if FirstTo(os, sid, |os|) < |os| {
      FirstHasKey(os, sid, |os|);
      assert SessionKeys(os)[FirstTo(os, sid, |os|)] == sid;
    }
    if Hidden(l.OrEmpty(), os, sid, tid, f) {
      HiddenIsSupplied(l.OrEmpty(), os, sid, tid, f, |os|);
    }
  }

  // The session is there after the first pass, so its fields are the same after the second.
  lemma {:induction false} SessionFieldTwice(fields: set<string>, l: Listing<Session>, m: Listing<Session>,
                                             os: seq<Session>,
                                             sid: string, f: string)
    requires "id" !in fields && sid != "" && f in fields && sid in SessionKeys(m.OrEmpty())
    requires FoldTo(Putting(fields), l, os, |os|) == Success(m) && FoldTo(Putting(fields), m, os, |os|).Success?
    ensures SessionField(FoldTo(Putting(fields), m, os, |os|).value.OrEmpty(), sid, f)
            == SessionField(m.OrEmpty(), sid, f)
  {
    SessionFieldsFollow(fields, l, os, sid, f, |os|);
    SessionFieldsFollow(fields, m, os, sid, f, |os|);
    FindNone(SessionKeys(m.OrEmpty()), sid);
    FieldAfterTwice(os, sid, f, SessionField(l.OrEmpty(), sid, f), |os|);
  }

  ghost predicate NothingHidden(ss: seq<Session>, os: seq<Session>) {
    forall sid, tid, f :: sid != "" && tid != "" ==> !Hidden(ss, os, sid, tid, f)
  }

  lemma {:induction false} SameTwiceIff(fields: set<string>, l: Listing<Session>, m: Listing<Session>, os: seq<Session>)
    requires "id" !in fields
    requires FoldTo(Putting(fields), l, os, |os|) == Success(m) && FoldTo(Putting(fields), m, os, |os|).Success?
    requires AllKnown(SessionKeys(m.OrEmpty()), SessionKeys(os), |os|)
    ensures SameSessions(m.OrEmpty(), FoldTo(Putting(fields), m, os, |os|).value.OrEmpty())
            <==> NothingHidden(l.OrEmpty(), os)
  {
    var ss, ts := m.OrEmpty(), FoldTo(Putting(fields), m, os, |os|).value.OrEmpty();
    SecondPassKeeps(fields, m, os);
    if NothingHidden(l.OrEmpty(), os) {
      forall i | 0 <= i < |ss| ensures SameSession(ss[i], ts[i]) {
        SameAt(fields, l, m, os, i);
      }
    } else {
      var sid, tid, f :| sid != "" && tid != "" && Hidden(l.OrEmpty(), os, sid, tid, f);
      FieldTwiceIff(fields, l, m, os, sid, tid, f);
      if SameSessions(ss, ts) {
        SameFields(ss, ts, sid, tid, f);
      }
    }
  }

  lemma {:induction false} SameAt(fields: set<string>, l: Listing<Session>, m: Listing<Session>, os: seq<Session>,
                                  i: nat)
    requires "id" !in fields
    requires FoldTo(Putting(fields), l, os, |os|) == Success(m) && FoldTo(Putting(fields), m, os, |os|).Success?
    requires AllKnown(SessionKeys(m.OrEmpty()), SessionKeys(os), |os|)
    requires NothingHidden(l.OrEmpty(), os) && i < |m.OrEmpty()|
    ensures var ts := FoldTo(Putting(fields), m, os, |os|).value.OrEmpty();
            i < |ts| && SameSession(m.OrEmpty()[i], ts[i])
  {
    var ss, ts := m.OrEmpty(), FoldTo(Putting(fields), m, os, |os|).value.OrEmpty();
    var sid := Key(ss[i].attrs);
    if sid == "" {
      SecondPassKeeps(fields, m, os);
      assert SessionKeys(ss)[i] == "";
      UntouchedStay(fields, m, os, |os|, i);
    } else {
      assert SessionKeys(ss)[i] == sid;
      forall f | f in fields ensures SessionField(ts, sid, f) == SessionField(ss, sid, f) {
        SessionFieldTwice(fields, l, m, os, sid, f);
      }
      forall tid: string, f: string | tid != "" ensures FieldOf(ts, sid, tid, f) == FieldOf(ss, sid, tid, f) {
        FieldTwiceIff(fields, l, m, os, sid, tid, f);
      }
      SameSessionAt(fields, m, os, i);
    }
  }

  // ---------------------------------------------------------------- the second merge does not raise

  lemma {:induction false} SupplyStays(os: seq<Session>, sid: string, tid: string, f: string, k: nat, n: nat)
    requires k < n <= |os| && Supply(os[k], sid, tid, f).Some?
    ensures LastSupplyTo(os, sid, tid, f, n).Some?
  {
    if k < n - 1 {
      SupplyStays(os, sid, tid, f, k, n - 1);
    }
  }

  // A session that overlays bring turns to has a list of turns after the first pass.
  lemma {:induction false} BroughtTurnsAreThere(fields: set<string>, l: Listing<Session>, m: Listing<Session>,
                                                os: seq<Session>, k: nat, a: nat)
    requires "id" !in fields && FoldTo(Putting(fields), l, os, |os|) == Success(m)
    requires k < |os| && Key(os[k].attrs) != ""
    requires a < |os[k].turns.OrEmpty()| && Key(os[k].turns.OrEmpty()[a]) != ""
    ensures var j := Find(SessionKeys(m.OrEmpty()), Key(os[k].attrs)); j >= 0 && m.OrEmpty()[j].turns.presence.Present?
  {
    var sid, us := Key(os[k].attrs), os[k].turns.OrEmpty();
    var tid := Key(us[a]);
    assert TurnKeys(us)[a] == tid;
    IdIsFound(us, tid);
    SupplyStays(os, sid, tid, "id", k, |os|);
    IdNotHidden(l.OrEmpty(), os, sid, tid);
    PutSessionsField(fields, l, os, sid, tid, "id", |os|);
  }

  lemma {:induction false} SecondPassSucceeds(fields: set<string>, l: Listing<Session>, m: Listing<Session>,
                                              os: seq<Session>, k: nat)
    requires "id" !in fields && FoldTo(Putting(fields), l, os, |os|) == Success(m) && k < |os|
    requires AllKnown(SessionKeys(m.OrEmpty()), SessionKeys(os), |os|)
    ensures !RaisesAt(m, os, k)
  {
    KnownOrigins(m.OrEmpty(), os, k);
    var us := os[k].turns.OrEmpty();
    if Key(os[k].attrs) != "" {
      assert SessionKeys(os)[k] == Key(os[k].attrs);
      FindNone(SessionKeys(m.OrEmpty()), Key(os[k].attrs));
      if BringsTurn(us, |us|) {
        var a :| 0 <= a < |us| && Key(us[a]) != "";
        BroughtTurnsAreThere(fields, l, m, os, k, a);
      }
    }
  }

  // Applying an overlay again to the report it was merged into never raises, and changes
  // nothing that `get` sees exactly when the first time hid no field of a repeated turn.
  lemma {:induction false} MergeTwiceChangesNothingIff(fields: set<string>, base: Report, overlay: Report)
    requires "id" !in fields && MergeReports(fields, base, [overlay]).Success?
    ensures var once := MergeReports(fields, base, [overlay]).value;
            var again := MergeReports(fields, once, [overlay]);
            && again.Success? && again.value.extra == once.extra
            && (SameSessions(once.sessions.OrEmpty(), again.value.sessions.OrEmpty())
                <==> NothingHidden(base.sessions.OrEmpty(), overlay.sessions.OrEmpty()))
            && MergeReports(fields, base, [overlay, overlay]) == again
  {
    var l, os := base.sessions, overlay.sessions.OrEmpty();
    var once := MergeReports(fields, base, [overlay]).value;
    assert AllSessions([overlay]) == os by { assert AllSessionsTo([overlay], 0) == []; }
    MergedSessionIds(fields, base, [overlay]);
    AddedAreKnown(SessionKeys(l.OrEmpty()), SessionKeys(os));
    forall k | 0 <= k < |os| ensures !RaisesAt(once.sessions, os, k) {
      SecondPassSucceeds(fields, l, once.sessions, os, k);
    }
    MergeRaisesIff(fields, once, [overlay]);
    SameTwiceIff(fields, l, once.sessions, os);
    MergeInTwoGoes(fields, base, [overlay], [overlay]);
    assert [overlay] + [overlay] == [overlay, overlay];
  }

  // ---------------------------------------------------------------- when nothing is hidden

  lemma {:induction false} DistinctIsNotShadowed(ts: seq<Attrs>, tid: string, f: string, n: nat)
    requires n <= |ts| && tid != "" && Distinct(TurnKeys(ts)) && SuppliedTo(ts, tid, f, n).Some?
    ensures TurnField(ts, tid, f).Some?
  {
    assert TurnKeys(ts)[n - 1] == Key(ts[n - 1]);
    if Key(ts[n - 1]) == tid && f in ts[n - 1] {
      FindIs(TurnKeys(ts), tid, n - 1);
    } else {
      DistinctIsNotShadowed(ts, tid, f, n - 1);
    }
  }

  // Turn ids that are distinct within each overlay session hide nothing.
  lemma {:induction false} DistinctTurnsHideNothing(ss: seq<Session>, os: seq<Session>)
    requires DistinctTurns(os)
    ensures NothingHidden(ss, os)
  {
    forall sid, tid, f | sid != "" && tid != "" ensures !Hidden(ss, os, sid, tid, f) {
      var k := FirstTo(os, sid, |os|);
      if k < |os| && Shadowed(os[k].turns.OrEmpty(), tid, f) {
        DistinctIsNotShadowed(os[k].turns.OrEmpty(), tid, f, |os[k].turns.OrEmpty()|);
      }
    }
  }

  // Nor do sessions that the base has, whatever they repeat.
  lemma {:induction false} KnownSessionsHideNothing(ss: seq<Session>, os: seq<Session>)
    requires AllKnown(SessionKeys(ss), SessionKeys(os), |os|)
    ensures NothingHidden(ss, os)
  {
    forall sid, tid, f | sid != "" && tid != "" ensures !Hidden(ss, os, sid, tid, f) {
      if FirstTo(os, sid, |os|) < |os| {
        FirstHasKey(os, sid, |os|);
        assert SessionKeys(os)[FirstTo(os, sid, |os|)] == sid;
      }
    }
  }

  // A new session with a turn twice, the field only in the first: merging it hides the field.
  lemma {:induction false} RepeatedTurnHidesField(sid: Value, tid: Value, f: string, v: Value)
    requires sid.Json? && sid.idText != "" && tid.Json? && tid.idText != "" && f != "id"
    ensures var o := Session(map["id" := sid], Items([map["id" := tid, f := v], map["id" := tid]]));
            !NothingHidden([], [o])
  {
    var turns := [map["id" := tid, f := v], map["id" := tid]];
    var o := Session(map["id" := sid], Items(turns));
    assert FirstTo([o], sid.idText, 0) == 0;
    FindIs(TurnKeys(turns), tid.idText, 1);
    assert SuppliedTo(turns, tid.idText, f, 1) == Some(v);
    assert Hidden([], [o], sid.idText, tid.idText, f);
  }
}
