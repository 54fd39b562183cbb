/**
 What merging keeps: every session and turn stays where it was or was first appended, with
 all it holds that no overlay of its id may change.
 */
module MergeKeeps {
  import opened Wrappers
  import opened Folds
  import opened ReportMerge
  import opened MergeLaws

  // ---------------------------------------------------------------- turns

  // No overlay turn can reach place a: its id is blank, or a later turn has the same.
  ghost predicate Unreachable(keys: seq<string>, a: nat)
    requires a < |keys|
  {
    keys[a] == "" || exists b :: a < b < |keys| && keys[b] == keys[a]
  }

  // Turns keep their places and ids, and the unreachable ones all they hold.
  ghost predicate KeepsTurns(ts: seq<Attrs>, us: seq<Attrs>) {
    && TurnKeys(ts) <= TurnKeys(us)
    && forall a :: 0 <= a < |ts| && Unreachable(TurnKeys(ts), a) ==> us[a] == ts[a]
  }

  lemma {:induction false} UnreachableStays(keys: seq<string>, more: seq<string>, a: nat)
    requires a < |keys| && keys <= more && Unreachable(keys, a)
    ensures Unreachable(more, a)
  {
    if keys[a] != "" {
      var b :| a < b < |keys| && keys[b] == keys[a];
      assert more[b] == more[a];
    }
  }

  lemma {:induction false} KeepsTurnsTransitive(ts: seq<Attrs>, us: seq<Attrs>, vs: seq<Attrs>)
    requires KeepsTurns(ts, us) && KeepsTurns(us, vs)
    ensures KeepsTurns(ts, vs)
  {
    forall a | 0 <= a < |ts| && Unreachable(TurnKeys(ts), a) ensures vs[a] == ts[a] {
      UnreachableStays(TurnKeys(ts), TurnKeys(us), a);
      assert |TurnKeys(ts)| == |ts| && |TurnKeys(us)| == |us|;
    }
  }

  lemma {:induction false} PutTurnKeeps(l: Listing<Attrs>, o: Attrs)
    requires PutTurn(l, o).Success?
    ensures KeepsTurns(l.OrEmpty(), PutTurn(l, o).value.OrEmpty())
  {
    var ts, us := l.OrEmpty(), PutTurn(l, o).value.OrEmpty();
    var keys := TurnKeys(ts);
    FindToIsLast(keys, Key(o), |keys|);
    forall a | 0 <= a < |ts| && Unreachable(keys, a) ensures us[a] == ts[a] {
      if keys[a] == Key(o) != "" {
        var b :| a < b < |keys| && keys[b] == keys[a];
      }
    }
    PutTurnKeys(l, o);
  }

  lemma {:induction false} PutTurnsKeep(l: Listing<Attrs>, os: seq<Attrs>, n: nat)
    requires n <= |os| && FoldTo(PutTurn, l, os, n).Success?
    ensures KeepsTurns(l.OrEmpty(), FoldTo(PutTurn, l, os, n).value.OrEmpty())
  {
    if n > 0 {
      PutTurnsKeep(l, os, n - 1);
      var m := FoldTo(PutTurn, l, os, n - 1).value;
      PutTurnKeeps(m, os[n - 1]);
      KeepsTurnsTransitive(l.OrEmpty(), m.OrEmpty(), PutTurn(m, os[n - 1]).value.OrEmpty());
    }
  }

  // ---------------------------------------------------------------- sessions

  // Everything but the listed fields is as it was.
  ghost predicate KeepsOthers(fields: set<string>, s: Attrs, t: Attrs) {
    forall f: string :: f !in fields ==> (f in s <==> f in t) && (f in s ==> s[f] == t[f])
  }

  ghost predicate KeepsSession(fields: set<string>, s: Session, t: Session) {
    KeepsOthers(fields, s.attrs, t.attrs) && KeepsTurns(s.turns.OrEmpty(), t.turns.OrEmpty())
  }

  lemma {:induction false} KeepsItself(fields: set<string>, s: Session)
    ensures KeepsSession(fields, s, s)
  {
  }

  lemma {:induction false} KeepsSessionTransitive(fields: set<string>, s: Session, t: Session, u: Session)
    requires KeepsSession(fields, s, t) && KeepsSession(fields, t, u)
    ensures KeepsSession(fields, s, u)
  {
    KeepsTurnsTransitive(s.turns.OrEmpty(), t.turns.OrEmpty(), u.turns.OrEmpty());
  }

  // The sessions as they come into the report: those it has, and the first of each new id.
  function Origins(ss: seq<Session>, os: seq<Session>, n: nat): seq<Session>
    requires n <= |os|
  {
    if n == 0 then ss
    else
      var before := Origins(ss, os, n - 1);
      if Key(os[n - 1].attrs) == "" || Key(os[n - 1].attrs) in SessionKeys(before) then before else before + [os[n - 1]]
  }

  lemma {:induction false} OriginsStep(ss: seq<Session>, os: seq<Session>, n: nat)
    requires 0 < n <= |os|
    ensures Origins(ss, os, n) == Origins(Origins(ss, os, n - 1), [os[n - 1]], 1)
  {
    assert Origins(Origins(ss, os, n - 1), [os[n - 1]], 0) == Origins(ss, os, n - 1);
  }

  ghost predicate KeepsAll(fields: set<string>, ss: seq<Session>, ts: seq<Session>) {
    |ss| == |ts| && forall i :: 0 <= i < |ss| ==> KeepsSession(fields, ss[i], ts[i])
  }

  // The place an overlay session goes to, or -1.
  function Target(ss: seq<Session>, o: Session): int {
    if Key(o.attrs) == "" then -1 else Find(SessionKeys(ss), Key(o.attrs))
  }

  // One overlay session changes its target alone, and that only where it may.
  lemma {:induction false} PutSessionKeeps(fields: set<string>, l: Listing<Session>, o: Session)
    requires PutSession(fields, l, o).Success?
    ensures var ss, ts := l.OrEmpty(), PutSession(fields, l, o).value.OrEmpty();
            && KeepsAll(fields, Origins(ss, [o], 1), ts)
            && forall i :: 0 <= i < |ss| && i != Target(ss, o) ==> ts[i] == ss[i]
  {
    var ss, ts := l.OrEmpty(), PutSession(fields, l, o).value.OrEmpty();
    var j := Find(SessionKeys(ss), Key(o.attrs));
    FindNone(SessionKeys(ss), Key(o.attrs));
    forall s: Session { KeepsItself(fields, s); }
    if Key(o.attrs) != "" && j >= 0 {
      var os := o.turns.OrEmpty();
      PutTurnsKeep(ss[j].turns, os, |os|);
      assert KeepsSession(fields, ss[j], ts[j]);
    }
    assert Origins(ss, [o], 0) == ss;
  }

  // Place i is reached by none of the first n overlay sessions.
  ghost predicate Untouched(ss: seq<Session>, os: seq<Session>, n: nat, i: nat)
    requires i < |ss| && n <= |os|
  {
    Unreachable(SessionKeys(ss), i) || forall k :: 0 <= k < n ==> Key(os[k].attrs) != Key(ss[i].attrs)
  }

  lemma {:induction false} OriginsGrow(ss: seq<Session>, os: seq<Session>, n: nat)
    requires n <= |os|
    ensures ss <= Origins(ss, os, n)
  {
    if n > 0 {
      OriginsGrow(ss, os, n - 1);
    }
  }

  lemma {:induction false} KeepsAllOneMore(fields: set<string>, origins: seq<Session>, ms: seq<Session>, o: Session,
                                           ts: seq<Session>)
    requires KeepsAll(fields, origins, ms) && SessionKeys(origins) == SessionKeys(ms)
    requires KeepsAll(fields, Origins(ms, [o], 1), ts)
    ensures KeepsAll(fields, Origins(origins, [o], 1), ts)
  {
    assert Origins(origins, [o], 0) == origins && Origins(ms, [o], 0) == ms;
    var more := Origins(origins, [o], 1);
    forall i | 0 <= i < |more| ensures KeepsSession(fields, more[i], ts[i]) {
      assert KeepsSession(fields, Origins(ms, [o], 1)[i], ts[i]);
      if i < |ms| {
        KeepsSessionTransitive(fields, origins[i], ms[i], ts[i]);
      }
    }
  }

  lemma {:induction false} NotTheTarget(ss: seq<Session>, ms: seq<Session>, os: seq<Session>, n: nat, i: nat)
    requires n < |os| && i < |ss| && Untouched(ss, os, n + 1, i) && SessionKeys(ss) <= SessionKeys(ms)
    ensures i < |ms| && i != Target(ms, os[n])
  {
    var keys := SessionKeys(ms);
    assert |SessionKeys(ss)| == |ss| && |keys| == |ms|;
    assert keys[i] == SessionKeys(ss)[i] == Key(ss[i].attrs);
    FindToIsLast(keys, Key(os[n].attrs), |keys|);
    if Unreachable(SessionKeys(ss), i) {
      UnreachableStays(SessionKeys(ss), keys, i);
      if keys[i] != "" {
        var b :| i < b < |keys| && keys[b] == keys[i];
      }
    } else {
      assert Key(os[n].attrs) != Key(ss[i].attrs);
    }
  }

  lemma {:induction false} OriginsKeys(ss: seq<Session>, os: seq<Session>, n: nat)
    requires n <= |os|
    ensures SessionKeys(Origins(ss, os, n)) == AddKeysTo(SessionKeys(ss), SessionKeys(os), n)
  {
    if n > 0 {
      OriginsKeys(ss, os, n - 1);
      var before := Origins(ss, os, n - 1);
      assert SessionKeys(before + [os[n - 1]]) == SessionKeys(before) + [Key(os[n - 1].attrs)];
    }
  }

  lemma {:induction false} KeysOfMerged(fields: set<string>, l: Listing<Session>, os: seq<Session>, n: nat)
    requires "id" !in fields
    requires n <= |os| && FoldTo(Putting(fields), l, os, n).Success?
    ensures var ts := FoldTo(Putting(fields), l, os, n).value.OrEmpty();
            SessionKeys(Origins(l.OrEmpty(), os, n)) == SessionKeys(ts) && SessionKeys(l.OrEmpty()) <= SessionKeys(ts)
  {
    OriginsKeys(l.OrEmpty(), os, n);
    PutSessionsKeys(fields, l, os, n);
    AddKeysKeepDistinct(SessionKeys(l.OrEmpty()), SessionKeys(os), n);
  }

  // After any number of overlay sessions: each session of the report keeps its place, its
  // attributes other than the listed fields, its turns' places and ids and the turns that
  // cannot be reached.
  lemma {:induction false} PutSessionsKeep(fields: set<string>, l: Listing<Session>, os: seq<Session>, n: nat)
    requires "id" !in fields
    requires n <= |os| && FoldTo(Putting(fields), l, os, n).Success?
    ensures KeepsAll(fields, Origins(l.OrEmpty(), os, n), FoldTo(Putting(fields), l, os, n).value.OrEmpty())
  {
    var ss := l.OrEmpty();
    if n == 0 {
      forall i | 0 <= i < |ss| ensures KeepsSession(fields, ss[i], ss[i]) {
        KeepsItself(fields, ss[i]);
      }
    } else {
      PutSessionsKeep(fields, l, os, n - 1);
      var m, o := FoldTo(Putting(fields), l, os, n - 1).value, os[n - 1];
      var before := Origins(ss, os, n - 1);
      PutSessionKeeps(fields, m, o);
      KeysOfMerged(fields, l, os, n - 1);
      KeepsAllOneMore(fields, before, m.OrEmpty(), o, PutSession(fields, m, o).value.OrEmpty());
      OriginsStep(ss, os, n);
    }
  }

  // One overlay session more leaves a place alone that it does not reach.
  lemma {:induction false} UntouchedByOne(fields: set<string>, m: Listing<Session>, o: Session, i: nat)
    requires PutSession(fields, m, o).Success? && i < |m.OrEmpty()| && i != Target(m.OrEmpty(), o)
    ensures var ts := PutSession(fields, m, o).value.OrEmpty(); i < |ts| && ts[i] == m.OrEmpty()[i]
  {
  }

  lemma {:induction false} UntouchedStay(fields: set<string>, l: Listing<Session>, os: seq<Session>, n: nat, i: nat)
    requires "id" !in fields
    requires n <= |os| && FoldTo(Putting(fields), l, os, n).Success?
    requires i < |l.OrEmpty()| && Untouched(l.OrEmpty(), os, n, i)
    ensures var ts := FoldTo(Putting(fields), l, os, n).value.OrEmpty(); i < |ts| && ts[i] == l.OrEmpty()[i]
  {
    if n > 0 {
      var m := FoldTo(Putting(fields), l, os, n - 1).value;
      UntouchedStay(fields, l, os, n - 1, i);
      UntouchedStep(fields, l, os, n - 1, i);
      UntouchedByOne(fields, m, os[n - 1], i);
    }
  }

  // The next overlay session goes somewhere else.
  lemma {:induction false} UntouchedStep(fields: set<string>, l: Listing<Session>, os: seq<Session>, n: nat, i: nat)
    requires "id" !in fields
    requires n < |os| && FoldTo(Putting(fields), l, os, n).Success?
    requires i < |l.OrEmpty()| && Untouched(l.OrEmpty(), os, n + 1, i)
    ensures var ms := FoldTo(Putting(fields), l, os, n).value.OrEmpty(); i < |ms| && i != Target(ms, os[n])
  {
    KeysOfMerged(fields, l, os, n);
    NotTheTarget(l.OrEmpty(), FoldTo(Putting(fields), l, os, n).value.OrEmpty(), os, n, i);
  }

  // Nothing a merge may not change is changed, in the sessions of the base and in those
  // appended from the overlays alike.
  lemma {:induction false} MergeKeepsContents(fields: set<string>, base: Report, overlays: seq<Report>)
    requires "id" !in fields && MergeReports(fields, base, overlays).Success?
    ensures var ss, os := base.sessions.OrEmpty(), AllSessions(overlays);
            var ts := MergeReports(fields, base, overlays).value.sessions.OrEmpty();
            && ss <= Origins(ss, os, |os|) && KeepsAll(fields, Origins(ss, os, |os|), ts)
            && forall i :: 0 <= i < |ss| && Untouched(ss, os, |os|, i) ==> ts[i] == ss[i]
  {
    var ss, os := base.sessions.OrEmpty(), AllSessions(overlays);
    PutSessionsKeep(fields, base.sessions, os, |os|);
    OriginsGrow(ss, os, |os|);
    forall i | 0 <= i < |ss| && Untouched(ss, os, |os|, i)
      ensures MergeReports(fields, base, overlays).value.sessions.OrEmpty()[i] == ss[i]
    {
      UntouchedStay(fields, base.sessions, os, |os|, i);
    }
  }

  // ---------------------------------------------------------------- the order of turns over a whole merge

  // The turn ids of the session that overlays of this id go to
  function TurnIds(ss: seq<Session>, sid: string): Option<seq<string>> {
    var j := Find(SessionKeys(ss), sid);
    if j >= 0 then Some(TurnKeys(ss[j].turns.OrEmpty())) else None
  }

  // The same after n overlay sessions: the first of the id brings its turns if there was none,
  // every other one adds its new nonblank ids at the end.
  function TurnIdsAfter(os: seq<Session>, sid: string, was: Option<seq<string>>, n: nat): Option<seq<string>>
    requires n <= |os|
  {
    if n == 0 then was
    else
      var before, ids := TurnIdsAfter(os, sid, was, n - 1), TurnKeys(os[n - 1].turns.OrEmpty());
      if Key(os[n - 1].attrs) != sid then before
      else if before.None? then Some(ids)
      else Some(AddKeys(before.value, ids))
  }

  lemma {:induction false} PutSessionTurnIds(fields: set<string>, l: Listing<Session>, o: Session, sid: string)
    requires "id" !in fields && sid != "" && PutSession(fields, l, o).Success?
    ensures TurnIds(PutSession(fields, l, o).value.OrEmpty(), sid)
            == (var was, ids := TurnIds(l.OrEmpty(), sid), TurnKeys(o.turns.OrEmpty());
                if Key(o.attrs) != sid then was else if was.None? then Some(ids) else Some(AddKeys(was.value, ids)))
  {
    var ss := l.OrEmpty();
    var keys, k := SessionKeys(ss), Key(o.attrs);
    var j := Find(keys, k);
    FindNone(keys, k);
    PutSessionKeys(fields, l, o);
    if k != "" {
      if j >= 0 {
        FindToIsLast(keys, k, |ss|);
        FindToIsLast(keys, sid, |ss|);
        PutTurnsKeys(ss[j].turns, o.turns.OrEmpty(), |o.turns.OrEmpty()|);
      } else {
        FindSnoc(keys, k, sid);
      }
    }
  }

  // New turns of a session come in the order in which the overlays of its id first bring them.
  lemma {:induction false} TurnIdsFollow(fields: set<string>, l: Listing<Session>, os: seq<Session>, sid: string,
                                         n: nat)
    requires "id" !in fields && sid != ""
    requires n <= |os| && FoldTo(Putting(fields), l, os, n).Success?
    ensures TurnIds(FoldTo(Putting(fields), l, os, n).value.OrEmpty(), sid)
            == TurnIdsAfter(os, sid, TurnIds(l.OrEmpty(), sid), n)
  {
    if n > 0 {
      TurnIdsFollow(fields, l, os, sid, n - 1);
      PutSessionTurnIds(fields, FoldTo(Putting(fields), l, os, n - 1).value, os[n - 1], sid);
    }
  }

  lemma {:induction false} MergedTurnIds(fields: set<string>, base: Report, overlays: seq<Report>, sid: string)
    requires "id" !in fields && sid != "" && MergeReports(fields, base, overlays).Success?
    ensures var os := AllSessions(overlays);
            TurnIds(MergeReports(fields, base, overlays).value.sessions.OrEmpty(), sid)
            == TurnIdsAfter(os, sid, TurnIds(base.sessions.OrEmpty(), sid), |os|)
  {
    TurnIdsFollow(fields, base.sessions, AllSessions(overlays), sid, |AllSessions(overlays)|);
  }
}
