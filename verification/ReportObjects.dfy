/**
 The merging as the script does it: reports are objects, the merged report is a deep
 copy of the base that is changed in place, and sessions and turns are reached through
 maps from ids to objects.  Each session object carries the values of its turns as a
 ghost field; each step is proved to do to the values what the last-match search of
 ReportMerge does, and the base and the overlays are never changed.
 */
module ReportObjects {
  import opened Wrappers
  import opened Folds
  import opened ReportMerge

  // ---------------------------------------------------------------- objects

  class TurnObject {
    var attrs: Attrs
    // The session the turn belongs to, and its place there.
    ghost const owner: SessionObject
    ghost const index: nat

    constructor (attrs: Attrs, ghost owner: SessionObject, ghost index: nat)
      ensures this.attrs == attrs && this.owner == owner && this.index == index
    {
      this.attrs, this.owner, this.index := attrs, owner, index;
    }
  }

  class SessionObject {
    // The report the session belongs to, and its place there.
    ghost const report: ReportObject
    ghost const place: nat
    var attrs: Attrs
    var presence: Presence
    var turns: seq<TurnObject>
    ghost var turnValues: seq<Attrs>
    ghost var own: set<TurnObject>

    // The turns are different objects of this session, with the values `turnValues`.
    ghost predicate Valid()
      reads this, own
    {
      && |turns| == |turnValues|
      && (turns != [] ==> presence == Present)
      && (forall t | t in own :: t.owner == this)
      && (forall i | 0 <= i < |turns| ::
            turns[i] in own && turns[i].index == i && turns[i].attrs == turnValues[i])
    }

    ghost function Turns(): Listing<Attrs>
      reads this
    {
      Listing(presence, turnValues)
    }

    ghost function Value(): Session
      reads this
    {
      Session(attrs, Turns())
    }

    constructor (attrs: Attrs, presence: Presence, ghost report: ReportObject, ghost place: nat)
      ensures this.attrs == attrs && this.presence == presence && turns == []
      ensures this.report == report && this.place == place
      ensures Valid() && turnValues == [] && own == {}
    {
      this.report, this.place := report, place;
      this.attrs, this.presence, turns, turnValues, own := attrs, presence, [], [], {};
    }
  }

  class ReportObject {
    var extra: Attrs
    var presence: Presence
    var sessions: seq<SessionObject>
    ghost var sessionValues: seq<Session>
    ghost var own: set<SessionObject>
    ghost var ownTurns: set<TurnObject>

    // The sessions are different objects of this report, with the values `sessionValues`.
    ghost predicate Valid()
      reads this, own, ownTurns
    {
      && |sessions| == |sessionValues|
      && (sessions != [] ==> presence == Present)
      && (forall s | s in own :: s.report == this)
      && (forall t | t in ownTurns :: t.owner.report == this)
      && (forall i | 0 <= i < |sessions| :: HasAt(i))
    }

    ghost predicate HasAt(i: nat)
      requires i < |sessions| == |sessionValues|
      reads this, own, ownTurns
    {
      var s := sessions[i];
      && s in own && s.place == i && s.own <= ownTurns
      && s.Valid() && s.Value() == sessionValues[i]
    }

    ghost function Sessions(): Listing<Session>
      reads this
    {
      Listing(presence, sessionValues)
    }

    ghost function Value(): Report
      reads this
    {
      Report(extra, Sessions())
    }

    constructor (extra: Attrs, presence: Presence)
      ensures this.extra == extra && this.presence == presence && sessions == []
      ensures Valid() && sessionValues == [] && own == {} && ownTurns == {}
    {
      this.extra, this.presence := extra, presence;
      sessions, sessionValues, own, ownTurns := [], [], {}, {};
    }
  }

  // ---------------------------------------------------------------- maps from ids to objects

  // The map holds, for each id, the last object of that id.
  ghost predicate Fits<T>(m: map<string, T>, keys: seq<string>, xs: seq<T>) {
    forall k: string ::
      var j := Find(keys, k);
      if j < 0 then k !in m else k in m && j < |xs| && m[k] == xs[j]
  }

  lemma {:induction false} FitsEmpty<T>()
    ensures Fits<T>(map[], [], [])
  {
  }

  lemma {:induction false} FitsSnoc<T>(m: map<string, T>, keys: seq<string>, xs: seq<T>, k: string, x: T)
    requires |keys| == |xs| && Fits(m, keys, xs)
    ensures Fits(m[k := x], keys + [k], xs + [x])
  {
    forall l: string ensures Find(keys + [k], l) == if k == l then |keys| else Find(keys, l) {
      FindSnoc(keys, k, l);
    }
  }

  // ---------------------------------------------------------------- turns

  // The session is in order and the map to its turns agrees with it.
  ghost predicate Ready(target: SessionObject, m: map<string, TurnObject>)
    reads target, target.own
  {
    target.Valid() && Fits(m, TurnKeys(target.turnValues), target.turns)
  }

  // `target_turn_map`
  method MapTurns(target: SessionObject) returns (m: map<string, TurnObject>)
    requires target.Valid()
    ensures Ready(target, m)
  {
    m := map[];
    FitsEmpty<TurnObject>();
    var ts := target.turns;
    ghost var keys := TurnKeys(target.turnValues);
    for i := 0 to |ts|
      invariant Fits(m, keys[..i], ts[..i])
    {
      FitsSnoc(m, keys[..i], ts[..i], keys[i], ts[i]);
      m := m[Key(ts[i].attrs) := ts[i]];
      assert keys[..i + 1] == keys[..i] + [keys[i]] && ts[..i + 1] == ts[..i] + [ts[i]];
    }
    assert keys[..|ts|] == keys && ts[..|ts|] == ts;
  }

  // `target_turn.update(...)`
  method UpdateTurn(target: SessionObject, ghost m: map<string, TurnObject>, t: TurnObject, v: Attrs, ghost j: nat)
    requires Ready(target, m) && j < |target.turns| && t == target.turns[j]
    requires Key(v) == Key(target.turnValues[j])
    modifies target`turnValues, t
    ensures Ready(target, m) && target.turnValues == old(target.turnValues)[j := v]
  {
    t.attrs := v;
    ghost var vs := target.turnValues;
    target.turnValues := vs[j := v];
    assert TurnKeys(vs[j := v]) == TurnKeys(vs);
  }

  // `target_session.setdefault("turns", []).append(...)`
  method AppendTurn(target: SessionObject, m: map<string, TurnObject>, o: Attrs) returns (m': map<string, TurnObject>)
    requires Ready(target, m)
    modifies target
    ensures Ready(target, m') && target.attrs == old(target.attrs)
    ensures target.Turns() == Items(old(target.turnValues) + [o])
    ensures fresh(target.own - old(target.own))
  {
    var c := new TurnObject(o, target, |target.turns|);
    FitsSnoc(m, TurnKeys(target.turnValues), target.turns, Key(o), c);
    assert TurnKeys(target.turnValues + [o]) == TurnKeys(target.turnValues) + [Key(o)];
    target.presence := Present;
    target.turns := target.turns + [c];
    target.turnValues := target.turnValues + [o];
    target.own := target.own + {c};
    m' := m[Key(o) := c];
  }

  // One overlay turn: skipped, merged into the turn of its id, or appended.
  method PutTurnObject(target: SessionObject, m: map<string, TurnObject>, o: TurnObject)
    returns (ok: bool, m': map<string, TurnObject>)
    requires Ready(target, m) && o.owner != target
    modifies target, target.own
    ensures Ready(target, m') && target.attrs == old(target.attrs)
    ensures PutTurn(old(target.Turns()), o.attrs) == if ok then Success(target.Turns()) else Failure(AppendToNoList)
    ensures fresh(target.own - old(target.own))
  {
    var turnId := Key(o.attrs);
    ok, m' := true, m;
    ghost var keys := TurnKeys(target.turnValues);
    ghost var j := Find(keys, turnId);
    FindToIsLast(keys, turnId, |keys|);
    if turnId == "" {
    } else if turnId in m {
      var t := m[turnId];
      UpdateTurn(target, m, t, t.attrs + o.attrs, j);
    } else if target.presence == NoList {
      ok := false;
    } else {
      m' := AppendTurn(target, m, o.attrs);
    }
  }

  // The target stands for what putting the first i of o's turns into `l` gives.
  ghost predicate PutSoFar(target: SessionObject, o: SessionObject, m: map<string, TurnObject>, l: Listing<Attrs>,
                           i: nat)
    reads target, target.own, o, o.own
  {
    && Ready(target, m) && o.Valid() && i <= |o.turnValues|
    && FoldTo(PutTurn, l, o.turnValues, i) == Success(target.Turns())
  }

  // One overlay turn is put in, and the overlay session stays as it is.
  method PutTurnAt(target: SessionObject, o: SessionObject, m: map<string, TurnObject>, i: nat)
    returns (ok: bool, m': map<string, TurnObject>)
    requires o != target && Ready(target, m) && o.Valid() && i < |o.turns|
    modifies target, target.own
    ensures Ready(target, m') && target.attrs == old(target.attrs) && o.Valid()
    ensures PutTurn(old(target.Turns()), o.turnValues[i]) == if ok then Success(target.Turns()) else Failure(AppendToNoList)
    ensures fresh(target.own - old(target.own))
  {
    ok, m' := PutTurnObject(target, m, o.turns[i]);
  }

  // The step from i to i + 1 overlay turns, on values.
  lemma {:induction false} TurnStep(l: Listing<Attrs>, os: seq<Attrs>, i: nat, s: Listing<Attrs>,
                                    r: Result<Listing<Attrs>, MergeError>)
    requires i < |os| && FoldTo(PutTurn, l, os, i) == Success(s) && PutTurn(s, os[i]) == r
    ensures FoldTo(PutTurn, l, os, i + 1) == r
    ensures r.Failure? ==> PutTurns(l, os) == r
  {
    if r.Failure? {
      FailureStays(PutTurn, l, os, i + 1, |os|);
    }
  }

  method PutNextTurn(target: SessionObject, o: SessionObject, m: map<string, TurnObject>, ghost l: Listing<Attrs>,
                     i: nat)
    returns (ok: bool, m': map<string, TurnObject>)
    requires o != target && i < |o.turns| && PutSoFar(target, o, m, l, i)
    modifies target, target.own
    ensures target.Valid() && target.attrs == old(target.attrs)
    ensures ok ==> PutSoFar(target, o, m', l, i + 1)
    ensures !ok ==> PutTurns(l, o.turnValues) == Failure(AppendToNoList)
    ensures fresh(target.own - old(target.own))
  {
    ghost var s := target.Turns();
    ok, m' := PutTurnAt(target, o, m, i);
    TurnStep(l, o.turnValues, i, s, if ok then Success(target.Turns()) else Failure(AppendToNoList));
  }

  method PutTurnObjects(target: SessionObject, o: SessionObject) returns (ok: bool)
    requires target.Valid() && o.Valid() && o != target
    modifies target, target.own
    ensures target.Valid() && target.attrs == old(target.attrs)
    ensures PutTurns(old(target.Turns()), o.turnValues)
            == if ok then Success(target.Turns()) else Failure(AppendToNoList)
    ensures fresh(target.own - old(target.own))
  {
    ghost var l := target.Turns();
    var turnMap := MapTurns(target);
    var i := 0;
    while i < |o.turns|
      invariant i <= |o.turns| && PutSoFar(target, o, turnMap, l, i)
      invariant target.attrs == old(target.attrs)
      invariant fresh(target.own - old(target.own))
    {
      ok, turnMap := PutNextTurn(target, o, turnMap, l, i);
      if !ok {
        return false;
      }
      i := i + 1;
    }
    return true;
  }

  // ---------------------------------------------------------------- deep copies

  method AddTurn(c: SessionObject, v: Attrs)
    requires c.Valid() && c.presence == Present
    modifies c
    ensures c.Valid() && c.attrs == old(c.attrs)
    ensures c.Turns() == Items(old(c.turnValues) + [v])
    ensures fresh(c.own - old(c.own))
  {
    var t := new TurnObject(v, c, |c.turns|);
    c.turns := c.turns + [t];
    c.turnValues := c.turnValues + [v];
    c.own := c.own + {t};
  }

  method CopySession(o: SessionObject, ghost report: ReportObject, ghost place: nat) returns (c: SessionObject)
    requires o.Valid()
    ensures fresh(c) && fresh(c.own) && c.report == report && c.place == place
    ensures c.Valid() && c.Value() == o.Value()
  {
    c := new SessionObject(o.attrs, o.presence, report, place);
    var i := 0;
    while i < |o.turns|
      invariant i <= |o.turns| && o.Valid()
      invariant fresh(c.own) && c.Valid() && c.attrs == o.attrs && c.presence == o.presence
      invariant c.turnValues == o.turnValues[..i]
    {
      AddTurn(c, o.turns[i].attrs);
      i := i + 1;
    }
  }

  // ---------------------------------------------------------------- sessions

  // The report is in order and the map to its sessions agrees with it.
  ghost predicate ReadyReport(merged: ReportObject, m: map<string, SessionObject>)
    reads merged, merged.own, merged.ownTurns
  {
    merged.Valid() && Fits(m, SessionKeys(merged.sessionValues), merged.sessions)
  }

  // `merged.setdefault("sessions", []).append(...)`
  method AppendSession(merged: ReportObject, m: map<string, SessionObject>, c: SessionObject)
    returns (m': map<string, SessionObject>)
    requires ReadyReport(merged, m)
    requires c.Valid() && c.report == merged && c.place == |merged.sessions|
    modifies merged
    ensures ReadyReport(merged, m') && merged.extra == old(merged.extra)
    ensures merged.Sessions() == Items(old(merged.sessionValues) + [c.Value()])
    ensures merged.own == old(merged.own) + {c} && merged.ownTurns == old(merged.ownTurns) + c.own
  {
    ghost var keys, v := SessionKeys(merged.sessionValues), c.Value();
    FitsSnoc(m, keys, merged.sessions, Key(c.attrs), c);
    assert SessionKeys(merged.sessionValues + [v]) == keys + [Key(c.attrs)];
    label before:
    merged.presence := Present;
    merged.sessions := merged.sessions + [c];
    merged.sessionValues := merged.sessionValues + [v];
    merged.own := merged.own + {c};
    merged.ownTurns := merged.ownTurns + c.own;
    m' := m[Key(c.attrs) := c];
    forall i | 0 <= i < |merged.sessions| ensures merged.HasAt(i) {
      if i < |merged.sessions| - 1 { assert old@before(merged.HasAt(i)); }
    }
  }

  // `target_session.update(...)` and the merging of the turns.
  method UpdateSessionObject(fields: set<string>, merged: ReportObject, ghost m: map<string, SessionObject>,
                             target: SessionObject, o: SessionObject, ghost j: nat)
    returns (ok: bool)
    requires "id" !in fields && ReadyReport(merged, m) && j < |merged.sessions| && target == merged.sessions[j]
    requires o.Valid() && o.report != merged
    modifies merged`sessionValues, merged`ownTurns, target, target.own
    ensures ok ==> ReadyReport(merged, m)
    ensures UpdateSession(fields, old(merged.sessionValues[j]), old(o.Value()))
            == if ok then Success(target.Value()) else Failure(AppendToNoList)
    ensures ok ==> merged.sessionValues == old(merged.sessionValues)[j := target.Value()]
    ensures fresh(merged.ownTurns - old(merged.ownTurns))
  {
    assert merged.HasAt(j);
    label before:
    ghost var vs := merged.sessionValues;
    target.attrs := UpdateFields(fields, target.attrs, o.attrs);
    ok := PutTurnObjects(target, o);
    if ok {
      merged.sessionValues := vs[j := target.Value()];
      merged.ownTurns := merged.ownTurns + target.own;
      forall i | 0 <= i < |merged.sessions| ensures merged.HasAt(i) {
        assert old@before(merged.HasAt(i));
      }
      KeyKept(vs, target.Value(), j);
    }
  }

  lemma {:induction false} KeyKept(vs: seq<Session>, v: Session, j: nat)
    requires j < |vs| && Key(v.attrs) == Key(vs[j].attrs)
    ensures SessionKeys(vs[j := v]) == SessionKeys(vs)
  {
  }

  // `session_map`
  method MapSessions(merged: ReportObject) returns (m: map<string, SessionObject>)
    requires merged.Valid()
    ensures ReadyReport(merged, m)
  {
    m := map[];
    FitsEmpty<SessionObject>();
    var ss := merged.sessions;
    ghost var keys := SessionKeys(merged.sessionValues);
    for i := 0 to |ss|
      invariant Fits(m, keys[..i], ss[..i])
    {
      assert merged.HasAt(i);
      FitsSnoc(m, keys[..i], ss[..i], keys[i], ss[i]);
      m := m[Key(ss[i].attrs) := ss[i]];
      assert keys[..i + 1] == keys[..i] + [keys[i]] && ss[..i + 1] == ss[..i] + [ss[i]];
    }
    assert keys[..|ss|] == keys && ss[..|ss|] == ss;
  }

  // One overlay session: skipped, merged into the session of its id, or appended as a copy.
  method PutSessionObject(fields: set<string>, merged: ReportObject, m: map<string, SessionObject>, o: SessionObject)
    returns (ok: bool, m': map<string, SessionObject>)
    requires "id" !in fields && ReadyReport(merged, m) && o.Valid() && o.report != merged
    modifies merged, merged.own, merged.ownTurns
    ensures ok ==> ReadyReport(merged, m') && merged.extra == old(merged.extra)
    ensures PutSession(fields, old(merged.Sessions()), old(o.Value()))
            == if ok then Success(merged.Sessions()) else Failure(AppendToNoList)
    ensures fresh(merged.own - old(merged.own)) && fresh(merged.ownTurns - old(merged.ownTurns))
  {
    var sessionId := Key(o.attrs);
    ok, m' := true, m;
    ghost var keys := SessionKeys(merged.sessionValues);
    ghost var j := Find(keys, sessionId);
    FindToIsLast(keys, sessionId, |keys|);
    if sessionId == "" {
    } else if sessionId in m {
      var target := m[sessionId];
      assert merged.HasAt(j);
      ok := UpdateSessionObject(fields, merged, m, target, o, j);
    } else if merged.presence == NoList {
      ok := false;
    } else {
      var c := CopySession(o, merged, |merged.sessions|);
      m' := AppendSession(merged, m, c);
    }
  }

  // Which sessions an overlay still has to give, and what the merged report stands for.
  ghost predicate MergedSoFar(fields: set<string>, merged: ReportObject, m: map<string, SessionObject>,
                              overlay: ReportObject, l: Listing<Session>, i: nat)
    reads merged, merged.own, merged.ownTurns, overlay, overlay.own, overlay.ownTurns
  {
    && ReadyReport(merged, m) && overlay.Valid() && i <= |overlay.sessionValues|
    && FoldTo(Putting(fields), l, overlay.sessionValues, i) == Success(merged.Sessions())
  }

  // One overlay session is put in, and the overlay stays as it is.
  method PutSessionAt(fields: set<string>, merged: ReportObject, m: map<string, SessionObject>,
                      overlay: ReportObject, i: nat)
    returns (ok: bool, m': map<string, SessionObject>)
    requires "id" !in fields && overlay != merged && overlay.Valid() && ReadyReport(merged, m)
    requires i < |overlay.sessions|
    modifies merged, merged.own, merged.ownTurns
    ensures overlay.Valid()
    ensures ok ==> ReadyReport(merged, m') && merged.extra == old(merged.extra)
    ensures PutSession(fields, old(merged.Sessions()), overlay.sessionValues[i])
            == if ok then Success(merged.Sessions()) else Failure(AppendToNoList)
    ensures fresh(merged.own - old(merged.own)) && fresh(merged.ownTurns - old(merged.ownTurns))
  {
    assert overlay.HasAt(i);
    ok, m' := PutSessionObject(fields, merged, m, overlay.sessions[i]);
    forall k | 0 <= k < |overlay.sessions| ensures overlay.HasAt(k) {
      assert old(overlay.HasAt(k));
    }
  }

  // The step from i to i + 1 overlay sessions, on values.
  lemma {:induction false} SessionStep(fields: set<string>, l: Listing<Session>, os: seq<Session>, i: nat,
                                       s: Listing<Session>,
                                       r: Result<Listing<Session>, MergeError>)
    requires i < |os| && FoldTo(Putting(fields), l, os, i) == Success(s) && PutSession(fields, s, os[i]) == r
    ensures FoldTo(Putting(fields), l, os, i + 1) == r
    ensures r.Failure? ==> PutSessions(fields, l, os) == r
  {
    if r.Failure? {
      FailureStays(Putting(fields), l, os, i + 1, |os|);
    }
  }

  method PutNextSession(fields: set<string>, merged: ReportObject, m: map<string, SessionObject>,
                        overlay: ReportObject, ghost l: Listing<Session>, i: nat)
    returns (ok: bool, m': map<string, SessionObject>)
    requires "id" !in fields && overlay != merged
    requires i < |overlay.sessions| && MergedSoFar(fields, merged, m, overlay, l, i)
    modifies merged, merged.own, merged.ownTurns
    ensures ok ==> MergedSoFar(fields, merged, m', overlay, l, i + 1) && merged.extra == old(merged.extra)
    ensures !ok ==> PutSessions(fields, l, overlay.sessionValues) == Failure(AppendToNoList)
    ensures fresh(merged.own - old(merged.own)) && fresh(merged.ownTurns - old(merged.ownTurns))
  {
    ghost var s := merged.Sessions();
    ok, m' := PutSessionAt(fields, merged, m, overlay, i);
    SessionStep(fields, l, overlay.sessionValues, i, s, if ok then Success(merged.Sessions()) else Failure(AppendToNoList));
  }

  method PutOverlay(fields: set<string>, merged: ReportObject, m: map<string, SessionObject>, overlay: ReportObject)
    returns (ok: bool, m': map<string, SessionObject>)
    requires "id" !in fields && overlay != merged && overlay.Valid() && ReadyReport(merged, m)
    modifies merged, merged.own, merged.ownTurns
    ensures ok ==> ReadyReport(merged, m') && merged.extra == old(merged.extra)
    ensures PutSessions(fields, old(merged.Sessions()), overlay.sessionValues)
            == if ok then Success(merged.Sessions()) else Failure(AppendToNoList)
    ensures fresh(merged.own - old(merged.own)) && fresh(merged.ownTurns - old(merged.ownTurns))
  {
    ghost var l := merged.Sessions();
    m' := m;
    var i := 0;
    while i < |overlay.sessions|
      invariant i <= |overlay.sessions| && MergedSoFar(fields, merged, m', overlay, l, i)
      invariant merged.extra == old(merged.extra)
      invariant fresh(merged.own - old(merged.own)) && fresh(merged.ownTurns - old(merged.ownTurns))
    {
      ok, m' := PutNextSession(fields, merged, m', overlay, l, i);
      if !ok {
        return false, m';
      }
      i := i + 1;
    }
    return true, m';
  }

  // ---------------------------------------------------------------- the whole merge

  // The copy holds the first i sessions of the base.
  ghost predicate Copied(c: ReportObject, m: map<string, SessionObject>, base: ReportObject, i: nat)
    reads c, c.own, c.ownTurns, base, base.own, base.ownTurns
  {
    && base.Valid() && i <= |base.sessions| && ReadyReport(c, m)
    && c.extra == base.extra && c.presence == base.presence && c.sessionValues == base.sessionValues[..i]
  }

  method CopyNextSession(c: ReportObject, m: map<string, SessionObject>, base: ReportObject, i: nat)
    returns (m': map<string, SessionObject>)
    requires c != base && i < |base.sessions| && Copied(c, m, base, i)
    modifies c
    ensures Copied(c, m', base, i + 1)
    ensures fresh(c.own - old(c.own)) && fresh(c.ownTurns - old(c.ownTurns))
  {
    assert base.HasAt(i);
    var s := CopySession(base.sessions[i], c, |c.sessions|);
    m' := AppendSession(c, m, s);
  }

  method CopyReport(base: ReportObject) returns (c: ReportObject)
    requires base.Valid()
    ensures fresh(c) && fresh(c.own) && fresh(c.ownTurns)
    ensures c.Valid() && c.Value() == base.Value()
  {
    c := new ReportObject(base.extra, base.presence);
    var m := MapSessions(c);
    var i := 0;
    while i < |base.sessions|
      invariant i <= |base.sessions| && Copied(c, m, base, i)
      invariant fresh(c.own) && fresh(c.ownTurns)
    {
      m := CopyNextSession(c, m, base, i);
      i := i + 1;
    }
  }

  // The report is in order, has the value v, and lies within `world`.
  ghost predicate StandsFor(o: ReportObject, v: Report, world: set<object>)
    reads world
  {
    o in world && o.own <= world && o.ownTurns <= world && o.Valid() && o.Value() == v
  }

  ghost predicate Stand(overlays: seq<ReportObject>, vs: seq<Report>, world: set<object>)
    reads world
  {
    |overlays| == |vs| && forall i | 0 <= i < |vs| :: StandsFor(overlays[i], vs[i], world)
  }

  lemma {:induction false} SessionsSplit(vs: seq<Report>, n: nat) returns (rest: seq<Session>)
    requires n <= |vs|
    ensures AllSessions(vs) == AllSessionsTo(vs, n) + rest
    decreases |vs| - n
  {
    if n == |vs| {
      rest := [];
    } else {
      var more := SessionsSplit(vs, n + 1);
      rest := vs[n].sessions.OrEmpty() + more;
    }
  }

  // What the merged sessions are once the sessions of the first i overlays are in.
  function Merging(fields: set<string>, l: Listing<Session>, vs: seq<Report>, i: nat): Result<Listing<Session>,
                   MergeError>
    requires i <= |vs|
  {
    PutSessions(fields, l, AllSessionsTo(vs, i))
  }

  // One more overlay puts its sessions in; a failing overlay makes the whole merge fail.
  lemma {:induction false} MergingStep(fields: set<string>, l: Listing<Session>, vs: seq<Report>, i: nat)
    requires i < |vs| && Merging(fields, l, vs, i).Success?
    ensures Merging(fields, l, vs, i + 1)
            == PutSessions(fields, Merging(fields, l, vs, i).value, vs[i].sessions.OrEmpty())
    ensures Merging(fields, l, vs, i + 1).Failure? ==> Merging(fields, l, vs, |vs|) == Merging(fields, l, vs, i + 1)
  {
    FoldConcat(Putting(fields), l, AllSessionsTo(vs, i + 1), AllSessionsTo(vs, i), vs[i].sessions.OrEmpty());
    var rest := SessionsSplit(vs, i + 1);
    FoldConcat(Putting(fields), l, AllSessions(vs), AllSessionsTo(vs, i + 1), rest);
  }

  // The merged report stands for the base's sessions `l` with those of the first i overlays put in.
  ghost predicate MergedTo(fields: set<string>, merged: ReportObject, m: map<string, SessionObject>, extra: Attrs,
                           l: Listing<Session>, vs: seq<Report>, i: nat)
    reads merged, merged.own, merged.ownTurns
  {
    && i <= |vs| && ReadyReport(merged, m) && merged.extra == extra
    && Merging(fields, l, vs, i) == Success(merged.Sessions())
  }

  // Either the first i overlays are in, or the whole merge fails.
  ghost predicate Done(fields: set<string>, merged: ReportObject, m: map<string, SessionObject>, extra: Attrs,
                       l: Listing<Session>, vs: seq<Report>, i: nat, ok: bool)
    reads merged, merged.own, merged.ownTurns
  {
    if ok then MergedTo(fields, merged, m, extra, l, vs, i) else Merging(fields, l, vs, |vs|) == Failure(AppendToNoList)
  }

  method StartMerge(fields: set<string>, base: ReportObject, ghost vs: seq<Report>)
    returns (merged: ReportObject, m: map<string, SessionObject>)
    requires base.Valid()
    ensures fresh(merged) && fresh(merged.own) && fresh(merged.ownTurns)
    ensures MergedTo(fields, merged, m, base.extra, base.Sessions(), vs, 0)
  {
    merged := CopyReport(base);
    m := MapSessions(merged);
    assert AllSessionsTo(vs, 0) == [];
  }

  // The merged report and its objects are none of `world`.
  ghost predicate Apart(merged: ReportObject, world: set<object>)
    reads merged
  {
    merged !in world && merged.own !! world && merged.ownTurns !! world
  }

  method PutOneOverlay(fields: set<string>, merged: ReportObject, m: map<string, SessionObject>,
                       overlays: seq<ReportObject>, i: nat, ghost extra: Attrs, ghost l: Listing<Session>,
                       ghost vs: seq<Report>, ghost world: set<object>)
    returns (ok: bool, m': map<string, SessionObject>)
    requires "id" !in fields && Apart(merged, world)
    requires Stand(overlays, vs, world) && i < |vs| && MergedTo(fields, merged, m, extra, l, vs, i)
    modifies merged, merged.own, merged.ownTurns
    ensures Apart(merged, world) && Stand(overlays, vs, world)
    ensures Done(fields, merged, m', extra, l, vs, if ok then i + 1 else |vs|, ok)
    ensures fresh(merged.own - old(merged.own)) && fresh(merged.ownTurns - old(merged.ownTurns))
  {
    MergingStep(fields, l, vs, i);
    assert StandsFor(overlays[i], vs[i], world);
    ok, m' := PutOverlay(fields, merged, m, overlays[i]);
  }

  method PutOverlays(fields: set<string>, merged: ReportObject, m: map<string, SessionObject>,
                     overlays: seq<ReportObject>, ghost extra: Attrs, ghost l: Listing<Session>,
                     ghost vs: seq<Report>, ghost world: set<object>)
    returns (ok: bool, m': map<string, SessionObject>)
    requires "id" !in fields && Apart(merged, world)
    requires Stand(overlays, vs, world) && MergedTo(fields, merged, m, extra, l, vs, 0)
    modifies merged, merged.own, merged.ownTurns
    ensures Done(fields, merged, m', extra, l, vs, |vs|, ok)
    ensures fresh(merged.own - old(merged.own)) && fresh(merged.ownTurns - old(merged.ownTurns))
  {
    ok, m' := true, m;
    var i := 0;
    while ok && i < |overlays|
      invariant i <= |overlays| == |vs| && (ok || i == |vs|)
      invariant Apart(merged, world)
      invariant fresh(merged.own - old(merged.own)) && fresh(merged.ownTurns - old(merged.ownTurns))
      invariant Stand(overlays, vs, world)
      invariant Done(fields, merged, m', extra, l, vs, i, ok)
    {
      ok, m' := PutOneOverlay(fields, merged, m', overlays, i, extra, l, vs, world);
      i := if ok then i + 1 else |overlays|;
    }
  }

  // `_merge_reports`: a new report, made of new objects only, that stands for the merged
  // value.  Nothing that existed before is modified, so base and overlays are unchanged.
  // `ok` is false where the script raises because it appends to what is no list.
  method MergeReportObjects(base: ReportObject, overlays: seq<ReportObject>, ghost vs: seq<Report>,
                            ghost world: set<object>)
    returns (ok: bool, merged: ReportObject)
    requires base.Valid() && Stand(overlays, vs, world)
    ensures fresh(merged) && fresh(merged.own) && fresh(merged.ownTurns)
    ensures ok ==> merged.Valid()
    ensures MergeReports(SESSION_FIELDS, base.Value(), vs)
            == if ok then Success(merged.Value()) else Failure(AppendToNoList)
  {
    var fields := SESSION_FIELDS;
    IdIsNoSessionField();
    var sessionMap;
    merged, sessionMap := StartMerge(fields, base, vs);
    ok, sessionMap := PutOverlays(fields, merged, sessionMap, overlays, base.extra, base.Sessions(), vs, world);
  }
}
