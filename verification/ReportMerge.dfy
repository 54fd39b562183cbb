/**
 The merging of overlay reports into a base report, on values.  Sessions and turns are
 found by a last-match search on their trimmed ids.
 */
module ReportMerge {
  import opened Wrappers
  import opened Folds

  // A JSON value, with the text it stands for as an id: `str(value or "").strip()`.
  datatype Value = Null | Json(content: string, idText: string)

  type Attrs = map<string, Value>

  // What `get` finds under a key that should hold a list: nothing, a falsy value that is no list
  // (null, `{}`, `""`, `0` or `false`, all of which `or []` reads as an empty list), or a list.
  datatype Presence = Missing | NoList | Present

  datatype Listing<T> = Listing(presence: Presence, items: seq<T>) {
    function OrEmpty(): seq<T> {
      if presence.Present? then items else []
    }
  }

  function Items<T>(xs: seq<T>): Listing<T> {
    Listing(Present, xs)
  }

  datatype Session = Session(attrs: Attrs, turns: Listing<Attrs>)

  datatype Report = Report(extra: Attrs, sessions: Listing<Session>)

  // Appending to a value that is there but is no list.
  datatype MergeError = AppendToNoList

  const SESSION_FIELDS: set<string> :=
    {"label", "profile", "coverage", "goal", "user_id", "sync_session_id", "stream_session_id"}

  // The id is none of the fields an overlay session updates, as the laws of merging ask.
  lemma {:induction false} IdIsNoSessionField()
    ensures "id" !in SESSION_FIELDS
  {
  }

  function Get(a: Attrs, f: string): Value {
    if f in a then a[f] else Null
  }

  // `str(a.get("id") or "").strip()`
  function Key(a: Attrs): string {
    var v := Get(a, "id");
    if v.Null? then "" else v.idText
  }

  // ---------------------------------------------------------------- last-match search

  function FindTo(keys: seq<string>, k: string, n: nat): (r: int)
    requires n <= |keys|
    ensures -1 <= r < n
  {
    if n == 0 then -1 else if keys[n - 1] == k then n - 1 else FindTo(keys, k, n - 1)
  }

  // Index of the last `k`, or -1.
  function Find(keys: seq<string>, k: string): (r: int)
    ensures -1 <= r < |keys|
  {
    FindTo(keys, k, |keys|)
  }

  lemma {:induction false} FindToIsLast(keys: seq<string>, k: string, n: nat)
    requires n <= |keys|
    ensures FindTo(keys, k, n) >= 0 ==> keys[FindTo(keys, k, n)] == k
    ensures forall i | FindTo(keys, k, n) < i < n :: keys[i] != k
  {
    if n > 0 { FindToIsLast(keys, k, n - 1); }
  }

  lemma {:induction false} FindIs(keys: seq<string>, k: string, r: int)
    requires -1 <= r < |keys|
    requires r >= 0 ==> keys[r] == k
    requires forall i | r < i < |keys| :: keys[i] != k
    ensures Find(keys, k) == r
  {
    FindToIsLast(keys, k, |keys|);
  }

  lemma {:induction false} FindNone(keys: seq<string>, k: string)
    ensures Find(keys, k) < 0 <==> k !in keys
  {
    FindToIsLast(keys, k, |keys|);
  }

  lemma {:induction false} FindSnoc(keys: seq<string>, l: string, k: string)
    ensures Find(keys + [l], k) == if l == k then |keys| else Find(keys, k)
  {
    FindToIsLast(keys, k, |keys|);
    FindIs(keys + [l], k, if l == k then |keys| else Find(keys, k));
  }

  // ---------------------------------------------------------------- turns

  function TurnKeys(ts: seq<Attrs>): seq<string> {
    seq(|ts|, i requires 0 <= i < |ts| => Key(ts[i]))
  }

  function PutTurn(l: Listing<Attrs>, o: Attrs): Result<Listing<Attrs>, MergeError> {
    var ts := l.OrEmpty();
    var j := Find(TurnKeys(ts), Key(o));
    if Key(o) == "" then Success(l)
    else if j >= 0 then Success(Items(ts[j := ts[j] + o]))
    else if l.presence.NoList? then Failure(AppendToNoList)
    else Success(Items(ts + [o]))
  }

  function PutTurns(l: Listing<Attrs>, os: seq<Attrs>): Result<Listing<Attrs>, MergeError> {
    Fold(PutTurn, l, os)
  }

  // ---------------------------------------------------------------- sessions

  // `target.update({f: overlay.get(f, target.get(f)) ...})` for the session fields.
  function UpdateFields(fields: set<string>, t: Attrs, o: Attrs): Attrs {
    t + map f | f in fields :: if f in o then o[f] else Get(t, f)
  }

  function SessionKeys(ss: seq<Session>): seq<string> {
    seq(|ss|, i requires 0 <= i < |ss| => Key(ss[i].attrs))
  }

  function UpdateSession(fields: set<string>, t: Session, o: Session): Result<Session, MergeError> {
    var r := PutTurns(t.turns, o.turns.OrEmpty());
    if r.Failure? then Failure(r.error) else Success(Session(UpdateFields(fields, t.attrs, o.attrs), r.value))
  }

  function PutSession(fields: set<string>, l: Listing<Session>, o: Session): Result<Listing<Session>, MergeError> {
    var ss := l.OrEmpty();
    var j := Find(SessionKeys(ss), Key(o.attrs));
    if Key(o.attrs) == "" then Success(l)
    else if j >= 0 then
      var r := UpdateSession(fields, ss[j], o);
      if r.Failure? then Failure(r.error) else Success(Items(ss[j := r.value]))
    else if l.presence.NoList? then Failure(AppendToNoList)
    else Success(Items(ss + [o]))
  }

  function Putting(fields: set<string>): (Listing<Session>, Session) -> Result<Listing<Session>, MergeError> {
    (l, o) => PutSession(fields, l, o)
  }

  function PutSessions(fields: set<string>, l: Listing<Session>, os: seq<Session>): Result<Listing<Session>,
                       MergeError> {
    Fold(Putting(fields), l, os)
  }

  // ---------------------------------------------------------------- reports

  // Every session of the first n overlays, in order.
  function AllSessionsTo(overlays: seq<Report>, n: nat): seq<Session>
    requires n <= |overlays|
  {
    if n == 0 then [] else AllSessionsTo(overlays, n - 1) + overlays[n - 1].sessions.OrEmpty()
  }

  function AllSessions(overlays: seq<Report>): seq<Session> {
    AllSessionsTo(overlays, |overlays|)
  }

  function MergeReports(fields: set<string>, base: Report, overlays: seq<Report>): Result<Report, MergeError> {
    var r := PutSessions(fields, base.sessions, AllSessions(overlays));
    if r.Failure? then Failure(r.error) else Success(Report(base.extra, r.value))
  }

  lemma {:induction false} AllSessionsConcat(xs: seq<Report>, ys: seq<Report>, n: nat)
    requires n <= |ys|
    ensures AllSessionsTo(xs + ys, |xs| + n) == AllSessions(xs) + AllSessionsTo(ys, n)
  {
    if n > 0 {
      AllSessionsConcat(xs, ys, n - 1);
      assert (xs + ys)[|xs| + n - 1] == ys[n - 1];
    } else {
      AllSessionsPrefix(xs, xs + ys, |xs|);
    }
  }

  lemma {:induction false} AllSessionsPrefix(xs: seq<Report>, ys: seq<Report>, n: nat)
    requires n <= |xs| <= |ys| && forall i | 0 <= i < n :: xs[i] == ys[i]
    ensures AllSessionsTo(xs, n) == AllSessionsTo(ys, n)
  {
    if n > 0 { AllSessionsPrefix(xs, ys, n - 1); }
  }

  lemma {:induction false} PutSessionsInTwoGoes(fields: set<string>, l: Listing<Session>, xs: seq<Report>,
                                                ys: seq<Report>)
    ensures var r := PutSessions(fields, l, AllSessions(xs));
            PutSessions(fields, l, AllSessions(xs + ys)) ==
            if r.Failure? then r else PutSessions(fields, r.value, AllSessions(ys))
  {
    AllSessionsConcat(xs, ys, |ys|);
    FoldConcat(Putting(fields), l, AllSessions(xs + ys), AllSessions(xs), AllSessions(ys));
  }

  // Merging overlays in one call is merging the first ones and then the others into the
  // result, even when ids repeat.
  lemma {:induction false} MergeInTwoGoes(fields: set<string>, base: Report, xs: seq<Report>, ys: seq<Report>)
    ensures var r := MergeReports(fields, base, xs);
            MergeReports(fields, base, xs + ys) == if r.Failure? then r else MergeReports(fields, r.value, ys)
  {
    PutSessionsInTwoGoes(fields, base.sessions, xs, ys);
  }
}
