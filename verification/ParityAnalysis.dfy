/**
 Comparing the visible thinking of synchronous and streamed answers: every turn is put in
 one of six classes, counted in its lane and in the summary.  What is counted in one place
 is counted in the others.
 */
module ParityAnalysis {
  import opened Wrappers
  import opened PyText
  import R = RuntimeCounters
  import opened StableSort

  // ---------------------------------------------------------------- one turn

  // One side of a turn; `given` is false for an empty or missing dictionary.
  datatype Transport = Transport(given: bool, agentType: string, finalLength: int, thinking: string, metadata: R.Metadata)

  datatype Turn = Turn(id: string, sync: Transport, stream: Transport)

  datatype Session = Session(id: string, turns: seq<Turn>)

  datatype Classification =
    StreamMissing | StreamThinner | StreamRicher | ParityClose | BothMissing | SyncMissing

  datatype Finding = Finding(lane: string, sessionId: string, turnId: string, syncLen: int, streamLen: int,
                             classification: Classification, syncRuntime: R.Runtime, streamRuntime: R.Runtime)

  // `int(metrics.get("final_length") or len(str(thinking or "").strip()))`
  function ThinkingLength(t: Transport): int {
    if t.finalLength != 0 then t.finalLength else |Strip(t.thinking)|
  }

  // `_classify_thinking_gap`; `share(n)` is `int(n * 0.7)`.
  function Classify(share: int -> int, syncLen: int, streamLen: int): Classification {
    if syncLen != 0 && streamLen == 0 then StreamMissing
    else if streamLen != 0 && syncLen == 0 then SyncMissing
    else if syncLen == 0 && streamLen == 0 then BothMissing
    else if streamLen < share(syncLen) then StreamThinner
    else if syncLen < share(streamLen) then StreamRicher
    else ParityClose
  }

  // The class with the two sides exchanged.
  function Mirror(c: Classification): Classification {
    match c
    case StreamMissing => SyncMissing
    case SyncMissing => StreamMissing
    case StreamThinner => StreamRicher
    case StreamRicher => StreamThinner
    case ParityClose => ParityClose
    case BothMissing => BothMissing
  }

  // A share of a length is no longer than the length; so it is for 0.7 in exact arithmetic
  // and in floating point.
  ghost predicate SharesShorten(share: int -> int) {
    forall n :: n > 0 ==> share(n) <= n
  }

  // Exchanging the two lengths exchanges the classes.
  lemma {:induction false} ClassifyMirrors(share: int -> int, syncLen: int, streamLen: int)
    requires SharesShorten(share) && syncLen >= 0 && streamLen >= 0
    ensures Classify(share, streamLen, syncLen) == Mirror(Classify(share, syncLen, streamLen))
  {
  }

  // The class in terms of the lengths alone: which side is missing, else whether one side is
  // shorter than the share of the other.  No two conditions meet, so the order in which the
  // script asks does not matter.
  lemma {:induction false} ClassMeans(share: int -> int, syncLen: int, streamLen: int)
    requires SharesShorten(share) && syncLen >= 0 && streamLen >= 0
    ensures var c, both := Classify(share, syncLen, streamLen), syncLen > 0 && streamLen > 0;
            && (c == StreamMissing <==> syncLen > 0 && streamLen == 0)
            && (c == SyncMissing <==> syncLen == 0 && streamLen > 0)
            && (c == BothMissing <==> syncLen == streamLen == 0)
            && (c == StreamThinner <==> both && streamLen < share(syncLen))
            && (c == StreamRicher <==> both && syncLen < share(streamLen))
            && (c == ParityClose <==> both && share(syncLen) <= streamLen && share(streamLen) <= syncLen)
  {
  }

  // `int(n * 0.7)` in exact arithmetic: Python truncates toward zero.
  function SevenTenths(n: int): int {
    if n >= 0 then 7 * n / 10 else -(7 * -n / 10)
  }

  // On reported lengths that are negative the classes are not exchanged exactly when neither
  // magnitude is at most seven tenths of the other: both ways round the stream is "thinner".
  lemma {:induction false} ClassifyMirrorsIff(syncLen: int, streamLen: int)
    ensures Classify(SevenTenths, streamLen, syncLen) == Mirror(Classify(SevenTenths, syncLen, streamLen))
            <==> syncLen >= 0 || streamLen >= 0
                 || -streamLen <= 7 * -syncLen / 10 || -syncLen <= 7 * -streamLen / 10
  {
  }

  // Two equal negative lengths: the stream is "thinner" both ways round.
  lemma {:induction false} EqualNegativeLengths(n: int)
    requires n < -1
    ensures Classify(SevenTenths, n, n) == StreamThinner != Mirror(StreamThinner)
  {
  }

  // ---------------------------------------------------------------- all turns

  function LaneOf(lower: string -> string, sync: Transport, stream: Transport): string {
    var agentType := if stream.agentType != "" then stream.agentType else sync.agentType;
    var lane := lower(Strip(agentType));
    if lane == "" then "unknown" else lane
  }

  function FindingOf(lower: string -> string, share: int -> int, sessionId: string, t: Turn): Finding {
    var syncLen, streamLen := ThinkingLength(t.sync), ThinkingLength(t.stream);
    Finding(LaneOf(lower, t.sync, t.stream), sessionId, Strip(t.id), syncLen, streamLen,
            Classify(share, syncLen, streamLen), R.RuntimeOf(t.sync.metadata), R.RuntimeOf(t.stream.metadata))
  }

  // The findings of the first n turns; a turn with neither side has none.
  function TurnFindings(lower: string -> string, share: int -> int, sessionId: string, ts: seq<Turn>,
                        n: nat): seq<Finding>
    requires n <= |ts|
  {
    if n == 0 then []
    else if !ts[n - 1].sync.given && !ts[n - 1].stream.given then TurnFindings(lower, share, sessionId, ts, n - 1)
    else TurnFindings(lower, share, sessionId, ts, n - 1) + [FindingOf(lower, share, sessionId, ts[n - 1])]
  }

  function Findings(lower: string -> string, share: int -> int, ss: seq<Session>, n: nat): seq<Finding>
    requires n <= |ss|
  {
    if n == 0 then []
    else Findings(lower, share, ss, n - 1)
         + TurnFindings(lower, share, Strip(ss[n - 1].id), ss[n - 1].turns, |ss[n - 1].turns|)
  }

  // What the runtime counters see of the first n findings: the synchronous side, then the streamed.
  function Observed(fs: seq<Finding>, n: nat): seq<R.Observation>
    requires n <= |fs|
  {
    if n == 0 then []
    else Observed(fs, n - 1) + [R.Observation(R.Sync, fs[n - 1].syncRuntime), R.Observation(R.Stream, fs[n - 1].streamRuntime)]
  }

  lemma {:induction false} ObservedPrefix(fs: seq<Finding>, f: Finding, n: nat)
    requires n <= |fs|
    ensures Observed(fs + [f], n) == Observed(fs, n)
  {
    if n > 0 {
      ObservedPrefix(fs, f, n - 1);
    }
  }

  // Which findings are counted: those of a lane, of a class, or all.
  function Select(lane: Option<string>, c: Option<Classification>): Finding -> bool {
    (f: Finding) => (lane.None? || f.lane == lane.value) && (c.None? || f.classification == c.value)
  }

  function Tally(lane: Option<string>, c: Option<Classification>, fs: seq<Finding>): nat {
    Count(Select(lane, c), fs, |fs|)
  }

  lemma {:induction false} TallySnoc(lane: Option<string>, c: Option<Classification>, fs: seq<Finding>, f: Finding)
    ensures Tally(lane, c, fs + [f]) == Tally(lane, c, fs) + (if Select(lane, c)(f) then 1 else 0)
  {
    var p := Select(lane, c);
    CountJoin(p, fs + [f], fs, [f]);
    assert Count(p, [f], 1) == Count(p, [f], 0) + (if p([f][0]) then 1 else 0);
  }

  // ---------------------------------------------------------------- lanes

  datatype Lane = Lane(turns: nat, counts: map<Classification, nat>)

  const NO_TURNS := Lane(0, map[StreamMissing := 0, StreamThinner := 0, StreamRicher := 0,
                                ParityClose := 0, BothMissing := 0, SyncMissing := 0])

  // The lanes of the first n findings, in the order in which they first occur.
  function LanesSeen(fs: seq<Finding>, n: nat): seq<string>
    requires n <= |fs|
  {
    if n == 0 then []
    else if fs[n - 1].lane in LanesSeen(fs, n - 1) then LanesSeen(fs, n - 1)
    else LanesSeen(fs, n - 1) + [fs[n - 1].lane]
  }

  lemma {:induction false} LanesSeenPrefix(fs: seq<Finding>, f: Finding, n: nat)
    requires n <= |fs|
    ensures LanesSeen(fs + [f], n) == LanesSeen(fs, n)
  {
    if n > 0 {
      LanesSeenPrefix(fs, f, n - 1);
    }
  }

  // A lane's counters are those of its findings.
  ghost predicate Counts(lane: Lane, name: string, fs: seq<Finding>) {
    && lane.turns == Tally(Some(name), None, fs)
    && forall c :: c in lane.counts && lane.counts[c] == Tally(Some(name), Some(c), fs)
  }

  ghost predicate LanesCount(byLane: map<string, Lane>, fs: seq<Finding>) {
    && (forall l :: l in byLane <==> l in LanesSeen(fs, |fs|))
    && forall l :: l in byLane ==> Counts(byLane[l], l, fs)
  }

  lemma {:induction false} CountsSnoc(lane: Lane, name: string, fs: seq<Finding>, f: Finding)
    requires Counts(lane, name, fs)
    ensures f.lane != name ==> Counts(lane, name, fs + [f])
    ensures f.lane == name ==> Counts(Bump(lane, f.classification), name, fs + [f])
  {
    TallySnoc(Some(name), None, fs, f);
    forall c ensures Tally(Some(name), Some(c), fs + [f])
                     == Tally(Some(name), Some(c), fs) + (if f.lane == name && f.classification == c then 1 else 0) {
      TallySnoc(Some(name), Some(c), fs, f);
    }
  }

  lemma {:induction false} NewLaneCounts(name: string, fs: seq<Finding>, n: nat)
    requires n <= |fs| && name !in LanesSeen(fs, n)
    ensures forall c {:trigger Select(Some(name), c)} :: Count(Select(Some(name), c), fs, n) == 0
  {
    if n > 0 {
      NewLaneCounts(name, fs, n - 1);
      assert fs[n - 1].lane != name;
      forall c ensures Count(Select(Some(name), c), fs, n) == 0 {
        assert Count(Select(Some(name), c), fs, n - 1) == 0;
      }
    }
  }

  lemma {:induction false} NoTurnsYet(c: Classification)
    ensures c in NO_TURNS.counts && NO_TURNS.counts[c] == 0
  {
    match c
    case StreamMissing =>
    case StreamThinner =>
    case StreamRicher =>
    case ParityClose =>
    case BothMissing =>
    case SyncMissing =>
  }

  lemma {:induction false} NoTurnsCount(name: string, fs: seq<Finding>)
    requires name !in LanesSeen(fs, |fs|)
    ensures Counts(NO_TURNS, name, fs)
  {
    NewLaneCounts(name, fs, |fs|);
    assert Count(Select(Some(name), None), fs, |fs|) == 0;
    forall c ensures c in NO_TURNS.counts && NO_TURNS.counts[c] == Tally(Some(name), Some(c), fs) {
      NoTurnsYet(c);
      assert Count(Select(Some(name), Some(c)), fs, |fs|) == 0;
    }
  }

  function Bump(lane: Lane, c: Classification): Lane
    requires c in lane.counts
  {
    Lane(lane.turns + 1, lane.counts[c := lane.counts[c] + 1])
  }

  lemma {:induction false} BumpedLanes(byLane: map<string, Lane>, lane: Lane, fs: seq<Finding>, f: Finding)
    requires LanesCount(byLane, fs) && Counts(lane, f.lane, fs)
    ensures LanesCount(byLane[f.lane := Bump(lane, f.classification)], fs + [f])
  {
    LanesSeenPrefix(fs, f, |fs|);
    CountsSnoc(lane, f.lane, fs, f);
    var counted := byLane[f.lane := Bump(lane, f.classification)];
    forall l | l in counted ensures Counts(counted[l], l, fs + [f]) {
      if l != f.lane {
        CountsSnoc(byLane[l], l, fs, f);
      }
    }
  }

  // `lane_bucket["turns"] += 1` and the class counter, in a bucket made if need be.
  method CountTurn(byLane: map<string, Lane>, f: Finding, ghost fs: seq<Finding>) returns (counted: map<string, Lane>)
    requires LanesCount(byLane, fs)
    ensures LanesCount(counted, fs + [f])
  {
    if f.lane !in byLane {
      NoTurnsCount(f.lane, fs);
    }
    var bucket := if f.lane in byLane then byLane[f.lane] else NO_TURNS;
    assert Counts(bucket, f.lane, fs);
    BumpedLanes(byLane, bucket, fs, f);
    counted := byLane[f.lane := Bump(bucket, f.classification)];
  }

  // ---------------------------------------------------------------- the whole report

  // `a < b` on strings: by code points, a proper prefix first.
  predicate TextLess(a: string, b: string, i: nat)
    requires i <= |a| && i <= |b|
    decreases |a| - i
  {
    if i == |b| then false
    else if i == |a| then true
    else a[i] < b[i] || (a[i] == b[i] && TextLess(a, b, i + 1))
  }

  // `(item["lane"], item["session_id"], item["turn_id"])`
  predicate FindingLess(a: Finding, b: Finding) {
    if a.lane != b.lane then TextLess(a.lane, b.lane, 0)
    else if a.sessionId != b.sessionId then TextLess(a.sessionId, b.sessionId, 0)
    else TextLess(a.turnId, b.turnId, 0)
  }

  lemma {:induction false} TextOrder(a: string, b: string, c: string, i: nat)
    requires i <= |a| && i <= |b| && i <= |c|
    ensures TextLess(a, b, i) ==> !TextLess(b, a, i)
    ensures !TextLess(a, b, i) && !TextLess(b, a, i) ==> a[i..] == b[i..]
    ensures !TextLess(a, b, i) && !TextLess(b, c, i) ==> !TextLess(a, c, i)
    decreases |a| - i
  {
    if i < |a| && i < |b| && i < |c| {
      if a[i] == b[i] {
        TextOrder(a, b, c, i + 1);
        assert a[i..] == [a[i]] + a[i + 1..] && b[i..] == [b[i]] + b[i + 1..];
      }
    } else if i < |a| && i < |b| && a[i] == b[i] {
      TextOrder(a, b, a, i + 1);
      assert a[i..] == [a[i]] + a[i + 1..] && b[i..] == [b[i]] + b[i + 1..];
    }
  }

  lemma {:induction false} TextTotal(a: string, b: string, c: string)
    ensures TextLess(a, b, 0) ==> !TextLess(b, a, 0)
    ensures a != b ==> TextLess(a, b, 0) || TextLess(b, a, 0)
    ensures !TextLess(a, b, 0) && !TextLess(b, c, 0) ==> !TextLess(a, c, 0)
  {
    TextOrder(a, b, c, 0);
    assert a[0..] == a && b[0..] == b;
  }

  lemma {:induction false} FindingsTriple(x: Finding, y: Finding, z: Finding)
    ensures FindingLess(x, y) ==> !FindingLess(y, x)
    ensures !FindingLess(x, y) && !FindingLess(y, z) ==> !FindingLess(x, z)
  {
    TextTotal(x.lane, y.lane, z.lane);
    TextTotal(y.lane, z.lane, x.lane);
    TextTotal(x.sessionId, y.sessionId, z.sessionId);
    TextTotal(y.sessionId, z.sessionId, x.sessionId);
    TextTotal(x.turnId, y.turnId, z.turnId);
  }

  lemma {:induction false} FindingsOrder()
    ensures StrictWeak(FindingLess)
  {
    forall x, y, z
      ensures FindingLess(x, y) ==> !FindingLess(y, x)
      ensures !FindingLess(x, y) && !FindingLess(y, z) ==> !FindingLess(x, z)
    {
      FindingsTriple(x, y, z);
    }
  }

  datatype Summary = Summary(turnCount: nat, streamMissing: nat, streamThinner: nat, parityClose: nat,
                             streamRicher: nat, bothMissing: nat)

  // `sum(1 for item in findings if item["classification"] == c)`
  method CountClass(fs: seq<Finding>, c: Classification) returns (n: nat)
    ensures n == Tally(None, Some(c), fs)
  {
    n := 0;
    for i := 0 to |fs|
      invariant n == Count(Select(None, Some(c)), fs, i)
    {
      if fs[i].classification == c {
        n := n + 1;
      }
    }
  }

  // The summary counts the findings by class; it has no counter for SyncMissing.
  ghost predicate Summarises(summary: Summary, fs: seq<Finding>) {
    && summary.turnCount == |fs|
    && summary.streamMissing == Tally(None, Some(StreamMissing), fs)
    && summary.streamThinner == Tally(None, Some(StreamThinner), fs)
    && summary.parityClose == Tally(None, Some(ParityClose), fs)
    && summary.streamRicher == Tally(None, Some(StreamRicher), fs)
    && summary.bothMissing == Tally(None, Some(BothMissing), fs)
  }

  method Summarise(fs: seq<Finding>) returns (summary: Summary)
    ensures Summarises(summary, fs)
  {
    var streamMissing := CountClass(fs, StreamMissing);
    var streamThinner := CountClass(fs, StreamThinner);
    var parityClose := CountClass(fs, ParityClose);
    var streamRicher := CountClass(fs, StreamRicher);
    var bothMissing := CountClass(fs, BothMissing);
    summary := Summary(|fs|, streamMissing, streamThinner, parityClose, streamRicher, bothMissing);
  }

  // The runtime counters are those of the findings.
  ghost predicate Tallied(tally: R.RuntimeTally, found: seq<Finding>)
    reads tally
  {
    tally.Valid() && tally.seen == Observed(found, |found|)
  }

  // The finding of one turn, its runtimes recorded.
  method RecordTurn(lower: string -> string, share: int -> int, sessionId: string, turn: Turn,
                    tally: R.RuntimeTally, ghost found: seq<Finding>)
    returns (finding: Finding)
    requires Tallied(tally, found)
    modifies tally
    ensures finding == FindingOf(lower, share, sessionId, turn) && Tallied(tally, found + [finding])
  {
    var syncLen, streamLen := ThinkingLength(turn.sync), ThinkingLength(turn.stream);
    var syncRuntime := R.TransportRuntime(turn.sync.metadata);
    var streamRuntime := R.TransportRuntime(turn.stream.metadata);
    tally.Record(R.Sync, syncRuntime);
    tally.Record(R.Stream, streamRuntime);
    finding := Finding(LaneOf(lower, turn.sync, turn.stream), sessionId, Strip(turn.id), syncLen, streamLen,
                       Classify(share, syncLen, streamLen), syncRuntime, streamRuntime);
    ObservedPrefix(found, finding, |found|);
  }

  // Lanes and runtime counters are those of the findings so far.
  ghost predicate Sound(tally: R.RuntimeTally, byLane: map<string, Lane>, found: seq<Finding>)
    reads tally
  {
    LanesCount(byLane, found) && Tallied(tally, found)
  }

  // The findings with those of one more turn
  function WithTurn(lower: string -> string, share: int -> int, sessionId: string, turn: Turn,
                    found: seq<Finding>): seq<Finding> {
    if turn.sync.given || turn.stream.given then found + [FindingOf(lower, share, sessionId, turn)] else found
  }

  lemma {:induction false} OneMoreTurn(lower: string -> string, share: int -> int, sessionId: string, ts: seq<Turn>,
                                       j: nat,
                                       findings: seq<Finding>)
    requires j < |ts|
    ensures WithTurn(lower, share, sessionId, ts[j], findings + TurnFindings(lower, share, sessionId, ts, j))
            == findings + TurnFindings(lower, share, sessionId, ts, j + 1)
  {
  }

  method AnalyzeTurn(lower: string -> string, share: int -> int, sessionId: string, turn: Turn, tally: R.RuntimeTally,
                     findings: seq<Finding>, byLane: map<string, Lane>)
    returns (found: seq<Finding>, counted: map<string, Lane>)
    requires Sound(tally, byLane, findings)
    modifies tally
    ensures found == WithTurn(lower, share, sessionId, turn, findings)
    ensures Sound(tally, counted, found)
  {
    if !turn.sync.given && !turn.stream.given {
      return findings, byLane;
    }
    var finding := RecordTurn(lower, share, sessionId, turn, tally, findings);
    counted := CountTurn(byLane, finding, findings);
    found := findings + [finding];
  }

  // The inner loop of `_analyze_report`
  method AnalyzeSession(lower: string -> string, share: int -> int, session: Session, tally: R.RuntimeTally,
                        findings: seq<Finding>, byLane: map<string, Lane>)
    returns (found: seq<Finding>, counted: map<string, Lane>)
    requires Sound(tally, byLane, findings)
    modifies tally
    ensures found == findings + TurnFindings(lower, share, Strip(session.id), session.turns, |session.turns|)
    ensures Sound(tally, counted, found)
  {
    var sessionId := Strip(session.id);
    found, counted := findings, byLane;
    for j := 0 to |session.turns|
      invariant found == findings + TurnFindings(lower, share, sessionId, session.turns, j)
      invariant Sound(tally, counted, found)
    {
      OneMoreTurn(lower, share, sessionId, session.turns, j, findings);
      found, counted := AnalyzeTurn(lower, share, sessionId, session.turns[j], tally, found, counted);
    }
  }

  // `_analyze_report`
  method AnalyzeReport(lower: string -> string, share: int -> int, sessions: seq<Session>)
    returns (summary: Summary, byLane: map<string, Lane>, findings: seq<Finding>, tally: R.RuntimeTally)
    ensures findings == Sort(FindingLess, Findings(lower, share, sessions, |sessions|))
    ensures fresh(tally) && Sound(tally, byLane, Findings(lower, share, sessions, |sessions|))
    ensures Summarises(summary, findings)
  {
    var found: seq<Finding> := [];
    byLane := map[];
    tally := new R.RuntimeTally();
    assert Sound(tally, byLane, found);
    for i := 0 to |sessions|
      invariant found == Findings(lower, share, sessions, i)
      invariant fresh(tally) && Sound(tally, byLane, found)
    {
      found, byLane := AnalyzeSession(lower, share, sessions[i], tally, found, byLane);
    }
    findings := Sort(FindingLess, found);
    summary := Summarise(findings);
  }

  // ---------------------------------------------------------------- conservation

  // The findings come out in order, and counted as they were found.
  lemma {:induction false} SortingKeepsTallies(fs: seq<Finding>, lane: Option<string>, c: Option<Classification>)
    ensures Tally(lane, c, Sort(FindingLess, fs)) == Tally(lane, c, fs)
    ensures Ordered(FindingLess, Sort(FindingLess, fs)) && |Sort(FindingLess, fs)| == |fs|
  {
    SortToKeepsCount(Select(lane, c), FindingLess, fs, |fs|);
    FindingsOrder();
    SortToOrders(FindingLess, fs, |fs|);
  }

  // Every finding is of exactly one of the six classes.
  lemma {:induction false} ClassesAddUp(lane: Option<string>, fs: seq<Finding>, n: nat)
    requires n <= |fs|
    ensures Count(Select(lane, None), fs, n)
            == Count(Select(lane, Some(StreamMissing)), fs, n) + Count(Select(lane, Some(StreamThinner)), fs, n)
               + Count(Select(lane, Some(StreamRicher)), fs, n) + Count(Select(lane, Some(ParityClose)), fs, n)
               + Count(Select(lane, Some(BothMissing)), fs, n) + Count(Select(lane, Some(SyncMissing)), fs, n)
  {
    if n > 0 {
      ClassesAddUp(lane, fs, n - 1);
      match fs[n - 1].classification
      case _ =>
    }
  }

  lemma {:induction false} AllCounted(fs: seq<Finding>, n: nat)
    requires n <= |fs|
    ensures Count(Select(None, None), fs, n) == n
  {
    if n > 0 {
      AllCounted(fs, n - 1);
    }
  }

  // The counts of the first m lanes of `order` over the first n findings.
  function LaneSum(order: seq<string>, m: nat, c: Option<Classification>, fs: seq<Finding>, n: nat): nat
    requires m <= |order| && n <= |fs|
  {
    if m == 0 then 0 else LaneSum(order, m - 1, c, fs, n) + Count(Select(Some(order[m - 1]), c), fs, n)
  }

  ghost predicate Different(order: seq<string>) {
    forall i, j :: 0 <= i < j < |order| ==> order[i] != order[j]
  }

  // One more finding adds one to the sum exactly when its lane is among the lanes summed.
  lemma {:induction false} LaneSumStep(order: seq<string>, m: nat, c: Option<Classification>, fs: seq<Finding>, n: nat)
    requires Different(order) && m <= |order| && 0 < n <= |fs|
    ensures LaneSum(order, m, c, fs, n) == LaneSum(order, m, c, fs, n - 1)
            + (if fs[n - 1].lane in order[..m] && (c.None? || fs[n - 1].classification == c.value) then 1 else 0)
  {
    if m > 0 {
      LaneSumStep(order, m - 1, c, fs, n);
      assert order[..m] == order[..m - 1] + [order[m - 1]];
      if fs[n - 1].lane == order[m - 1] {
        assert fs[n - 1].lane !in order[..m - 1];
      }
    }
  }

  // Lanes that are all different and cover all findings count each finding once.
  lemma {:induction false} LanesAddUp(order: seq<string>, c: Option<Classification>, fs: seq<Finding>, n: nat)
    requires Different(order) && n <= |fs| && forall i :: 0 <= i < n ==> fs[i].lane in order
    ensures LaneSum(order, |order|, c, fs, n) == Count(Select(None, c), fs, n)
  {
    if n == 0 {
      NothingToSum(order, |order|, c, fs);
    } else {
      LanesAddUp(order, c, fs, n - 1);
      LaneSumStep(order, |order|, c, fs, n);
      assert order[..|order|] == order;
    }
  }

  lemma {:induction false} NothingToSum(order: seq<string>, m: nat, c: Option<Classification>, fs: seq<Finding>)
    requires m <= |order|
    ensures LaneSum(order, m, c, fs, 0) == 0
  {
    if m > 0 {
      NothingToSum(order, m - 1, c, fs);
    }
  }

  lemma {:induction false} LanesSeenCover(fs: seq<Finding>, n: nat)
    requires n <= |fs|
    ensures Different(LanesSeen(fs, n))
    ensures forall i :: 0 <= i < n ==> fs[i].lane in LanesSeen(fs, n)
  {
    if n > 0 {
      LanesSeenCover(fs, n - 1);
    }
  }

  // Sums over the lanes of a report, in any order that lists each lane once.
  function TurnsOver(byLane: map<string, Lane>, order: seq<string>, m: nat): nat
    requires m <= |order| && forall l :: l in order ==> l in byLane
  {
    if m == 0 then 0 else TurnsOver(byLane, order, m - 1) + byLane[order[m - 1]].turns
  }

  function ClassOver(byLane: map<string, Lane>, order: seq<string>, m: nat, c: Classification): nat
    requires m <= |order| && forall l :: l in order ==> l in byLane && c in byLane[l].counts
  {
    if m == 0 then 0 else ClassOver(byLane, order, m - 1, c) + byLane[order[m - 1]].counts[c]
  }

  lemma {:induction false} OverIsLaneSum(byLane: map<string, Lane>, fs: seq<Finding>, order: seq<string>, m: nat,
                                         c: Classification)
    requires LanesCount(byLane, fs) && m <= |order| && forall l :: l in order ==> l in byLane
    ensures forall l :: l in order ==> c in byLane[l].counts
    ensures TurnsOver(byLane, order, m) == LaneSum(order, m, None, fs, |fs|)
    ensures ClassOver(byLane, order, m, c) == LaneSum(order, m, Some(c), fs, |fs|)
  {
    forall l | l in order ensures Counts(byLane[l], l, fs) {
    }
    if m > 0 {
      OverIsLaneSum(byLane, fs, order, m - 1, c);
      assert Counts(byLane[order[m - 1]], order[m - 1], fs);
    }
  }

  // The lanes' turns add up to the turn count, each lane's turns are its six class counters
  // together, and each class adds up over the lanes to the number of its findings.
  lemma {:induction false} LanesConserve(byLane: map<string, Lane>, fs: seq<Finding>, order: seq<string>,
                                         c: Classification)
    requires LanesCount(byLane, fs) && Different(order) && forall l :: l in order <==> l in byLane
    ensures forall l :: l in order ==> c in byLane[l].counts
    ensures TurnsOver(byLane, order, |order|) == |fs|
    ensures ClassOver(byLane, order, |order|, c) == Tally(None, Some(c), fs)
  {
    LanesSeenCover(fs, |fs|);
    LanesAddUp(order, None, fs, |fs|);
    LanesAddUp(order, Some(c), fs, |fs|);
    AllCounted(fs, |fs|);
    OverIsLaneSum(byLane, fs, order, |order|, c);
  }

  lemma {:induction false} LaneIsItsClasses(byLane: map<string, Lane>, fs: seq<Finding>, l: string)
    requires LanesCount(byLane, fs) && l in byLane
    ensures forall c :: c in byLane[l].counts
    ensures var n := byLane[l].counts;
            byLane[l].turns == n[StreamMissing] + n[StreamThinner] + n[StreamRicher] + n[ParityClose]
                               + n[BothMissing] + n[SyncMissing]
  {
    assert Counts(byLane[l], l, fs);
    ClassesAddUp(Some(l), fs, |fs|);
  }

  // The summary leaves out one class; with that class of the lanes it is complete.
  lemma {:induction false} SummaryConserves(summary: Summary, byLane: map<string, Lane>, fs: seq<Finding>,
                                            order: seq<string>)
    requires Summarises(summary, Sort(FindingLess, fs)) && LanesCount(byLane, fs)
    requires Different(order) && forall l :: l in order <==> l in byLane
    ensures summary.turnCount == TurnsOver(byLane, order, |order|)
    ensures forall l :: l in order ==> SyncMissing in byLane[l].counts
    ensures summary.turnCount
            == summary.streamMissing + summary.streamThinner + summary.parityClose + summary.streamRicher
               + summary.bothMissing + ClassOver(byLane, order, |order|, SyncMissing)
  {
    LanesConserve(byLane, fs, order, SyncMissing);
    ClassesAddUp(None, fs, |fs|);
    AllCounted(fs, |fs|);
    SortingKeepsTallies(fs, None, Some(StreamMissing));
    SortingKeepsTallies(fs, None, Some(StreamThinner));
    SortingKeepsTallies(fs, None, Some(ParityClose));
    SortingKeepsTallies(fs, None, Some(StreamRicher));
    SortingKeepsTallies(fs, None, Some(BothMissing));
  }
}
