/**
 Ingesting a document in batches: the pages that are not processed yet are cut into groups,
 each group is sent as one range of pages, and each range is tried until it succeeds or
 the retries are used up.
 */
module PageBatches {
  const MAX_RETRIES: nat := 2

  // ---------------------------------------------------------------- the pages

  // `sorted(all_pages - processed)`, up to page n
  function Unprocessed(processed: set<int>, n: nat): seq<int> {
    if n == 0 then []
    else if n in processed then Unprocessed(processed, n - 1)
    else Unprocessed(processed, n - 1) + [n]
  }

  ghost predicate Increasing(ps: seq<int>) {
    forall i, j :: 0 <= i < j < |ps| ==> ps[i] < ps[j]
  }

  lemma {:induction false} UnprocessedPages(processed: set<int>, n: nat)
    ensures Increasing(Unprocessed(processed, n))
    ensures forall p :: p in Unprocessed(processed, n) <==> 1 <= p <= n && p !in processed
  {
    if n > 0 {
      UnprocessedPages(processed, n - 1);
      var before := Unprocessed(processed, n - 1);
      forall i | 0 <= i < |before| ensures before[i] < n {
        assert before[i] in before;
      }
      assert n !in processed ==> forall p :: p in before + [n] <==> p in before || p == n;
    }
  }

  // ---------------------------------------------------------------- the grouping

  datatype Range = Range(first: int, last: int)

  function Min(ps: seq<int>): int
    requires ps != []
  {
    if |ps| == 1 then ps[0] else
      var m := Min(ps[..|ps| - 1]);
      if ps[|ps| - 1] < m then ps[|ps| - 1] else m
  }

  function Max(ps: seq<int>): int
    requires ps != []
  {
    if |ps| == 1 then ps[0] else
      var m := Max(ps[..|ps| - 1]);
      if ps[|ps| - 1] > m then ps[|ps| - 1] else m
  }

  lemma {:induction false} EndsOfIncreasing(ps: seq<int>)
    requires ps != [] && Increasing(ps)
    ensures Min(ps) == ps[0] && Max(ps) == ps[|ps| - 1]
  {
    if |ps| > 1 {
      EndsOfIncreasing(ps[..|ps| - 1]);
    }
  }

  // Where batch k starts, and where it ends, among n pages.
  function Start(k: nat, b: nat): nat {
    k * b
  }

  function End(k: nat, b: nat, n: nat): nat {
    if Start(k + 1, b) < n then Start(k + 1, b) else n
  }

  // The first m batches are the ranges from the first to the last page of each group of b.
  ghost predicate Grouped(batches: seq<Range>, ps: seq<int>, b: nat, m: nat) {
    && |batches| == m
    && forall k :: 0 <= k < m ==> GroupAt(batches[k], ps, b, k)
  }

  ghost predicate GroupAt(r: Range, ps: seq<int>, b: nat, k: nat) {
    && Start(k, b) < End(k, b, |ps|)
    && r == Range(ps[Start(k, b)], ps[End(k, b, |ps|) - 1])
  }

  // The batches are all: as many as needed, and the last one may be short.
  ghost predicate GroupedAll(batches: seq<Range>, ps: seq<int>, b: nat) {
    Grouped(batches, ps, b, |batches|) && Start(|batches|, b) >= |ps|
  }

  lemma {:induction false} NextStart(k: nat, b: nat)
    ensures Start(k + 1, b) == Start(k, b) + b && Start(0, b) == 0
  {
  }

  // The grouping loop of `main`
  method GroupPages(ps: seq<int>, batchSize: nat) returns (batches: seq<Range>)
    requires Increasing(ps) && batchSize >= 1
    ensures GroupedAll(batches, ps, batchSize)
  {
    batches := [];
    var i := 0;
    NextStart(0, batchSize);
    while i < |ps|
      invariant i == Start(|batches|, batchSize)
      invariant Grouped(batches, ps, batchSize, |batches|)
      decreases |ps| - i
    {
      var batchPages := ps[i..if i + batchSize < |ps| then i + batchSize else |ps|];
      NextStart(|batches|, batchSize);
      EndsOfIncreasing(batchPages);
      batches := batches + [Range(Min(batchPages), Max(batchPages))];
      i := i + batchSize;
    }
  }

  // The loop counter after a number of rounds
  function CounterAfter(rounds: nat, batchSize: int): int {
    if rounds == 0 then 0 else CounterAfter(rounds - 1, batchSize) + batchSize
  }

  lemma {:induction false} CounterFalls(rounds: nat, batchSize: int)
    requires batchSize <= 0
    ensures CounterAfter(rounds, batchSize) <= 0
  {
    if rounds > 0 {
      CounterFalls(rounds - 1, batchSize);
    }
  }

  lemma {:induction false} CounterRises(rounds: nat, batchSize: int)
    requires batchSize > 0
    ensures CounterAfter(rounds, batchSize) >= rounds
  {
    if rounds > 0 {
      CounterRises(rounds - 1, batchSize);
    }
  }

  // The counter stays below the pages' end for ever exactly when there are pages and the
  // batch size is not positive.
  lemma {:induction false} NeverEndsIff(ps: seq<int>, batchSize: int)
    ensures (forall rounds: nat :: CounterAfter(rounds, batchSize) < |ps|) <==> ps != [] && batchSize <= 0
  {
    if batchSize <= 0 {
      forall rounds: nat ensures CounterAfter(rounds, batchSize) <= 0 {
        CounterFalls(rounds, batchSize);
      }
      assert CounterAfter(0, batchSize) == 0;
    } else {
      CounterRises(|ps|, batchSize);
      assert CounterAfter(|ps|, batchSize) >= |ps|;
    }
  }

  // ---------------------------------------------------------------- what the ranges cover

  predicate Covers(r: Range, p: int) {
    r.first <= p <= r.last
  }

  lemma {:induction false} StartMonotone(i: nat, j: nat, b: nat)
    requires i <= j
    ensures Start(i, b) <= Start(j, b)
  {
    assert (j - i) * b >= 0;
  }

  // As many batches as n / b, rounded up.
  lemma {:induction false} BatchCount(batches: seq<Range>, ps: seq<int>, b: nat)
    requires b >= 1 && GroupedAll(batches, ps, b)
    ensures |batches| == (|ps| + b - 1) / b
  {
    var m := |batches|;
    if m > 0 {
      assert GroupAt(batches[m - 1], ps, b, m - 1);
      NextStart(m - 1, b);
      assert (m - 1) * b < |ps| <= m * b;
      DivideUp(|ps|, b, m);
    } else {
      DivideUp(0, b, 0);
    }
  }

  lemma {:induction false} MultipleGap(i: int, j: int, b: nat)
    requires i < j
    ensures i * b + b <= j * b
  {
    assert (j - i - 1) * b >= 0;
  }

  lemma {:induction false} DivideUp(n: nat, b: nat, m: nat)
    requires b >= 1 && n <= m * b && (m > 0 ==> (m - 1) * b < n) && (m == 0 ==> n == 0)
    ensures (n + b - 1) / b == m
  {
    var x := n + b - 1;
    var q := x / b;
    assert q * b <= x < q * b + b;
    if m > 0 {
      MultipleGap(m - 1, m, b);
      assert (m - 1) * b == m * b - b;
    }
    assert m * b <= x < m * b + b;
    if q < m {
      MultipleGap(q, m, b);
    } else if m < q {
      MultipleGap(m, q, b);
    }
  }

  // The batch that page i of the list goes to.
  lemma {:induction false} BatchOf(batches: seq<Range>, ps: seq<int>, b: nat, i: nat)
    requires b >= 1 && GroupedAll(batches, ps, b) && i < |ps|
    ensures i / b < |batches| && Start(i / b, b) <= i < End(i / b, b, |ps|)
  {
    var k := i / b;
    assert k * b <= i < k * b + b;
    NextStart(k, b);
    if k >= |batches| {
      StartMonotone(|batches|, k, b);
    }
  }

  // Every unprocessed page is in the range of its batch.
  lemma {:induction false} EveryPageCovered(batches: seq<Range>, ps: seq<int>, b: nat, i: nat)
    requires b >= 1 && GroupedAll(batches, ps, b) && Increasing(ps) && i < |ps|
    ensures i / b < |batches| && Covers(batches[i / b], ps[i])
  {
    BatchOf(batches, ps, b, i);
    assert GroupAt(batches[i / b], ps, b, i / b);
  }

  // The ranges are disjoint and increasing, so no page is sent in two batches.
  lemma {:induction false} RangesIncrease(batches: seq<Range>, ps: seq<int>, b: nat, k: nat, l: nat)
    requires b >= 1 && GroupedAll(batches, ps, b) && Increasing(ps) && k < l < |batches|
    ensures batches[k].first <= batches[k].last < batches[l].first
  {
    assert GroupAt(batches[k], ps, b, k) && GroupAt(batches[l], ps, b, l);
    StartMonotone(k + 1, l, b);
  }

  // No gap between neighbouring pages of one batch.
  ghost predicate Contiguous(ps: seq<int>, b: nat)
    requires b >= 1
  {
    forall i :: 0 <= i < |ps| - 1 ==> NoGapAfter(ps, b, i)
  }

  predicate NoGapAfter(ps: seq<int>, b: nat, i: nat)
    requires b >= 1 && i < |ps| - 1
  {
    i / b == (i + 1) / b ==> ps[i + 1] == ps[i] + 1
  }

  // The ranges send exactly the unprocessed pages.
  ghost predicate SendsExactly(batches: seq<Range>, ps: seq<int>) {
    forall p, k :: 0 <= k < |batches| && Covers(batches[k], p) ==> p in ps
  }

  lemma {:induction false} SameBatch(k: nat, b: nat, i: nat, n: nat)
    requires b >= 1 && Start(k, b) <= i < End(k, b, n)
    ensures i / b == k
  {
    NextStart(k, b);
    var q := i / b;
    assert q * b <= i < q * b + b;
    if q < k {
      MultipleGap(q, k, b);
    } else if k < q {
      MultipleGap(k, q, b);
    }
  }

  // Within a batch without gaps the pages count up.
  lemma {:induction false} CountsUp(ps: seq<int>, b: nat, k: nat, i: nat)
    requires b >= 1 && Contiguous(ps, b) && Start(k, b) <= i < End(k, b, |ps|)
    ensures ps[i] == ps[Start(k, b)] + (i - Start(k, b))
    decreases i
  {
    if Start(k, b) < i {
      CountsUp(ps, b, k, i - 1);
      SameBatch(k, b, i - 1, |ps|);
      SameBatch(k, b, i, |ps|);
      assert NoGapAfter(ps, b, i - 1);
    }
  }

  lemma {:induction false} PageOfContiguousBatch(batches: seq<Range>, ps: seq<int>, b: nat, k: nat, p: int)
    requires b >= 1 && GroupedAll(batches, ps, b) && Contiguous(ps, b) && k < |batches| && Covers(batches[k], p)
    ensures p in ps
  {
    assert GroupAt(batches[k], ps, b, k);
    CountsUp(ps, b, k, End(k, b, |ps|) - 1);
    var i := Start(k, b) + (p - batches[k].first);
    CountsUp(ps, b, k, i);
    assert ps[i] == p;
  }

  lemma {:induction false} GapIsSent(batches: seq<Range>, ps: seq<int>, b: nat, i: nat)
    requires b >= 1 && GroupedAll(batches, ps, b) && Increasing(ps)
    requires i < |ps| - 1 && !NoGapAfter(ps, b, i)
    ensures i / b < |batches| && Covers(batches[i / b], ps[i] + 1) && ps[i] + 1 !in ps
  {
    EveryPageCovered(batches, ps, b, i);
    EveryPageCovered(batches, ps, b, i + 1);
    forall j | 0 <= j < |ps| ensures ps[j] != ps[i] + 1 {
      if j < i {
        assert ps[j] < ps[i];
      } else if j > i + 1 {
        assert ps[j] > ps[i + 1];
      }
    }
  }

  // Exactly the unprocessed pages are sent if and only if no batch has a gap inside; gaps
  // between two batches do no harm.
  lemma {:induction false} SendsExactlyIff(batches: seq<Range>, ps: seq<int>, b: nat)
    requires b >= 1 && GroupedAll(batches, ps, b) && Increasing(ps)
    ensures SendsExactly(batches, ps) <==> Contiguous(ps, b)
  {
    if Contiguous(ps, b) {
      forall p, k | 0 <= k < |batches| && Covers(batches[k], p) ensures p in ps {
        PageOfContiguousBatch(batches, ps, b, k, p);
      }
    } else {
      var i :| 0 <= i < |ps| - 1 && !NoGapAfter(ps, b, i);
      GapIsSent(batches, ps, b, i);
    }
  }

  // A batch of two pages with one between them that was processed before: it is sent again.
  lemma {:induction false} ProcessedPageSentAgain(batches: seq<Range>, page: int)
    requires GroupedAll(batches, [page - 1, page + 1], 2)
    ensures batches == [Range(page - 1, page + 1)] && Covers(batches[0], page)
    ensures !SendsExactly(batches, [page - 1, page + 1])
  {
    var ps := [page - 1, page + 1];
    BatchCount(batches, ps, 2);
    assert GroupAt(batches[0], ps, 2, 0);
    assert Covers(batches[0], page) && page !in ps;
  }

  // ---------------------------------------------------------------- the retries

  // What one request gives: no result, an empty one, or counts.
  datatype Reply = NoResult | EmptyResult | Counts(pages: int, vision: int, direct: int)

  // The answer to try r of batch k.
  type Server = (nat, nat) -> Reply

  datatype Totals = Totals(pages: int, vision: int, direct: int)

  function Add(t: Totals, r: Reply): Totals {
    if r.Counts? then Totals(t.pages + r.pages, t.vision + r.vision, t.direct + r.direct) else t
  }

  // How often batch k is tried: up to its first success, at most MAX_RETRIES times.
  ghost predicate TriedTo(server: Server, k: nat, tries: nat, success: bool) {
    && 1 <= tries <= MAX_RETRIES
    && (forall r: nat :: r < tries - 1 ==> !server(k, r).Counts?)
    && success == server(k, tries - 1).Counts?
    && (!success ==> tries == MAX_RETRIES)
  }

  // Whether all tries of batch k fail.
  ghost predicate AllFail(server: Server, k: nat) {
    forall r: nat :: r < MAX_RETRIES ==> !server(k, r).Counts?
  }

  // The batches among the first m that fail, in order.
  ghost function Failing(batches: seq<Range>, server: Server, m: nat): seq<Range>
    requires m <= |batches|
  {
    if m == 0 then []
    else if AllFail(server, m - 1) then Failing(batches, server, m - 1) + [batches[m - 1]]
    else Failing(batches, server, m - 1)
  }

  // The first try that succeeds, if one does.
  function FirstSuccess(server: Server, k: nat, r: nat): Reply
    requires r <= MAX_RETRIES
    decreases MAX_RETRIES - r
  {
    if r == MAX_RETRIES then NoResult
    else if server(k, r).Counts? then server(k, r)
    else FirstSuccess(server, k, r + 1)
  }

  function TotalsOf(server: Server, m: nat): Totals {
    if m == 0 then Totals(0, 0, 0) else Add(TotalsOf(server, m - 1), FirstSuccess(server, m - 1, 0))
  }

  // The retry loop
  method TryBatch(server: Server, k: nat, totals: Totals) returns (success: bool, tries: nat, sum: Totals)
    ensures TriedTo(server, k, tries, success) && success == !AllFail(server, k)
    ensures sum == Add(totals, FirstSuccess(server, k, 0))
  {
    success, tries, sum := false, 0, totals;
    while !success && tries < MAX_RETRIES
      invariant tries <= MAX_RETRIES && (success ==> tries > 0)
      invariant forall r: nat :: r < (if success then tries - 1 else tries) ==> !server(k, r).Counts?
      invariant success ==> server(k, tries - 1).Counts? && sum == Add(totals, server(k, tries - 1))
      invariant !success ==> sum == totals && FirstSuccess(server, k, 0) == FirstSuccess(server, k, tries)
      invariant success ==> FirstSuccess(server, k, 0) == server(k, tries - 1)
    {
      var reply := server(k, tries);
      if reply.Counts? {
        sum := Add(totals, reply);
        success := true;
      }
      tries := tries + 1;
    }
  }

  // The loop over the batches in `main`
  method IngestBatches(batches: seq<Range>, server: Server)
    returns (failed: seq<Range>, totals: Totals, tries: seq<nat>)
    ensures failed == Failing(batches, server, |batches|)
    ensures totals == TotalsOf(server, |batches|)
    ensures |tries| == |batches|
    ensures forall k :: 0 <= k < |batches| ==> TriedTo(server, k, tries[k], !AllFail(server, k))
  {
    failed, totals, tries := [], Totals(0, 0, 0), [];
    for k := 0 to |batches|
      invariant failed == Failing(batches, server, k) && totals == TotalsOf(server, k)
      invariant |tries| == k && forall l :: 0 <= l < k ==> TriedTo(server, l, tries[l], !AllFail(server, l))
    {
      var success, n;
      success, n, totals := TryBatch(server, k, totals);
      tries := tries + [n];
      if !success {
        failed := failed + [batches[k]];
      }
    }
  }

  // A batch is reported as failed exactly when all its tries fail.
  lemma {:induction false} FailedIff(batches: seq<Range>, server: Server, m: nat, k: nat)
    requires k < m <= |batches| && forall i, j :: 0 <= i < j < |batches| ==> batches[i] != batches[j]
    ensures batches[k] in Failing(batches, server, m) <==> AllFail(server, k)
  {
    FailingAreEarlier(batches, server, m - 1);
    if k < m - 1 {
      FailedIff(batches, server, m - 1, k);
    }
  }

  lemma {:induction false} FailingAreEarlier(batches: seq<Range>, server: Server, m: nat)
    requires m <= |batches|
    ensures forall r :: r in Failing(batches, server, m) ==> exists k :: 0 <= k < m && batches[k] == r
  {
    if m > 0 {
      FailingAreEarlier(batches, server, m - 1);
    }
  }
}
