/**
 The percentile of the embedding benchmark and the median and 95th percentile of the
 evaluation reports, as places in the sorted list of the samples.
 */
module OrderStatistics {
  import opened StableSort

  predicate Less(x: real, y: real) {
    x < y
  }

  function Sorted(xs: seq<real>): seq<real> {
    Sort(Less, xs)
  }

  lemma {:induction false} SortedIsInOrder(xs: seq<real>)
    ensures |Sorted(xs)| == |xs| && forall i, j :: 0 <= i < j < |xs| ==> Sorted(xs)[i] <= Sorted(xs)[j]
    ensures multiset(Sorted(xs)) == multiset(xs)
  {
    SortToOrders(Less, xs, |xs|);
    SortToPermutes(Less, xs, |xs|);
    assert xs[..|xs|] == xs;
    forall i, j | 0 <= i < j < |xs| ensures Sorted(xs)[i] <= Sorted(xs)[j] {
      assert !Less(Sorted(xs)[j], Sorted(xs)[i]);
    }
  }

  // ---------------------------------------------------------------- counting around a value

  function AtMost(v: real): real -> bool {
    x => x <= v
  }

  function Below(v: real): real -> bool {
    x => x < v
  }

  function HowMany(p: real -> bool, xs: seq<real>): nat {
    Count(p, xs, |xs|)
  }

  lemma {:induction false} CountAtLeast(p: real -> bool, s: seq<real>, k: nat, n: nat)
    requires k <= n <= |s| && forall i :: 0 <= i < k ==> p(s[i])
    ensures k <= Count(p, s, n)
  {
    if n > 0 {
      CountAtLeast(p, s, if k < n then k else k - 1, n - 1);
    }
  }

  lemma {:induction false} CountAtMost(p: real -> bool, s: seq<real>, k: nat, n: nat)
    requires k <= n <= |s| && forall i :: k <= i < n ==> !p(s[i])
    ensures Count(p, s, n) <= k
  {
    if n > 0 {
      CountAtMost(p, s, if k < n then k else k - 1, n - 1);
    }
  }

  // The value at place k: at least k + 1 samples are no greater, at most k are less.
  lemma {:induction false} PlaceInSorted(xs: seq<real>, k: nat)
    requires k < |xs|
    ensures |Sorted(xs)| == |xs|
    ensures HowMany(AtMost(Sorted(xs)[k]), xs) >= k + 1 && HowMany(Below(Sorted(xs)[k]), xs) <= k
    ensures Sorted(xs)[k] in xs
  {
    SortedIsInOrder(xs);
    var t := Sorted(xs);
    CountAtLeast(AtMost(t[k]), t, k + 1, |t|);
    CountAtMost(Below(t[k]), t, k, |t|);
    SortToKeepsCount(AtMost(t[k]), Less, xs, |xs|);
    SortToKeepsCount(Below(t[k]), Less, xs, |xs|);
    assert t[k] in multiset(t);
  }

  // ---------------------------------------------------------------- percentile

  // `math.ceil`
  function Ceil(x: real): int {
    if x.Floor as real == x then x.Floor else x.Floor + 1
  }

  // `(pct / 100) * n`
  function Share(pct: real, n: nat): real {
    pct / 100.0 * n as real
  }

  // `max(0, min(n - 1, math.ceil((pct / 100) * n) - 1))`
  function PercentileIndex(n: nat, pct: real): int {
    var rank := Ceil(Share(pct, n)) - 1;
    var capped := if rank < n - 1 then rank else n - 1;
    if capped > 0 then capped else 0
  }

  // `percentile`
  function Percentile(xs: seq<real>, pct: real): real {
    if xs == [] then 0.0
    else
      SortedIsInOrder(xs);
      Sorted(xs)[PercentileIndex(|xs|, pct)]
  }

  lemma {:induction false} CeilBounds(x: real, n: int)
    ensures x <= Ceil(x) as real < x + 1.0
    ensures Ceil(x) <= n <==> x <= n as real
  {
  }

  lemma {:induction false} ProductSign(a: real, w: real)
    requires w > 0.0
    ensures a > 0.0 ==> a * w > 0.0
    ensures a <= 0.0 ==> a * w <= 0.0
  {
    if a <= 0.0 {
      assert -a * w >= 0.0;
    }
  }

  lemma {:induction false} ProductAgainstOne(a: real, w: real, product: real)
    requires w > 0.0 && product == a * w
    ensures a > 0.0 <==> product > 0.0
    ensures a <= 1.0 <==> product <= w
    ensures a >= 1.0 <==> product >= w
  {
    ProductSign(a, w);
    ProductSign(a - 1.0, w);
    ProductSign(1.0 - a, w);
    assert (a - 1.0) * w == a * w - w && (1.0 - a) * w == w - a * w;
  }

  lemma {:induction false} ShareInRange(pct: real, n: nat)
    requires n > 0
    ensures pct > 0.0 <==> Share(pct, n) > 0.0
    ensures pct <= 100.0 <==> Share(pct, n) <= n as real
    ensures pct >= 100.0 <==> Share(pct, n) >= n as real
  {
    ProductAgainstOne(pct / 100.0, n as real, Share(pct, n));
  }

  // Where the percentile stands: in range for every pct.
  lemma {:induction false} PercentilePlace(n: nat, pct: real)
    requires n > 0
    ensures 0 <= PercentileIndex(n, pct) < n
    ensures 0.0 < pct <= 100.0 ==> PercentileIndex(n, pct) == Ceil(Share(pct, n)) - 1
    ensures pct <= 0.0 ==> PercentileIndex(n, pct) == 0
    ensures pct >= 100.0 ==> PercentileIndex(n, pct) == n - 1
  {
    ShareInRange(pct, n);
    CeilBounds(Share(pct, n), 0);
    CeilBounds(Share(pct, n), n);
    CeilBounds(Share(pct, n), n - 1);
  }

  // At least pct per cent of the samples are no greater than the percentile, fewer are less.
  lemma {:induction false} PercentileSplits(xs: seq<real>, pct: real)
    requires xs != [] && 0.0 < pct <= 100.0
    ensures Percentile(xs, pct) in xs
    ensures HowMany(AtMost(Percentile(xs, pct)), xs) as real >= Share(pct, |xs|)
    ensures HowMany(Below(Percentile(xs, pct)), xs) as real < Share(pct, |xs|)
  {
    PercentilePlace(|xs|, pct);
    var k := PercentileIndex(|xs|, pct);
    PlaceInSorted(xs, k);
    CeilBounds(Share(pct, |xs|), k);
  }

  // Outside that range the least and the greatest sample are given.
  lemma {:induction false} PercentileOutside(xs: seq<real>, pct: real)
    requires xs != [] && (pct <= 0.0 || pct >= 100.0)
    ensures |Sorted(xs)| == |xs|
    ensures Percentile(xs, pct) == Sorted(xs)[if pct <= 0.0 then 0 else |xs| - 1]
  {
    SortedIsInOrder(xs);
    PercentilePlace(|xs|, pct);
  }

  // ---------------------------------------------------------------- median and p95

  // `round(a / b)`: to the nearest integer, and to the even one of two.
  function RoundHalfEven(a: nat, b: nat): nat
    requires b > 0
  {
    var q, r := a / b, a % b;
    if 2 * r < b then q else if 2 * r > b then q + 1 else if q % 2 == 0 then q else q + 1
  }

  // `max(0, int(round(0.95 * (n - 1))))`, with 0.95 exact.
  function P95Index(n: nat): nat
    requires n > 0
  {
    RoundHalfEven(19 * (n - 1), 20)
  }

  lemma {:induction false} P95IndexInRange(n: nat)
    requires n > 0
    ensures n / 2 <= P95Index(n) <= n - 1
    ensures 20 * (n - 1 - P95Index(n)) <= n - 1 + 10
  {
    var a := 19 * (n - 1);
    assert a == 20 * (a / 20) + a % 20;
    assert 20 * P95Index(n) <= a + 10 && 20 * P95Index(n) >= a - 10;
  }

  // `statistics.median`
  function Median(xs: seq<real>): real
    requires xs != []
  {
    SortedIsInOrder(xs);
    var t, n := Sorted(xs), |xs|;
    if n % 2 == 1 then t[n / 2] else (t[n / 2 - 1] + t[n / 2]) / 2.0
  }

  function P95(xs: seq<real>): real
    requires xs != []
  {
    SortedIsInOrder(xs);
    P95IndexInRange(|xs|);
    Sorted(xs)[P95Index(|xs|)]
  }

  // The index is always in range, and least <= median <= p95 <= greatest.
  lemma {:induction false} StatsAreOrdered(xs: seq<real>)
    requires xs != []
    ensures P95(xs) in xs
    ensures forall x :: x in xs ==> Sorted(xs)[0] <= x <= Sorted(xs)[|Sorted(xs)| - 1]
    ensures Sorted(xs)[0] <= Median(xs) <= P95(xs) <= Sorted(xs)[|Sorted(xs)| - 1]
  {
    SortedIsInOrder(xs);
    P95IndexInRange(|xs|);
    PlaceInSorted(xs, P95Index(|xs|));
    var t := Sorted(xs);
    forall x | x in xs ensures t[0] <= x <= t[|t| - 1] {
      assert x in multiset(t);
      var k :| 0 <= k < |t| && t[k] == x;
    }
  }

  // As many samples lie below the 95th percentile as its place says, give or take half a place.
  lemma {:induction false} P95Splits(xs: seq<real>)
    requires xs != []
    ensures 20 * (|xs| - HowMany(AtMost(P95(xs)), xs)) <= |xs| - 1 + 10
    ensures 20 * HowMany(Below(P95(xs)), xs) <= 19 * (|xs| - 1) + 10
  {
    SortedIsInOrder(xs);
    P95IndexInRange(|xs|);
    PlaceInSorted(xs, P95Index(|xs|));
    var a := 19 * (|xs| - 1);
    assert a == 20 * (a / 20) + a % 20;
  }
}
