/**
 Sorting as `list.sort` and `sorted` do it: the result is in order, holds the same elements,
 and keeps elements that the order does not tell apart as they were.
 */
module StableSort {

  // `less` is a strict order in which "neither is less" is transitive.
  ghost predicate StrictWeak<T(!new)>(less: (T, T) -> bool) {
    && (forall x, y :: less(x, y) ==> !less(y, x))
    && (forall x, y, z :: !less(x, y) && !less(y, z) ==> !less(x, z))
  }

  // Nothing is less than what stands before it.
  ghost predicate Ordered<T>(less: (T, T) -> bool, s: seq<T>) {
    forall i, j :: 0 <= i < j < |s| ==> !less(s[j], s[i])
  }

  // Where x goes among the first n elements: behind the last one it is not less than.
  function Position<T>(less: (T, T) -> bool, s: seq<T>, n: nat, x: T): nat
    requires n <= |s|
  {
    if n > 0 && less(x, s[n - 1]) then Position(less, s, n - 1, x) else n
  }

  lemma {:induction false} PositionSplits<T>(less: (T, T) -> bool, s: seq<T>, n: nat, x: T)
    requires n <= |s|
    ensures Position(less, s, n, x) <= n
    ensures forall k :: Position(less, s, n, x) <= k < n ==> less(x, s[k])
    ensures Position(less, s, n, x) > 0 ==> !less(x, s[Position(less, s, n, x) - 1])
  {
    if n > 0 && less(x, s[n - 1]) {
      PositionSplits(less, s, n - 1, x);
    }
  }

  function Inserted<T>(s: seq<T>, k: nat, x: T): seq<T>
    requires k <= |s|
  {
    s[..k] + [x] + s[k..]
  }

  // The first n elements, sorted.
  function SortTo<T>(less: (T, T) -> bool, s: seq<T>, n: nat): seq<T>
    requires n <= |s|
  {
    if n == 0 then []
    else
      var t := SortTo(less, s, n - 1);
      PositionSplits(less, t, |t|, s[n - 1]);
      Inserted(t, Position(less, t, |t|, s[n - 1]), s[n - 1])
  }

  function Sort<T>(less: (T, T) -> bool, s: seq<T>): seq<T> {
    SortTo(less, s, |s|)
  }

  // ---------------------------------------------------------------- in order

  lemma {:induction false} InsertKeepsOrder<T(!new)>(less: (T, T) -> bool, s: seq<T>, k: nat, x: T)
    requires StrictWeak(less) && Ordered(less, s) && k <= |s|
    requires k > 0 ==> !less(x, s[k - 1])
    requires forall i :: k <= i < |s| ==> less(x, s[i])
    ensures Ordered(less, Inserted(s, k, x))
  {
    var t := Inserted(s, k, x);
    forall i, j | 0 <= i < j < |t| ensures !less(t[j], t[i]) {
      var a, b := if i < k then i else i - 1, if j < k then j else j - 1;
      if j == k {
        assert i == k - 1 || !less(s[k - 1], s[i]);
      } else if i == k {
        assert less(x, s[b]);
      } else {
        assert t[i] == s[a] && t[j] == s[b];
      }
    }
  }

  lemma {:induction false} SortToOrders<T(!new)>(less: (T, T) -> bool, s: seq<T>, n: nat)
    requires StrictWeak(less) && n <= |s|
    ensures Ordered(less, SortTo(less, s, n))
  {
    if n > 0 {
      SortToOrders(less, s, n - 1);
      var t := SortTo(less, s, n - 1);
      PositionSplits(less, t, |t|, s[n - 1]);
      InsertKeepsOrder(less, t, Position(less, t, |t|, s[n - 1]), s[n - 1]);
    }
  }

  // ---------------------------------------------------------------- same elements

  lemma {:induction false} InsertedElements<T>(s: seq<T>, k: nat, x: T)
    requires k <= |s|
    ensures multiset(Inserted(s, k, x)) == multiset(s) + multiset{x}
  {
    assert s == s[..k] + s[k..];
  }

  lemma {:induction false} SortToPermutes<T>(less: (T, T) -> bool, s: seq<T>, n: nat)
    requires n <= |s|
    ensures multiset(SortTo(less, s, n)) == multiset(s[..n]) && |SortTo(less, s, n)| == n
  {
    if n > 0 {
      SortToPermutes(less, s, n - 1);
      var t := SortTo(less, s, n - 1);
      PositionSplits(less, t, |t|, s[n - 1]);
      InsertedElements(t, Position(less, t, |t|, s[n - 1]), s[n - 1]);
      assert s[..n] == s[..n - 1] + [s[n - 1]];
    }
  }

  // How many of the first n elements satisfy p.
  function Count<T>(p: T -> bool, s: seq<T>, n: nat): nat
    requires n <= |s|
  {
    if n == 0 then 0 else Count(p, s, n - 1) + (if p(s[n - 1]) then 1 else 0)
  }

  lemma {:induction false} CountConcat<T>(p: T -> bool, a: seq<T>, b: seq<T>, n: nat)
    requires n <= |b|
    ensures Count(p, a + b, |a| + n) == Count(p, a, |a|) + Count(p, b, n)
  {
    if n > 0 {
      CountConcat(p, a, b, n - 1);
      assert (a + b)[|a| + n - 1] == b[n - 1];
    } else {
      CountPrefix(p, a, a + b, |a|);
    }
  }

  lemma {:induction false} CountPrefix<T>(p: T -> bool, a: seq<T>, c: seq<T>, n: nat)
    requires n <= |a| <= |c| && a == c[..|a|]
    ensures Count(p, c, n) == Count(p, a, n)
  {
    if n > 0 {
      CountPrefix(p, a, c, n - 1);
      assert c[n - 1] == c[..|a|][n - 1];
    }
  }

  lemma {:induction false} CountJoin<T>(p: T -> bool, c: seq<T>, a: seq<T>, b: seq<T>)
    requires c == a + b
    ensures Count(p, c, |c|) == Count(p, a, |a|) + Count(p, b, |b|)
  {
    CountConcat(p, a, b, |b|);
  }

  lemma {:induction false} CountInserted<T>(p: T -> bool, s: seq<T>, k: nat, x: T)
    requires k <= |s|
    ensures Count(p, Inserted(s, k, x), |s| + 1) == Count(p, s, |s|) + (if p(x) then 1 else 0)
  {
    var before, one, after := s[..k], [x], s[k..];
    var left := before + one;
    CountJoin(p, Inserted(s, k, x), left, after);
    CountJoin(p, left, before, one);
    CountJoin(p, s, before, after);
    assert Count(p, one, 1) == Count(p, one, 0) + (if p(one[0]) then 1 else 0);
  }

  // Sorting changes no count.
  lemma {:induction false} SortToKeepsCount<T>(p: T -> bool, less: (T, T) -> bool, s: seq<T>, n: nat)
    requires n <= |s|
    ensures |SortTo(less, s, n)| == n && Count(p, SortTo(less, s, n), n) == Count(p, s, n)
  {
    if n > 0 {
      SortToKeepsCount(p, less, s, n - 1);
      var t := SortTo(less, s, n - 1);
      PositionSplits(less, t, |t|, s[n - 1]);
      CountInserted(p, t, Position(less, t, |t|, s[n - 1]), s[n - 1]);
    }
  }

  // ---------------------------------------------------------------- stability

  // The elements among the first n that satisfy p, in order.
  function Filter<T>(p: T -> bool, s: seq<T>, n: nat): seq<T>
    requires n <= |s|
  {
    if n == 0 then [] else if p(s[n - 1]) then Filter(p, s, n - 1) + [s[n - 1]] else Filter(p, s, n - 1)
  }

  lemma {:induction false} FilterPrefix<T>(p: T -> bool, a: seq<T>, c: seq<T>, n: nat)
    requires n <= |a| <= |c| && a == c[..|a|]
    ensures Filter(p, c, n) == Filter(p, a, n)
  {
    if n > 0 {
      FilterPrefix(p, a, c, n - 1);
      assert c[n - 1] == c[..|a|][n - 1];
    }
  }

  lemma {:induction false} FilterConcat<T>(p: T -> bool, a: seq<T>, b: seq<T>, n: nat)
    requires n <= |b|
    ensures Filter(p, a + b, |a| + n) == Filter(p, a, |a|) + Filter(p, b, n)
  {
    if n == 0 {
      FilterPrefix(p, a, a + b, |a|);
    } else {
      FilterConcat(p, a, b, n - 1);
      assert (a + b)[|a| + n - 1] == b[n - 1];
    }
  }

  lemma {:induction false} FilterNone<T>(p: T -> bool, s: seq<T>, n: nat)
    requires n <= |s| && forall i :: 0 <= i < n ==> !p(s[i])
    ensures Filter(p, s, n) == []
  {
    if n > 0 {
      FilterNone(p, s, n - 1);
    }
  }

  lemma {:induction false} FilterJoin<T>(p: T -> bool, c: seq<T>, a: seq<T>, b: seq<T>)
    requires c == a + b
    ensures Filter(p, c, |c|) == Filter(p, a, |a|) + Filter(p, b, |b|)
  {
    FilterConcat(p, a, b, |b|);
  }

  // Inserting behind all elements that satisfy p appends to what p selects.
  lemma {:induction false} FilterInserted<T>(p: T -> bool, s: seq<T>, k: nat, x: T)
    requires k <= |s| && (p(x) ==> forall i :: k <= i < |s| ==> !p(s[i]))
    ensures Filter(p, Inserted(s, k, x), |s| + 1) == Filter(p, s, |s|) + (if p(x) then [x] else [])
  {
    var before, one, after := s[..k], [x], s[k..];
    var left := before + one;
    FilterJoin(p, Inserted(s, k, x), left, after);
    FilterJoin(p, left, before, one);
    FilterJoin(p, s, before, after);
    assert Filter(p, one, 1) == if p(one[0]) then Filter(p, one, 0) + [one[0]] else Filter(p, one, 0);
    if p(x) {
      FilterNone(p, after, |after|);
    }
  }

  // Elements that the order does not tell apart stay in the order they came in.
  lemma {:induction false} SortToIsStable<T(!new)>(p: T -> bool, less: (T, T) -> bool, s: seq<T>, n: nat)
    requires n <= |s| && forall x, y :: p(x) && p(y) ==> !less(x, y)
    ensures |SortTo(less, s, n)| == n && Filter(p, SortTo(less, s, n), n) == Filter(p, s, n)
  {
    if n > 0 {
      SortToIsStable(p, less, s, n - 1);
      var t, x := SortTo(less, s, n - 1), s[n - 1];
      PositionSplits(less, t, |t|, x);
      FilterInserted(p, t, Position(less, t, |t|, x), x);
    }
  }

  lemma {:induction false} CameIn<T>(less: (T, T) -> bool, s: seq<T>, n: nat, a: nat) returns (i: nat)
    requires n <= |s| && a < |SortTo(less, s, n)|
    ensures i < n && s[i] == SortTo(less, s, n)[a]
  {
    SortToPermutes(less, s, n);
    assert SortTo(less, s, n)[a] in multiset(s[..n]);
    i :| 0 <= i < n && s[i] == SortTo(less, s, n)[a];
  }

  // Of two elements the order does not tell apart, the one that comes out first came in first.
  lemma {:induction false} TiesKeepOrder<T(!new)>(less: (T, T) -> bool, s: seq<T>, n: nat, a: nat,
                                           b: nat) returns (i: nat, j: nat)
    requires n <= |s| && a < b < |SortTo(less, s, n)|
    requires !less(SortTo(less, s, n)[b], SortTo(less, s, n)[a])
    requires !less(SortTo(less, s, n)[a], SortTo(less, s, n)[b])
    ensures i < j < n && s[i] == SortTo(less, s, n)[a] && s[j] == SortTo(less, s, n)[b]
  {
    var t, x := SortTo(less, s, n - 1), s[n - 1];
    PositionSplits(less, t, |t|, x);
    var k := Position(less, t, |t|, x);
    if b < k {
      i, j := TiesKeepOrder(less, s, n - 1, a, b);
    } else if b == k {
      i := CameIn(less, s, n - 1, a);
      j := n - 1;
    } else {
      assert less(x, t[b - 1]);
      i, j := TiesKeepOrder(less, s, n - 1, if a < k then a else a - 1, b - 1);
    }
  }
}
