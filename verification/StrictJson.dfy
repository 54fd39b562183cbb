/**
 Strict JSON: an object with a repeated name and a number that is not finite are refused.
 A text is represented by its tree, in which objects still have all their pairs; loading
 goes bottom up, as the decoder calls its hooks.  Section 4 of RFC 8259 says that names
 SHOULD be unique; here they must be.
 */
module StrictJson {
  import opened Wrappers

  // `Constant` is one of `NaN`, `Infinity` and `-Infinity`, `Scalar` any other leaf.
  datatype Json = Scalar(text: string) | Constant(name: string) | Array(items: seq<Json>) | Object(pairs: seq<Pair>)

  datatype Pair = Pair(key: string, value: Json)

  datatype JsonError = DuplicateKeys(keys: seq<string>) | NonFinite(name: string)

  // ---------------------------------------------------------------- one object

  // Where the key is among the first n pairs, or n.
  function IndexOf(pairs: seq<Pair>, n: nat, key: string): nat
    requires n <= |pairs|
  {
    if n == 0 then 0
    else if IndexOf(pairs, n - 1, key) < n - 1 then IndexOf(pairs, n - 1, key)
    else if pairs[n - 1].key == key then n - 1
    else n
  }

  // `result[key] = value` in a dictionary, which keeps its keys in the order of insertion.
  function SetItem(dict: seq<Pair>, p: Pair): seq<Pair> {
    var k := IndexOf(dict, |dict|, p.key);
    if k < |dict| then dict[k := p] else dict + [p]
  }

  // How often the key occurs among the first n pairs.
  function Occurrences(pairs: seq<Pair>, n: nat, key: string): nat
    requires n <= |pairs|
  {
    if n == 0 then 0 else Occurrences(pairs, n - 1, key) + (if pairs[n - 1].key == key then 1 else 0)
  }

  ghost predicate UniqueKeys(pairs: seq<Pair>) {
    forall i, j :: 0 <= i < j < |pairs| ==> pairs[i].key != pairs[j].key
  }

  // The keys of those pairs, among the first n, that occur there for the second time.
  function SecondOccurrences(pairs: seq<Pair>, n: nat): seq<string>
    requires n <= |pairs|
  {
    if n == 0 then []
    else if Occurrences(pairs, n - 1, pairs[n - 1].key) == 1 then SecondOccurrences(pairs, n - 1) + [pairs[n - 1].key]
    else SecondOccurrences(pairs, n - 1)
  }

  lemma {:induction false} IndexIffOccurs(pairs: seq<Pair>, n: nat, key: string)
    requires n <= |pairs|
    ensures IndexOf(pairs, n, key) < n <==> Occurrences(pairs, n, key) > 0
    ensures IndexOf(pairs, n, key) < n ==> pairs[IndexOf(pairs, n, key)].key == key
    ensures forall k :: 0 <= k < n && pairs[k].key == key ==> IndexOf(pairs, n, key) < n
  {
    if n > 0 {
      IndexIffOccurs(pairs, n - 1, key);
    }
  }

  // Exactly the keys that occur at least twice are reported, each once.
  lemma {:induction false} ReportsRepeatedKeys(pairs: seq<Pair>, n: nat, key: string)
    requires n <= |pairs|
    ensures key in SecondOccurrences(pairs, n) <==> Occurrences(pairs, n, key) >= 2
    ensures multiset(SecondOccurrences(pairs, n))[key] <= 1
  {
    if n > 0 {
      ReportsRepeatedKeys(pairs, n - 1, key);
      var before := SecondOccurrences(pairs, n - 1);
      if Occurrences(pairs, n - 1, pairs[n - 1].key) == 1 {
        assert key in before + [pairs[n - 1].key] <==> key in before || key == pairs[n - 1].key;
        assert multiset(before + [pairs[n - 1].key]) == multiset(before) + multiset{pairs[n - 1].key};
      }
    }
  }

  lemma {:induction false} OccursOnce(pairs: seq<Pair>, n: nat, key: string)
    requires n <= |pairs| && UniqueKeys(pairs)
    ensures Occurrences(pairs, n, key) <= 1
    ensures Occurrences(pairs, n, key) == 1 ==> exists k :: 0 <= k < n && pairs[k].key == key
  {
    if n > 0 {
      OccursOnce(pairs, n - 1, key);
    }
  }

  lemma {:induction false} OccursTwice(pairs: seq<Pair>, n: nat, i: nat, j: nat)
    requires i < j < n <= |pairs| && pairs[i].key == pairs[j].key
    ensures Occurrences(pairs, n, pairs[i].key) >= 2
  {
    if n - 1 > j {
      OccursTwice(pairs, n - 1, i, j);
    } else {
      IndexIffOccurs(pairs, j, pairs[i].key);
    }
  }

  // Nothing is reported exactly when all keys are different.
  lemma {:induction false} NothingReportedIff(pairs: seq<Pair>)
    ensures SecondOccurrences(pairs, |pairs|) == [] <==> UniqueKeys(pairs)
  {
    if SecondOccurrences(pairs, |pairs|) == [] {
      forall i, j | 0 <= i < j < |pairs| ensures pairs[i].key != pairs[j].key {
        if pairs[i].key == pairs[j].key {
          OccursTwice(pairs, |pairs|, i, j);
          ReportsRepeatedKeys(pairs, |pairs|, pairs[i].key);
        }
      }
    }
    if UniqueKeys(pairs) && SecondOccurrences(pairs, |pairs|) != [] {
      var key := SecondOccurrences(pairs, |pairs|)[0];
      ReportsRepeatedKeys(pairs, |pairs|, key);
      OccursOnce(pairs, |pairs|, key);
    }
  }

  // The keys are reported in the order in which they repeat.
  lemma {:induction false} ReportedInOrder(pairs: seq<Pair>, n: nat, a: nat, b: nat) returns (i: nat, j: nat)
    requires n <= |pairs| && a < b < |SecondOccurrences(pairs, n)|
    ensures i < j < n && pairs[i].key == SecondOccurrences(pairs, n)[a] && pairs[j].key == SecondOccurrences(pairs, n)[b]
    ensures Occurrences(pairs, i, pairs[i].key) == 1 && Occurrences(pairs, j, pairs[j].key) == 1
  {
    if b < |SecondOccurrences(pairs, n - 1)| {
      i, j := ReportedInOrder(pairs, n - 1, a, b);
    } else {
      i := WhereReported(pairs, n - 1, a);
      j := n - 1;
    }
  }

  lemma {:induction false} WhereReported(pairs: seq<Pair>, n: nat, a: nat) returns (i: nat)
    requires n <= |pairs| && a < |SecondOccurrences(pairs, n)|
    ensures i < n && pairs[i].key == SecondOccurrences(pairs, n)[a] && Occurrences(pairs, i, pairs[i].key) == 1
  {
    if a < |SecondOccurrences(pairs, n - 1)| {
      i := WhereReported(pairs, n - 1, a);
    } else {
      i := n - 1;
    }
  }

  // What the hook gives for an object.
  function Checked(pairs: seq<Pair>): Result<Json, JsonError> {
    var repeated := SecondOccurrences(pairs, |pairs|);
    if repeated == [] then Success(Object(pairs)) else Failure(DuplicateKeys(repeated))
  }

  // The keys of the dictionary are those of the first n pairs; while none has repeated, it
  // is those pairs.
  ghost predicate Filled(dict: seq<Pair>, pairs: seq<Pair>, n: nat)
    requires n <= |pairs|
  {
    && (forall key :: IndexOf(dict, |dict|, key) < |dict| <==> Occurrences(pairs, n, key) > 0)
    && (SecondOccurrences(pairs, n) == [] ==> dict == pairs[..n])
  }

  lemma {:induction false} IndexAfterSet(dict: seq<Pair>, p: Pair, key: string)
    ensures var d := SetItem(dict, p);
            IndexOf(d, |d|, key) < |d| <==> IndexOf(dict, |dict|, key) < |dict| || key == p.key
  {
    var d := SetItem(dict, p);
    IndexIffOccurs(dict, |dict|, p.key);
    IndexIffOccurs(dict, |dict|, key);
    IndexIffOccurs(d, |d|, key);
    var k := IndexOf(dict, |dict|, p.key);
    if k < |dict| {
      assert d[k].key == p.key;
    } else {
      assert d[|dict|].key == p.key;
    }
    if IndexOf(dict, |dict|, key) < |dict| {
      assert d[IndexOf(dict, |dict|, key)].key == key;
    }
    if IndexOf(d, |d|, key) < |d| && key != p.key {
      assert dict[IndexOf(d, |d|, key)].key == key;
    }
  }

  lemma {:induction false} FilledMore(dict: seq<Pair>, pairs: seq<Pair>, n: nat)
    requires n < |pairs| && Filled(dict, pairs, n)
    ensures Filled(SetItem(dict, pairs[n]), pairs, n + 1)
  {
    forall key ensures IndexOf(SetItem(dict, pairs[n]), |SetItem(dict, pairs[n])|, key) < |SetItem(dict, pairs[n])|
                       <==> Occurrences(pairs, n + 1, key) > 0 {
      IndexAfterSet(dict, pairs[n], key);
    }
    if SecondOccurrences(pairs, n + 1) == [] {
      ReportsRepeatedKeys(pairs, n, pairs[n].key);
      assert pairs[..n + 1] == pairs[..n] + [pairs[n]];
    }
  }

  // `_reject_duplicate_json_object_pairs`
  method RejectDuplicateJsonObjectPairs(pairs: seq<Pair>) returns (r: Result<Json, JsonError>)
    ensures r == Checked(pairs)
  {
    var result: seq<Pair> := [];
    var duplicateKeys: seq<string> := [];
    for i := 0 to |pairs|
      invariant Filled(result, pairs, i) && duplicateKeys == SecondOccurrences(pairs, i)
    {
      var key := pairs[i].key;
      ReportsRepeatedKeys(pairs, i, key);
      FilledMore(result, pairs, i);
      if IndexOf(result, |result|, key) < |result| && key !in duplicateKeys {
        duplicateKeys := duplicateKeys + [key];
      }
      result := SetItem(result, pairs[i]);
    }
    if duplicateKeys != [] {
      return Failure(DuplicateKeys(duplicateKeys));
    }
    assert result == pairs[..|pairs|] == pairs;
    return Success(Object(result));
  }

  // ---------------------------------------------------------------- a whole text

  // `loads_strict_json` after decoding: the hooks are called for the parts before the whole.
  function Load(t: Json): Result<Json, JsonError>
    decreases t
  {
    match t
    case Scalar(_) => Success(t)
    case Constant(name) => Failure(NonFinite(name))
    case Array(items) =>
      var r := LoadItems(items, |items|);
      if r.Failure? then Failure(r.error) else Success(Array(r.value))
    case Object(pairs) =>
      var r := LoadPairs(pairs, |pairs|);
      if r.Failure? then Failure(r.error) else Checked(r.value)
  }

  function LoadItems(items: seq<Json>, n: nat): Result<seq<Json>, JsonError>
    requires n <= |items|
    decreases items, n
  {
    if n == 0 then Success([])
    else
      var before := LoadItems(items, n - 1);
      if before.Failure? then before
      else
        var r := Load(items[n - 1]);
        if r.Failure? then Failure(r.error) else Success(before.value + [r.value])
  }

  function LoadPairs(pairs: seq<Pair>, n: nat): Result<seq<Pair>, JsonError>
    requires n <= |pairs|
    decreases pairs, n
  {
    if n == 0 then Success([])
    else
      var before := LoadPairs(pairs, n - 1);
      if before.Failure? then before
      else
        var r := Load(pairs[n - 1].value);
        if r.Failure? then Failure(r.error) else Success(before.value + [Pair(pairs[n - 1].key, r.value)])
  }

  // The part of the tree that a path of positions leads to.
  function At(t: Json, path: seq<nat>): Option<Json>
    decreases |path|
  {
    if path == [] then Some(t)
    else if t.Array? && path[0] < |t.items| then At(t.items[path[0]], path[1..])
    else if t.Object? && path[0] < |t.pairs| then At(t.pairs[path[0]].value, path[1..])
    else None
  }

  ghost predicate GoodPart(t: Json) {
    !t.Constant? && (t.Object? ==> UniqueKeys(t.pairs))
  }

  ghost predicate GoodAt(t: Json, path: seq<nat>) {
    At(t, path).Some? ==> GoodPart(At(t, path).value)
  }

  // Every part, at every depth, is no constant, and its names are unique.
  ghost predicate Strict(t: Json) {
    forall path :: GoodAt(t, path)
  }

  // A strict text is loaded as it is.
  lemma {:induction false} StrictLoads(t: Json)
    requires Strict(t)
    ensures Load(t) == Success(t)
    decreases t
  {
    assert GoodAt(t, []);
    match t
    case Scalar(_) =>
    case Constant(_) =>
    case Array(items) => StrictItemsLoad(items, |items|); assert items[..|items|] == items;
    case Object(pairs) =>
      StrictPairsLoad(pairs, |pairs|);
      NothingReportedIff(pairs);
      assert pairs[..|pairs|] == pairs;
  }

  lemma {:induction false} StrictPart(t: Json, k: nat)
    requires Strict(t) && ((t.Array? && k < |t.items|) || (t.Object? && k < |t.pairs|))
    ensures Strict(if t.Array? then t.items[k] else t.pairs[k].value)
  {
    var part := if t.Array? then t.items[k] else t.pairs[k].value;
    forall path: seq<nat> ensures GoodAt(part, path) {
      assert GoodAt(t, [k] + path);
      assert ([k] + path)[1..] == path;
    }
  }

  lemma {:induction false} StrictItemsLoad(items: seq<Json>, n: nat)
    requires Strict(Array(items)) && n <= |items|
    ensures LoadItems(items, n) == Success(items[..n])
    decreases items, n
  {
    if n > 0 {
      StrictItemsLoad(items, n - 1);
      StrictPart(Array(items), n - 1);
      StrictLoads(items[n - 1]);
      assert items[..n] == items[..n - 1] + [items[n - 1]];
    }
  }

  lemma {:induction false} StrictPairsLoad(pairs: seq<Pair>, n: nat)
    requires Strict(Object(pairs)) && n <= |pairs|
    ensures LoadPairs(pairs, n) == Success(pairs[..n])
    decreases pairs, n
  {
    if n > 0 {
      StrictPairsLoad(pairs, n - 1);
      StrictPart(Object(pairs), n - 1);
      StrictLoads(pairs[n - 1].value);
      assert pairs[..n] == pairs[..n - 1] + [pairs[n - 1]];
    }
  }

  // The complaint about one part.
  ghost predicate Complains(t: Json, e: JsonError) {
    match t
    case Constant(name) => e == NonFinite(name)
    case Object(pairs) => e == DuplicateKeys(SecondOccurrences(pairs, |pairs|)) && !UniqueKeys(pairs)
    case _ => false
  }

  // What is loaded is strict and is the text; an error is the complaint about some part of it.
  lemma {:induction false} LoadTellsStrict(t: Json) returns (path: seq<nat>)
    ensures Load(t).Success? ==> Load(t).value == t
    ensures Load(t).Failure? ==> At(t, path).Some? && Complains(At(t, path).value, Load(t).error)
    decreases t
  {
    path := [];
    match t
    case Scalar(_) =>
    case Constant(_) =>
    case Array(items) =>
      var k, rest := ItemsTellStrict(items, |items|);
      if Load(t).Failure? {
        path := [k] + rest;
        assert path[1..] == rest;
      }
      assert items[..|items|] == items;
    case Object(pairs) =>
      var k, rest := PairsTellStrict(pairs, |pairs|);
      if LoadPairs(pairs, |pairs|).Failure? {
        path := [k] + rest;
        assert path[1..] == rest;
      } else {
        NothingReportedIff(pairs);
        assert pairs[..|pairs|] == pairs;
      }
  }

  lemma {:induction false} ItemsTellStrict(items: seq<Json>, n: nat) returns (k: nat, path: seq<nat>)
    requires n <= |items|
    ensures LoadItems(items, n).Success? ==> LoadItems(items, n).value == items[..n]
    ensures LoadItems(items, n).Failure? ==>
      k < n && At(items[k], path).Some? && Complains(At(items[k], path).value, LoadItems(items, n).error)
    decreases items, n
  {
    k, path := 0, [];
    if n > 0 {
      k, path := ItemsTellStrict(items, n - 1);
      if LoadItems(items, n - 1).Success? {
        path := LoadTellsStrict(items[n - 1]);
        k := n - 1;
        assert items[..n] == items[..n - 1] + [items[n - 1]];
      }
    }
  }

  lemma {:induction false} PairsTellStrict(pairs: seq<Pair>, n: nat) returns (k: nat, path: seq<nat>)
    requires n <= |pairs|
    ensures LoadPairs(pairs, n).Success? ==> LoadPairs(pairs, n).value == pairs[..n]
    ensures LoadPairs(pairs, n).Failure? ==>
      k < n && At(pairs[k].value, path).Some? && Complains(At(pairs[k].value, path).value, LoadPairs(pairs, n).error)
    decreases pairs, n
  {
    k, path := 0, [];
    if n > 0 {
      k, path := PairsTellStrict(pairs, n - 1);
      if LoadPairs(pairs, n - 1).Success? {
        path := LoadTellsStrict(pairs[n - 1].value);
        k := n - 1;
        assert pairs[..n] == pairs[..n - 1] + [pairs[n - 1]];
      }
    }
  }

  // A text is loaded, and then unchanged, exactly when its names are unique in every object
  // at every depth and it has no constant.
  lemma {:induction false} LoadsIffStrict(t: Json)
    ensures Load(t).Success? <==> Strict(t)
    ensures Load(t).Success? ==> Load(t).value == t
  {
    var complaint := LoadTellsStrict(t);
    if Strict(t) {
      StrictLoads(t);
    }
    if Load(t).Success? {
      forall path ensures GoodAt(t, path) {
        LoadedIsStrictAt(t, path);
      }
    }
  }

  lemma {:induction false} LoadedIsStrictAt(t: Json, path: seq<nat>)
    requires Load(t).Success?
    ensures GoodAt(t, path)
    decreases |path|
  {
    if path == [] {
      if t.Object? {
        NothingReportedIff(t.pairs);
        var k, rest := PairsTellStrict(t.pairs, |t.pairs|);
        assert t.pairs[..|t.pairs|] == t.pairs;
      }
    } else if t.Array? && path[0] < |t.items| {
      LoadedItem(t.items, |t.items|, path[0]);
      LoadedIsStrictAt(t.items[path[0]], path[1..]);
    } else if t.Object? && path[0] < |t.pairs| {
      LoadedPair(t.pairs, |t.pairs|, path[0]);
      LoadedIsStrictAt(t.pairs[path[0]].value, path[1..]);
    }
  }

  lemma {:induction false} LoadedItem(items: seq<Json>, n: nat, k: nat)
    requires k < n <= |items| && LoadItems(items, n).Success?
    ensures Load(items[k]).Success?
  {
    if k < n - 1 {
      LoadedItem(items, n - 1, k);
    }
  }

  lemma {:induction false} LoadedPair(pairs: seq<Pair>, n: nat, k: nat)
    requires k < n <= |pairs| && LoadPairs(pairs, n).Success?
    ensures Load(pairs[k].value).Success?
  {
    if k < n - 1 {
      LoadedPair(pairs, n - 1, k);
    }
  }
}
