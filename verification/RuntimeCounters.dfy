/**
 What the parity analysis counts about how the answers were produced: providers, models,
 processing times, and the reasons and routes of failovers.
 */
module RuntimeCounters {
  import opened Wrappers
  import opened PyText

  // ---------------------------------------------------------------- the runtime of one answer

  // One hop of a failover route; texts are `str(x or "")`.
  datatype Hop = NoDictionary | Hop(from: string, to: string)

  datatype Failover = Failover(switched: bool, reasonCode: string, route: seq<Hop>)

  datatype Metadata = Metadata(provider: string, model: string, processingTime: Option<real>, failover: Option<Failover>)

  datatype Runtime = Runtime(provider: string, model: string, processingTime: Option<real>,
                             switched: bool, reasonCode: string, route: seq<string>)

  predicate IsRoute(h: Hop) {
    h.Hop? && Strip(h.from) != "" && Strip(h.to) != ""
  }

  // `from->to` for the hops among the first n that name both ends
  function RouteTokens(hops: seq<Hop>, n: nat): seq<string>
    requires n <= |hops|
  {
    if n == 0 then []
    else if IsRoute(hops[n - 1]) then
      RouteTokens(hops, n - 1) + [Strip(hops[n - 1].from) + "->" + Strip(hops[n - 1].to)]
    else RouteTokens(hops, n - 1)
  }

  function RuntimeOf(m: Metadata): Runtime {
    var f := m.failover.GetOr(Failover(false, "", []));
    Runtime(m.provider, m.model, m.processingTime, f.switched, f.reasonCode, RouteTokens(f.route, |f.route|))
  }

  // `_transport_runtime`
  method TransportRuntime(m: Metadata) returns (r: Runtime)
    ensures r == RuntimeOf(m)
  {
    var failover := m.failover.GetOr(Failover(false, "", []));
    var routeTokens: seq<string> := [];
    for i := 0 to |failover.route|
      invariant routeTokens == RouteTokens(failover.route, i)
    {
      var hop := failover.route[i];
      if hop.NoDictionary? {
        continue;
      }
      var fromProvider, toProvider := Strip(hop.from), Strip(hop.to);
      if fromProvider != "" && toProvider != "" {
        routeTokens := routeTokens + [fromProvider + "->" + toProvider];
      }
    }
    r := Runtime(m.provider, m.model, m.processingTime, failover.switched, failover.reasonCode, routeTokens);
  }

  // ---------------------------------------------------------------- what is to be counted

  datatype Side = Sync | Stream

  datatype Observation = Observation(side: Side, runtime: Runtime)

  datatype Topic = Provider(side: Side) | Model(side: Side) | Reason | Route

  // A key counts as its token unless it is blank.
  function Counting(key: string, token: string): nat {
    if Strip(key) == token != "" then 1 else 0
  }

  function CountingTo(keys: seq<string>, token: string, n: nat): nat
    requires n <= |keys|
  {
    if n == 0 then 0 else CountingTo(keys, token, n - 1) + Counting(keys[n - 1], token)
  }

  // How often one observation counts for a token; failovers count only when the provider was
  // switched.
  function Adds(topic: Topic, o: Observation, token: string): nat {
    match topic
    case Provider(side) => if o.side == side then Counting(o.runtime.provider, token) else 0
    case Model(side) => if o.side == side then Counting(o.runtime.model, token) else 0
    case Reason => if o.runtime.switched then Counting(o.runtime.reasonCode, token) else 0
    case Route => if o.runtime.switched then CountingTo(o.runtime.route, token, |o.runtime.route|) else 0
  }

  function Total(topic: Topic, os: seq<Observation>, token: string, n: nat): nat
    requires n <= |os|
  {
    if n == 0 then 0 else Total(topic, os, token, n - 1) + Adds(topic, os[n - 1], token)
  }

  // The processing times of a side that are there and not negative, in order.
  function Times(side: Side, os: seq<Observation>, n: nat): seq<real>
    requires n <= |os|
  {
    if n == 0 then []
    else
      var before, o := Times(side, os, n - 1), os[n - 1];
      if o.side == side && o.runtime.processingTime.Some? && o.runtime.processingTime.value >= 0.0
      then before + [o.runtime.processingTime.value] else before
  }

  lemma {:induction false} TotalPrefix(topic: Topic, os: seq<Observation>, o: Observation, token: string, n: nat)
    requires n <= |os|
    ensures Total(topic, os + [o], token, n) == Total(topic, os, token, n)
  {
    if n > 0 { TotalPrefix(topic, os, o, token, n - 1); }
  }

  lemma {:induction false} TimesPrefix(side: Side, os: seq<Observation>, o: Observation, n: nat)
    requires n <= |os|
    ensures Times(side, os + [o], n) == Times(side, os, n)
  {
    if n > 0 { TimesPrefix(side, os, o, n - 1); }
  }

  // ---------------------------------------------------------------- the counters

  // The bucket holds how often each token counts, and no other key.
  ghost predicate Counts(bucket: map<string, nat>, counts: string -> nat) {
    forall t :: (t in bucket <==> counts(t) > 0) && (t in bucket ==> bucket[t] == counts(t))
  }

  function TotalOf(topic: Topic, os: seq<Observation>): string -> nat {
    t => Total(topic, os, t, |os|)
  }

  function WithKey(counts: string -> nat, key: string): string -> nat {
    t => counts(t) + Counting(key, t)
  }

  function WithKeys(counts: string -> nat, keys: seq<string>, n: nat): string -> nat
    requires n <= |keys|
  {
    t => counts(t) + CountingTo(keys, t, n)
  }

  // `_bump`
  method Bump(bucket: map<string, nat>, key: string, ghost counts: string -> nat) returns (bumped: map<string, nat>)
    requires Counts(bucket, counts)
    ensures Counts(bumped, WithKey(counts, key))
  {
    var token := Strip(key);
    if token == "" {
      return bucket;
    }
    bumped := bucket[token := (if token in bucket then bucket[token] else 0) + 1];
  }

  method BumpAll(bucket: map<string, nat>, keys: seq<string>, ghost counts: string -> nat)
    returns (bumped: map<string, nat>)
    requires Counts(bucket, counts)
    ensures Counts(bumped, WithKeys(counts, keys, |keys|))
  {
    bumped := bucket;
    for i := 0 to |keys|
      invariant Counts(bumped, WithKeys(counts, keys, i))
    {
      ghost var so := WithKeys(counts, keys, i);
      bumped := Bump(bumped, keys[i], so);
      assert forall t :: WithKey(so, keys[i])(t) == WithKeys(counts, keys, i + 1)(t);
    }
  }

  // The counters of one side
  datatype SideTally = SideTally(providers: map<string, nat>, models: map<string, nat>, times: seq<real>)

  ghost predicate SideHolds(t: SideTally, side: Side, os: seq<Observation>) {
    Counts(t.providers, TotalOf(Provider(side), os)) && Counts(t.models, TotalOf(Model(side), os)) && t.times == Times(side, os, |os|)
  }

  // A bucket that holds what one more observation makes of the counts
  lemma {:induction false} CountsSnoc(bucket: map<string, nat>, counts: string -> nat, topic: Topic,
                                      os: seq<Observation>, o: Observation)
    requires Counts(bucket, counts)
    requires forall t :: counts(t) == TotalOf(topic, os)(t) + Adds(topic, o, t)
    ensures Counts(bucket, TotalOf(topic, os + [o]))
  {
    forall t ensures TotalOf(topic, os + [o])(t) == counts(t) {
      TotalPrefix(topic, os, o, t, |os|);
    }
  }

  // An observation of the other side changes nothing.
  lemma {:induction false} OtherSideHolds(t: SideTally, side: Side, os: seq<Observation>, o: Observation)
    requires SideHolds(t, side, os) && o.side != side
    ensures SideHolds(t, side, os + [o])
  {
    CountsSnoc(t.providers, TotalOf(Provider(side), os), Provider(side), os, o);
    CountsSnoc(t.models, TotalOf(Model(side), os), Model(side), os, o);
    TimesPrefix(side, os, o, |os|);
  }

  method RecordSide(t: SideTally, side: Side, runtime: Runtime, ghost os: seq<Observation>) returns (t': SideTally)
    requires SideHolds(t, side, os)
    ensures SideHolds(t', side, os + [Observation(side, runtime)])
  {
    ghost var o := Observation(side, runtime);
    var providers := Bump(t.providers, runtime.provider, TotalOf(Provider(side), os));
    CountsSnoc(providers, WithKey(TotalOf(Provider(side), os), runtime.provider), Provider(side), os, o);
    var models := Bump(t.models, runtime.model, TotalOf(Model(side), os));
    CountsSnoc(models, WithKey(TotalOf(Model(side), os), runtime.model), Model(side), os, o);
    TimesPrefix(side, os, o, |os|);
    var times := t.times;
    if runtime.processingTime.Some? && runtime.processingTime.value >= 0.0 {
      times := times + [runtime.processingTime.value];
    }
    t' := SideTally(providers, models, times);
  }

  ghost predicate SidesHold(sides: map<Side, SideTally>, os: seq<Observation>) {
    forall side :: side in sides && SideHolds(sides[side], side, os)
  }

  method RecordSides(sides: map<Side, SideTally>, side: Side, runtime: Runtime, ghost os: seq<Observation>)
    returns (sides': map<Side, SideTally>)
    requires SidesHold(sides, os)
    ensures SidesHold(sides', os + [Observation(side, runtime)])
  {
    assert side in sides && SideHolds(sides[side], side, os);
    var t := RecordSide(sides[side], side, runtime, os);
    sides' := sides[side := t];
    forall other ensures other in sides' && SideHolds(sides'[other], other, os + [Observation(side, runtime)]) {
      assert other in sides && SideHolds(sides[other], other, os);
      if other != side {
        OtherSideHolds(sides[other], other, os, Observation(side, runtime));
      }
    }
  }

  ghost predicate FailoversHold(reasons: map<string, nat>, routes: map<string, nat>, os: seq<Observation>) {
    Counts(reasons, TotalOf(Reason, os)) && Counts(routes, TotalOf(Route, os))
  }

  method RecordFailover(reasons: map<string, nat>, routes: map<string, nat>, runtime: Runtime,
                        ghost o: Observation, ghost os: seq<Observation>)
    returns (reasons': map<string, nat>, routes': map<string, nat>)
    requires o.runtime == runtime && FailoversHold(reasons, routes, os)
    ensures FailoversHold(reasons', routes', os + [o])
  {
    if !runtime.switched {
      CountsSnoc(reasons, TotalOf(Reason, os), Reason, os, o);
      CountsSnoc(routes, TotalOf(Route, os), Route, os, o);
      return reasons, routes;
    }
    reasons' := Bump(reasons, runtime.reasonCode, TotalOf(Reason, os));
    CountsSnoc(reasons', WithKey(TotalOf(Reason, os), runtime.reasonCode), Reason, os, o);
    routes' := BumpAll(routes, runtime.route, TotalOf(Route, os));
    CountsSnoc(routes', WithKeys(TotalOf(Route, os), runtime.route, |runtime.route|), Route, os, o);
  }

  class RuntimeTally {
    var sides: map<Side, SideTally>
    var reasons: map<string, nat>
    var routes: map<string, nat>
    ghost var seen: seq<Observation>

    // Every counter agrees with what has been seen.
    ghost predicate Valid()
      reads this
    {
      SidesHold(sides, seen) && FailoversHold(reasons, routes, seen)
    }

    constructor ()
      ensures Valid() && seen == []
    {
      var none := SideTally(map[], map[], []);
      sides, reasons, routes, seen := map[Sync := none, Stream := none], map[], map[], [];
      new;
      forall side ensures side in sides && SideHolds(sides[side], side, []) {
        match side
        case Sync =>
        case Stream =>
      }
    }

    // `_record_runtime`
    method Record(side: Side, runtime: Runtime)
      requires Valid()
      modifies this
      ensures Valid() && seen == old(seen) + [Observation(side, runtime)]
    {
      ghost var o, os := Observation(side, runtime), seen;
      var counted := RecordSides(sides, side, runtime, os);
      var reasonCounts, routeCounts := RecordFailover(reasons, routes, runtime, o, os);
      sides, reasons, routes, seen := counted, reasonCounts, routeCounts, os + [o];
    }
  }

  // ---------------------------------------------------------------- what the counters add up to

  // What an observation names: its side's provider or model, or nothing.
  function Name(topic: Topic, o: Observation): string
    requires topic.Provider? || topic.Model?
  {
    if o.side != topic.side then "" else Strip(if topic.Provider? then o.runtime.provider else o.runtime.model)
  }

  // How many of the first n observations name one.
  function Naming(topic: Topic, os: seq<Observation>, n: nat): nat
    requires n <= |os| && (topic.Provider? || topic.Model?)
  {
    if n == 0 then 0 else Naming(topic, os, n - 1) + if Name(topic, os[n - 1]) != "" then 1 else 0
  }

  // The counts of the first m keys together
  function SumTo(counts: string -> nat, keys: seq<string>, m: nat): nat
    requires m <= |keys|
  {
    if m == 0 then 0 else SumTo(counts, keys, m - 1) + counts(keys[m - 1])
  }

  ghost predicate Different(keys: seq<string>) {
    forall i, j :: 0 <= i < j < |keys| ==> keys[i] != keys[j]
  }

  function TotalTo(topic: Topic, os: seq<Observation>, n: nat): string -> nat
    requires n <= |os|
  {
    t => Total(topic, os, t, n)
  }

  // One more observation adds one to the sum exactly when what it names is among the keys.
  lemma {:induction false} SumStep(topic: Topic, os: seq<Observation>, n: nat, keys: seq<string>, m: nat)
    requires 0 < n <= |os| && m <= |keys| && Different(keys) && (topic.Provider? || topic.Model?)
    ensures SumTo(TotalTo(topic, os, n), keys, m)
            == SumTo(TotalTo(topic, os, n - 1), keys, m)
               + if Name(topic, os[n - 1]) != "" && Name(topic, os[n - 1]) in keys[..m] then 1 else 0
  {
    if m > 0 {
      SumStep(topic, os, n, keys, m - 1);
      assert keys[..m] == keys[..m - 1] + [keys[m - 1]];
      assert keys[m - 1] !in keys[..m - 1];
    }
  }

  lemma {:induction false} SumOfNone(topic: Topic, os: seq<Observation>, keys: seq<string>, m: nat)
    requires m <= |keys|
    ensures SumTo(TotalTo(topic, os, 0), keys, m) == 0
  {
    if m > 0 { SumOfNone(topic, os, keys, m - 1); }
  }

  lemma {:induction false} NamesAddUp(topic: Topic, os: seq<Observation>, n: nat, keys: seq<string>)
    requires n <= |os| && Different(keys) && (topic.Provider? || topic.Model?)
    requires forall i :: 0 <= i < n && Name(topic, os[i]) != "" ==> Name(topic, os[i]) in keys
    ensures SumTo(TotalTo(topic, os, n), keys, |keys|) == Naming(topic, os, n)
  {
    if n == 0 {
      SumOfNone(topic, os, keys, |keys|);
    } else {
      NamesAddUp(topic, os, n - 1, keys);
      SumStep(topic, os, n, keys, |keys|);
      assert keys[..|keys|] == keys;
    }
  }

  lemma {:induction false} NamedIsCounted(topic: Topic, os: seq<Observation>, n: nat, i: nat)
    requires i < n <= |os| && (topic.Provider? || topic.Model?) && Name(topic, os[i]) != ""
    ensures Total(topic, os, Name(topic, os[i]), n) > 0
  {
    if i < n - 1 { NamedIsCounted(topic, os, n - 1, i); }
  }

  function BucketSum(bucket: map<string, nat>, keys: seq<string>, m: nat): nat
    requires m <= |keys| && forall k :: k in keys ==> k in bucket
  {
    if m == 0 then 0 else BucketSum(bucket, keys, m - 1) + bucket[keys[m - 1]]
  }

  lemma {:induction false} BucketSumIs(bucket: map<string, nat>, counts: string -> nat, keys: seq<string>, m: nat)
    requires Counts(bucket, counts) && m <= |keys| && forall k :: k in keys ==> k in bucket
    ensures BucketSum(bucket, keys, m) == SumTo(counts, keys, m)
  {
    if m > 0 {
      BucketSumIs(bucket, counts, keys, m - 1);
      assert keys[m - 1] in keys;
    }
  }

  // A side's provider counters, or its model counters, together are the answers of the side
  // that name one, in whatever order the keys are listed.
  lemma {:induction false} BucketAddsUp(bucket: map<string, nat>, topic: Topic, os: seq<Observation>, keys: seq<string>)
    requires (topic.Provider? || topic.Model?) && Counts(bucket, TotalOf(topic, os))
    requires Different(keys) && forall k :: k in keys <==> k in bucket
    ensures BucketSum(bucket, keys, |keys|) == Naming(topic, os, |os|)
  {
    var n := |os|;
    assert Counts(bucket, TotalTo(topic, os, n)) by {
      assert forall t :: TotalTo(topic, os, n)(t) == TotalOf(topic, os)(t);
    }
    BucketSumIs(bucket, TotalTo(topic, os, n), keys, |keys|);
    forall i | 0 <= i < n && Name(topic, os[i]) != "" ensures Name(topic, os[i]) in keys {
      NamedIsCounted(topic, os, n, i);
    }
    NamesAddUp(topic, os, n, keys);
  }
}
