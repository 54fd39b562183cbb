/**
 Benchmarking embedding policies: each run copies the global settings, applies a policy,
 measures, and puts the settings back.  Lists are objects, so a copy and a reference
 differ; the backend is cached and must be the one for the settings in force.
 */
module PolicyRuns {
  import opened Wrappers

  // ---------------------------------------------------------------- settings and specifications

  class StringList {
    var items: seq<string>

    constructor (items: seq<string>)
      ensures this.items == items
    {
      this.items := items;
    }
  }

  // The six settings a run touches, as values.
  datatype Config = Config(
    provider: string, chain: seq<string>, model: string, dimensions: int,
    ollamaBaseUrl: Option<string>, openaiBaseUrl: Option<string>)

  class PolicySpec {
    const name: string
    const provider: string
    const chain: StringList
    const model: string
    const dimensions: int

    constructor (name: string, provider: string, chain: StringList, model: string, dimensions: int)
      ensures this.name == name && this.provider == provider && this.chain == chain
      ensures this.model == model && this.dimensions == dimensions
    {
      this.name, this.provider, this.chain, this.model, this.dimensions := name, provider, chain, model, dimensions;
    }
  }

  class Settings {
    var provider: string
    var chain: StringList
    var model: string
    var dimensions: int
    var ollamaBaseUrl: Option<string>
    var openaiBaseUrl: Option<string>

    constructor (c: Config)
      ensures Values() == c && fresh(chain)
    {
      provider, model, dimensions := c.provider, c.model, c.dimensions;
      ollamaBaseUrl, openaiBaseUrl := c.ollamaBaseUrl, c.openaiBaseUrl;
      chain := new StringList(c.chain);
    }

    function Values(): Config
      reads this, chain
    {
      Config(provider, chain.items, model, dimensions, ollamaBaseUrl, openaiBaseUrl)
    }
  }

  // A backend that was handed out, and the settings in force at that moment.
  datatype Fetch = Fetch(built: Config, inForce: Config)

  // The backend for a cached one and the settings, if building a new one succeeds or is not needed.
  function Obtained(cached: Option<Config>, settings: Config, builds: bool): Option<Config> {
    if cached.Some? then cached else if builds then Some(settings) else None
  }

  class Runtime {
    const settings: Settings
    var backend: Option<Config>
    var selectability: Option<Config>
    var rows: map<string, seq<string>>
    ghost var fetches: seq<Fetch>

    constructor (settings: Settings, rows: map<string, seq<string>>)
      ensures this.settings == settings && this.rows == rows
      ensures backend == None && selectability == None && fetches == []
    {
      this.settings, this.rows := settings, rows;
      backend, selectability, fetches := None, None, [];
    }

    // The cached backend, if there is one, was built from the settings in force.
    ghost predicate Current()
      reads this, settings, settings.chain
    {
      backend.Some? ==> backend.value == settings.Values()
    }

    // `get_embedding_backend`: the cached backend, or a new one for the settings; `None` where
    // building that one raises, which leaves the cache empty.
    method GetEmbeddingBackend(builds: bool) returns (b: Option<Config>)
      modifies this`backend, this`fetches
      ensures b == Obtained(old(backend), settings.Values(), builds)
      ensures backend == b
      ensures fetches == old(fetches) + if b.Some? then [Fetch(b.value, settings.Values())] else []
    {
      if backend.None? {
        if !builds {
          return None;
        }
        backend := Some(settings.Values());
      }
      b := backend;
      fetches := fetches + [Fetch(b.value, settings.Values())];
    }

    // `reset_embedding_backend` and `invalidate_embedding_selectability_cache`
    method DropCaches()
      modifies this`backend, this`selectability
      ensures backend == None && selectability == None
    {
      backend, selectability := None, None;
    }
  }

  // All backends handed out from fetch n on were those for the settings in force.
  ghost predicate FetchedInForce(fetches: seq<Fetch>, n: nat) {
    forall i :: n <= i < |fetches| ==> fetches[i].built == fetches[i].inForce
  }

  // ---------------------------------------------------------------- snapshot, apply, restore

  // The dictionary of `_snapshot_runtime_settings`
  datatype Snapshot = Snapshot(
    provider: string, chain: StringList, model: string, dimensions: int,
    ollamaBaseUrl: Option<string>, openaiBaseUrl: Option<string>)
  {
    ghost function Values(): Config
      reads chain
    {
      Config(provider, chain.items, model, dimensions, ollamaBaseUrl, openaiBaseUrl)
    }
  }

  // `_snapshot_runtime_settings`: the list is copied.
  method SnapshotRuntimeSettings(s: Settings) returns (snapshot: Snapshot)
    ensures fresh(snapshot.chain) && snapshot.Values() == s.Values()
  {
    var chain := new StringList(s.chain.items);
    snapshot := Snapshot(s.provider, chain, s.model, s.dimensions, s.ollamaBaseUrl, s.openaiBaseUrl);
  }

  // `_restore_runtime_settings`; false where `refresh_nested_views` raises, which leaves the caches.
  method RestoreRuntimeSettings(rt: Runtime, snapshot: Snapshot, refreshes: bool) returns (ok: bool)
    modifies rt`backend, rt`selectability, rt.settings
    ensures ok == refreshes && rt.settings.chain == snapshot.chain && rt.settings.Values() == snapshot.Values()
    ensures if ok then rt.backend == None && rt.selectability == None
            else rt.backend == old(rt.backend) && rt.selectability == old(rt.selectability)
  {
    rt.settings.provider := snapshot.provider;
    rt.settings.chain := snapshot.chain;
    rt.settings.model := snapshot.model;
    rt.settings.dimensions := snapshot.dimensions;
    rt.settings.ollamaBaseUrl := snapshot.ollamaBaseUrl;
    rt.settings.openaiBaseUrl := snapshot.openaiBaseUrl;
    if !refreshes {
      return false;
    }
    rt.DropCaches();
    ok := true;
  }

  // The settings once a policy is applied.
  ghost function Applied(c: Config, spec: PolicySpec): Config
    reads spec.chain
  {
    c.(provider := spec.provider, chain := spec.chain.items, model := spec.model, dimensions := spec.dimensions)
  }

  // `_apply_policy`: the first `steps` of the four assignments and the refresh succeed.
  method ApplyPolicy(rt: Runtime, spec: PolicySpec, steps: nat) returns (ok: bool)
    modifies rt`backend, rt`selectability, rt.settings
    ensures ok == (steps >= 5)
    ensures ok ==> fresh(rt.settings.chain) && rt.settings.Values() == old(Applied(rt.settings.Values(), spec))
    ensures if ok then rt.backend == None && rt.selectability == None
            else rt.backend == old(rt.backend) && rt.selectability == old(rt.selectability)
  {
    if steps == 0 {
      return false;
    }
    rt.settings.provider := spec.provider;
    if steps == 1 {
      return false;
    }
    rt.settings.chain := new StringList(spec.chain.items);
    if steps == 2 {
      return false;
    }
    rt.settings.model := spec.model;
    if steps == 3 {
      return false;
    }
    rt.settings.dimensions := spec.dimensions;
    if steps == 4 {
      return false;
    }
    rt.DropCaches();
    ok := true;
  }

  // ---------------------------------------------------------------- the measurements

  // What happens in one run.  `meddling` is what a measurement leaves in the settings, the
  // list changed in place; the other fields say which steps succeed.
  datatype Plan = Plan(
    applySteps: nat, builds: bool, rawEmbeds: bool, meddling: Option<Config>, firstCleanup: bool, saves: nat,
    retrieves: bool, lastCleanup: bool, searches: bool, serializes: bool, refreshes: bool)

  // The policy is applied in full.
  predicate Applies(plan: Plan) {
    plan.applySteps >= 5
  }

  // The backend is built and gives the raw embeddings.
  predicate MeasuresRaw(plan: Plan) {
    plan.builds && plan.rawEmbeds
  }

  predicate MeasuresContext(plan: Plan) {
    plan.firstCleanup && plan.saves >= 2 && plan.retrieves && plan.lastCleanup
  }

  // The measurements come to the snapshot of the selectable providers.
  predicate TakesSnapshot(plan: Plan) {
    MeasuresRaw(plan) && MeasuresContext(plan) && plan.searches
  }

  // Nothing in the run raises.
  predicate Completes(plan: Plan) {
    Applies(plan) && TakesSnapshot(plan) && plan.serializes && plan.refreshes
  }

  // Backends handed out since then, if any, were those for the settings, provided the cached
  // one was at the start.
  twostate predicate Measured(rt: Runtime)
    reads rt, rt.settings, rt.settings.chain
  {
    && |old(rt.fetches)| <= |rt.fetches| && rt.fetches[..|old(rt.fetches)|] == old(rt.fetches)
    && (old(rt.Current()) ==> rt.Current() && FetchedInForce(rt.fetches, |old(rt.fetches)|))
  }

  // `_measure_raw_embeddings`
  method MeasureRawEmbeddings(rt: Runtime, plan: Plan) returns (ok: bool)
    modifies rt`backend, rt`fetches
    ensures ok == (rt.backend.Some? && plan.rawEmbeds) && Measured(rt)
    ensures rt.backend == Obtained(old(rt.backend), rt.settings.Values(), plan.builds)
  {
    var backend := rt.GetEmbeddingBackend(plan.builds);
    if backend.None? {
      return false;
    }
    ok := plan.rawEmbeds;
  }

  // A measurement changes settings behind the run's back.
  method Meddle(s: Settings, c: Config)
    modifies s, s.chain
    ensures s.Values() == c && s.chain == old(s.chain)
  {
    s.provider, s.model, s.dimensions := c.provider, c.model, c.dimensions;
    s.ollamaBaseUrl, s.openaiBaseUrl := c.ollamaBaseUrl, c.openaiBaseUrl;
    s.chain.items := c.chain;
  }

  // The rows after the first n saves of `_seed_benchmark_user`
  function Seeded(rows: map<string, seq<string>>, user: string, n: nat): map<string, seq<string>> {
    if n == 0 then rows else if n == 1 then Save(rows, user, "fact") else Save(Save(rows, user, "fact"), user, "message")
  }

  // `repo.save_memory`
  function Save(rows: map<string, seq<string>>, user: string, row: string): map<string, seq<string>> {
    rows[user := (if user in rows then rows[user] else []) + [row]]
  }

  lemma {:induction false} SeededThenCleaned(rows: map<string, seq<string>>, user: string, n: nat)
    ensures Seeded(rows - {user}, user, n) - {user} == rows - {user}
  {
  }

  // `_seed_benchmark_user`: the backend is the cached one.
  method SeedBenchmarkUser(rt: Runtime, user: string, plan: Plan)
    requires rt.backend.Some?
    modifies rt`backend, rt`fetches, rt`rows
    ensures Measured(rt) && rt.backend == old(rt.backend)
    ensures rt.rows == Seeded(old(rt.rows), user, plan.saves)
  {
    var backend := rt.GetEmbeddingBackend(plan.builds);
    if plan.saves >= 1 {
      rt.rows := Save(rt.rows, user, "fact");
    }
    if plan.saves >= 2 {
      rt.rows := Save(rt.rows, user, "message");
    }
  }

  // The rows when `_measure_semantic_context` ends.
  function RowsAfter(rows: map<string, seq<string>>, user: string, plan: Plan): map<string, seq<string>> {
    if !plan.firstCleanup then rows
    else if plan.lastCleanup then rows - {user}
    else Seeded(rows - {user}, user, plan.saves)
  }

  // `_measure_semantic_context`: clean up, seed, retrieve, and clean up whatever happened.
  method MeasureSemanticContext(rt: Runtime, user: string, plan: Plan) returns (ok: bool)
    modifies rt`backend, rt`fetches, rt`rows
    ensures Measured(rt)
    ensures rt.backend == Obtained(old(rt.backend), rt.settings.Values(), plan.builds)
    ensures ok == (rt.backend.Some? && MeasuresContext(plan))
    ensures rt.rows == if rt.backend.Some? then RowsAfter(old(rt.rows), user, plan) else old(rt.rows)
  {
    var backend := rt.GetEmbeddingBackend(plan.builds);
    if backend.None? || !plan.firstCleanup {
      return false;
    }
    rt.rows := rt.rows - {user};
    SeedBenchmarkUser(rt, user, plan);
    ok := plan.saves >= 2 && plan.retrieves;
    if !plan.lastCleanup {
      return false;
    }
    SeededThenCleaned(old(rt.rows), user, plan.saves);
    rt.rows := rt.rows - {user};
  }

  // ---------------------------------------------------------------- one run

  // Everything between applying the policy and restoring; true if nothing raised.
  method MeasureAll(rt: Runtime, user: string, plan: Plan) returns (ok: bool)
    requires rt.backend == None
    modifies rt, rt.settings, rt.settings.chain
    ensures |old(rt.fetches)| <= |rt.fetches| && rt.fetches[..|old(rt.fetches)|] == old(rt.fetches)
    ensures plan.meddling == None ==> rt.Current() && rt.settings.Values() == old(rt.settings.Values())
    ensures plan.meddling == None ==> FetchedInForce(rt.fetches, |old(rt.fetches)|)
    ensures rt.rows == if MeasuresRaw(plan) then RowsAfter(old(rt.rows), user, plan) else old(rt.rows)
    ensures rt.settings.chain == old(rt.settings.chain)
    ensures rt.backend == if plan.builds then Some(old(rt.settings.Values())) else None
    ensures rt.selectability == if TakesSnapshot(plan) then Some(plan.meddling.GetOr(old(rt.settings.Values())))
                                else old(rt.selectability)
    ensures ok == (TakesSnapshot(plan) && plan.serializes)
  {
    ok := MeasureRawEmbeddings(rt, plan);
    if !ok {
      return;
    }
    if plan.meddling.Some? {
      Meddle(rt.settings, plan.meddling.value);
    }
    ok := MeasureSemanticContext(rt, user, plan);
    if !ok {
      return;
    }
    if !plan.searches {
      return false;
    }
    rt.selectability := Some(rt.settings.Values());
    ok := plan.serializes;
  }

  // The cached backend after a run: none, also where building it raised, that of the policy,
  // or the one from before.
  function BackendAfter(was: Option<Config>, applied: Config, plan: Plan): Option<Config> {
    if plan.refreshes then None
    else if !Applies(plan) then was
    else if plan.builds then Some(applied)
    else None
  }

  // The cached snapshot of the selectable providers after a run
  function SelectabilityAfter(was: Option<Config>, applied: Config, plan: Plan): Option<Config> {
    if plan.refreshes then None
    else if !Applies(plan) then was
    else if TakesSnapshot(plan) then Some(plan.meddling.GetOr(applied))
    else None
  }

  // When the cache agrees with the settings after a run, which ends with the settings it
  // began with.
  predicate CurrentAfter(settings: Config, applied: Config, was: bool, plan: Plan) {
    plan.refreshes || if Applies(plan) then plan.builds ==> applied == settings else was
  }

  // The run comes to the measurement that writes rows.
  predicate Writes(plan: Plan) {
    Applies(plan) && MeasuresRaw(plan)
  }

  // The rows after a run
  function RowsAfterRun(rows: map<string, seq<string>>, user: string, plan: Plan): map<string, seq<string>> {
    if Writes(plan) then RowsAfter(rows, user, plan) else rows
  }

  // `_run_policy`: whatever fails or meddles, the six settings end with the values they had,
  // and no list that existed before is changed, so neither is that of any specification.
  method RunPolicy(rt: Runtime, spec: PolicySpec, user: string, plan: Plan) returns (ok: bool)
    modifies rt, rt.settings
    ensures ok == Completes(plan)
    ensures rt.settings.Values() == old(rt.settings.Values()) && fresh(rt.settings.chain)
    ensures |old(rt.fetches)| <= |rt.fetches| && rt.fetches[..|old(rt.fetches)|] == old(rt.fetches)
    ensures plan.meddling == None ==> FetchedInForce(rt.fetches, |old(rt.fetches)|)
    ensures rt.backend == BackendAfter(old(rt.backend), old(Applied(rt.settings.Values(), spec)), plan)
    ensures rt.selectability == SelectabilityAfter(old(rt.selectability), old(Applied(rt.settings.Values(), spec)), plan)
    ensures rt.Current()
            <==> CurrentAfter(rt.settings.Values(), old(Applied(rt.settings.Values(), spec)), old(rt.Current()), plan)
    ensures rt.rows == RowsAfterRun(old(rt.rows), user, plan)
  {
    var snapshot := SnapshotRuntimeSettings(rt.settings);
    ok := ApplyPolicy(rt, spec, plan.applySteps);
    if ok {
      ok := MeasureAll(rt, user, plan);
    }
    var restored := RestoreRuntimeSettings(rt, snapshot, plan.refreshes);
    ok := ok && restored;
  }

  // Only the refresh of the restoring raises: the backend of a policy that differs from the
  // settings stays in the cache.
  lemma {:induction false} FailedRefreshLeavesPolicyBackend(settings: Config, was: bool)
    requires settings.provider == "google"
    ensures var plan := Plan(5, true, true, None, true, 2, true, true, true, true, false);
            var applied := settings.(provider := "auto", chain := ["ollama", "google", "openai"],
                                     model := "embeddinggemma", dimensions := 768);
            && BackendAfter(None, applied, plan) == Some(applied)
            && !CurrentAfter(settings, applied, was, plan)
  {
  }

  // ---------------------------------------------------------------- the benchmark

  // No run meddles with the settings.
  predicate NoMeddling(plans: seq<Plan>) {
    forall i :: 0 <= i < |plans| ==> plans[i].meddling == None
  }

  // How many of the first n runs complete before one raises.
  function CompletedTo(plans: seq<Plan>, n: nat): nat
    requires n <= |plans|
  {
    if n == 0 then 0
    else if CompletedTo(plans, n - 1) == n - 1 && Completes(plans[n - 1]) then n
    else CompletedTo(plans, n - 1)
  }

  lemma {:induction false} CompletedIsFirstRaising(plans: seq<Plan>, n: nat, runs: nat)
    requires runs <= n <= |plans| && (forall i :: 0 <= i < runs ==> Completes(plans[i]))
    requires runs < n ==> !Completes(plans[runs])
    ensures CompletedTo(plans, n) == runs
  {
    if n > runs {
      CompletedIsFirstRaising(plans, n - 1, runs);
    } else if n > 0 {
      CompletedIsFirstRaising(plans, n - 1, runs - 1);
    }
  }

  // How many runs are begun: those that complete, and the one that raises.
  function Begun(plans: seq<Plan>): nat {
    var runs := CompletedTo(plans, |plans|);
    if runs < |plans| then runs + 1 else runs
  }

  // The rows after the first n runs
  function RowsAfterRuns(rows: map<string, seq<string>>, users: seq<string>, plans: seq<Plan>, n: nat)
    : map<string, seq<string>>
    requires n <= |users| == |plans|
  {
    if n == 0 then rows else RowsAfterRun(RowsAfterRuns(rows, users, plans, n - 1), users[n - 1], plans[n - 1])
  }

  // The loop of `main` over the chosen policies: it ends at the first run that raises.
  method RunPolicies(rt: Runtime, specs: seq<PolicySpec>, users: seq<string>, plans: seq<Plan>) returns (runs: nat)
    requires |specs| == |users| == |plans|
    modifies rt, rt.settings
    ensures runs == CompletedTo(plans, |plans|) <= |specs| && rt.settings.Values() == old(rt.settings.Values())
    ensures |old(rt.fetches)| <= |rt.fetches| && rt.fetches[..|old(rt.fetches)|] == old(rt.fetches)
    ensures NoMeddling(plans) ==> FetchedInForce(rt.fetches, |old(rt.fetches)|)
    ensures Begun(plans) <= |plans| && rt.rows == RowsAfterRuns(old(rt.rows), users, plans, Begun(plans))
    ensures runs == |specs| > 0 ==> rt.backend == None && rt.selectability == None
    ensures runs < |specs| ==>
      (rt.Current() <==> CurrentAfter(rt.settings.Values(), old(Applied(rt.settings.Values(), specs[runs])),
                                      runs > 0 || old(rt.Current()), plans[runs]))
  {
    runs := 0;
    var ok := true;
    while ok && runs < |specs|
      invariant runs <= |specs| && rt.settings.Values() == old(rt.settings.Values())
      invariant rt.settings.chain == old(rt.settings.chain) || fresh(rt.settings.chain)
      invariant |old(rt.fetches)| <= |rt.fetches| && rt.fetches[..|old(rt.fetches)|] == old(rt.fetches)
      invariant NoMeddling(plans) ==> FetchedInForce(rt.fetches, |old(rt.fetches)|)
      invariant forall i :: 0 <= i < runs ==> Completes(plans[i])
      invariant !ok ==> runs < |specs| && !Completes(plans[runs])
      invariant rt.rows == RowsAfterRuns(old(rt.rows), users, plans, if ok then runs else runs + 1)
      invariant ok ==> if runs == 0 then rt.backend == old(rt.backend) else rt.backend == None && rt.selectability == None
      invariant !ok ==>
        (rt.Current() <==> CurrentAfter(rt.settings.Values(), old(Applied(rt.settings.Values(), specs[runs])),
                                        runs > 0 || old(rt.Current()), plans[runs]))
      decreases |specs| - runs, ok
    {
      ok := RunPolicy(rt, specs[runs], users[runs], plans[runs]);
      if ok {
        runs := runs + 1;
      }
    }
    CompletedIsFirstRaising(plans, |plans|, runs);
  }

  // ---------------------------------------------------------------- the temporary users

  // When the deletes work the temporary user's rows are gone, whatever else fails, and no
  // other user's rows are touched even when they do not.
  lemma {:induction false} TemporaryUserIsGone(rows: map<string, seq<string>>, user: string, other: string, plan: Plan)
    ensures plan.firstCleanup && plan.lastCleanup ==> RowsAfter(rows, user, plan) == rows - {user}
    ensures other != user ==> (other in RowsAfter(rows, user, plan) <==> other in rows)
    ensures other != user && other in rows ==> RowsAfter(rows, user, plan)[other] == rows[other]
  {
  }

  // Rows of the user are left exactly when the first delete fails and there were some, or the
  // last one fails after something was saved.
  lemma {:induction false} UserLeftIff(rows: map<string, seq<string>>, user: string, plan: Plan)
    ensures user in RowsAfter(rows, user, plan)
            <==> if !plan.firstCleanup then user in rows else !plan.lastCleanup && plan.saves > 0
  {
  }

  // Over any number of runs, users that are none of the temporary ones keep their rows.
  lemma {:induction false} OtherUsersKeepRows(rows: map<string, seq<string>>, users: seq<string>, plans: seq<Plan>,
                                              n: nat, other: string)
    requires n <= |users| == |plans| && other !in users[..n]
    ensures other in RowsAfterRuns(rows, users, plans, n) <==> other in rows
    ensures other in rows ==> RowsAfterRuns(rows, users, plans, n)[other] == rows[other]
  {
    if n > 0 {
      assert users[..n] == users[..n - 1] + [users[n - 1]];
      OtherUsersKeepRows(rows, users, plans, n - 1, other);
      TemporaryUserIsGone(RowsAfterRuns(rows, users, plans, n - 1), users[n - 1], other, plans[n - 1]);
    }
  }

  // A temporary user that some run came to is gone afterwards, when its deletes work.
  lemma {:induction false} TemporaryUsersAreGone(rows: map<string, seq<string>>, users: seq<string>, plans: seq<Plan>,
                                                 n: nat, k: nat)
    requires k < n <= |users| == |plans| && Writes(plans[k])
    requires forall i :: 0 <= i < n && users[i] == users[k] ==> plans[i].firstCleanup && plans[i].lastCleanup
    ensures users[k] !in RowsAfterRuns(rows, users, plans, n)
  {
    var before := RowsAfterRuns(rows, users, plans, n - 1);
    TemporaryUserIsGone(before, users[n - 1], users[k], plans[n - 1]);
    if k < n - 1 {
      TemporaryUsersAreGone(rows, users, plans, n - 1, k);
    }
  }
}
