/**
 Starting and stopping the application.  Startup acquires tasks and handles in helpers
 that swallow their exceptions and records what they return; shutdown releases what was
 recorded, each release again swallowing its exception.  `live` is the set of parts that
 really are open or running, and `jobs` that of the recovered jobs whose task runs, so what
 a whole run leaves behind can be counted.
 */
module Lifecycle {
  import opened Wrappers

  // ---------------------------------------------------------------- parts and failures

  // Everything shutdown may try to stop, in the order in which it tries, and then the two
  // drivers of the pre-warmed RAG agent, which it does not know of.
  datatype Part =
    | Neo4j | Executor | AuditTask | AuditLoop | ProbeTask | ProbeLoop | CleanupTask | ReaperTask
    | SessionStore | Heartbeat | EmotionState | SoulBridge | McpClient | SourcesPool | CoursePool
    | DensePool | SparsePool | Browser | Engine | RagDriver | GraphRagDriver

  function Rank(p: Part): nat {
    match p
    case Neo4j => 0
    case Executor => 1
    case AuditTask => 2
    case AuditLoop => 3
    case ProbeTask => 4
    case ProbeLoop => 5
    case CleanupTask => 6
    case ReaperTask => 7
    case SessionStore => 8
    case Heartbeat => 9
    case EmotionState => 10
    case SoulBridge => 11
    case McpClient => 12
    case SourcesPool => 13
    case CoursePool => 14
    case DensePool => 15
    case SparsePool => 16
    case Browser => 17
    case Engine => 18
    case RagDriver => 19
    case GraphRagDriver => 20
  }

  predicate IsTask(p: Part) {
    p in {AuditTask, AuditLoop, ProbeTask, ProbeLoop, CleanupTask, ReaperTask}
  }

  // A configured number of seconds, as `float` reads it.
  datatype Interval = Unreadable | NotANumber | Infinite | NegativeInfinite | Finite(seconds: real)

  // `interval > 0`
  predicate Positive(i: Interval) {
    i.Infinite? || (i.Finite? && i.seconds > 0.0)
  }

  // `int(interval)` raises on infinities and on NaN.
  predicate IntRaises(i: Interval) {
    i.Infinite? || i.NegativeInfinite? || i.NotANumber?
  }

  // `max(audit_interval, 3600.0)`
  function AtLeastAnHour(i: Interval): Interval {
    if i.NegativeInfinite? || (i.Finite? && i.seconds < 3600.0) then Finite(3600.0) else i
  }

  datatype Settings = Settings(
    neo4j: bool, lmsIntegration: bool, auditInterval: Interval, healthProbes: bool, probeInterval: Interval, mcpClient: bool,
    scheduler: bool, livingAgent: bool, soulBridge: bool, magicLink: bool, reaperAge: Interval)

  predicate InRange(i: Interval, least: real, most: real) {
    i.Finite? && least <= i.seconds <= most
  }

  // The bounds that the settings check when they are loaded.
  predicate Loaded(s: Settings) {
    && InRange(s.auditInterval, 0.0, 86400.0) && InRange(s.probeInterval, 0.0, 86400.0)
    && InRange(s.reaperAge, 60.0, 3600.0)
  }

  // The four places where startup writes to standard output.
  datatype Notice = LmsRegistered | LmsFailed | LmsSkipped | StartMessage

  // Which actions raise: `start` and `stop` name the part being acquired or released, however
  // often startup tries, and `notices` the writings to standard output.  `neo4jRepo` is making
  // the repository object, whose driver is opened inside it and may fail alone; `claim` is
  // claiming the jobs.
  datatype Faults = Faults(
    start: set<Part>, stop: set<Part>, observability: bool, neo4jRepo: bool, neo4jCheck: bool,
    lmsBootstrap: bool, claim: bool, soulConnect: bool, notices: set<Notice>)

  const NO_FAULTS := Faults({}, {}, false, false, false, false, false, false, {})

  // A row that claiming the unfinished course generation jobs returns: its phase, whether its
  // document still exists, whether its request was kept, and whether handling it raises.
  datatype Job = Job(phase: string, document: bool, request: bool, raises: bool)

  // The task of a job is created.
  predicate Dispatches(j: Job) {
    && !j.raises
    && if j.phase in {"CONVERTING", "RECOVERING_OUTLINE"} then j.document
       else j.phase in {"EXPANDING", "RECOVERING_EXPANDING"} && j.request
  }

  predicate NoneRaises(jobs: seq<Job>, n: nat)
    requires n <= |jobs|
  {
    forall k :: 0 <= k < n ==> !jobs[k].raises
  }

  // Those dispatched among the first n: handling a job that raises ends the recovery.
  function DispatchedTo(jobs: seq<Job>, n: nat): set<nat>
    requires n <= |jobs|
  {
    set i: nat | i < n && Dispatches(jobs[i]) && NoneRaises(jobs, i)
  }

  // What happens while the application serves: tasks end by themselves, handles are opened
  // on demand and used, recovered jobs finish.
  datatype Serving = Serving(ended: set<Part>, used: set<Part>, finished: set<nat>)

  predicate OnDemand(p: Part) {
    p in {CoursePool, DensePool, SparsePool, Browser, Engine}
  }

  ghost predicate Possible(v: Serving) {
    && (forall p :: p in v.ended ==> IsTask(p))
    && (forall p :: p in v.used ==> OnDemand(p))
  }

  // ---------------------------------------------------------------- the running application

  class AppRuntimeResources {
    var neo4jRepo: Option<Part>
    var runtimeAuditTask: Option<Part>
    var runtimeAuditLoopTask: Option<Part>
    var modelHealthProbeTask: Option<Part>
    var modelHealthProbeLoopTask: Option<Part>
    var scheduledExecutor: Option<Part>
    var heartbeat: Option<Part>
    var soulBridge: Option<Part>
    var magicLinkCleanupTask: Option<Part>
    var magicLinkReaperTask: Option<Part>

    constructor ()
      ensures InOrder()
    {
      neo4jRepo, runtimeAuditTask, runtimeAuditLoopTask := None, None, None;
      modelHealthProbeTask, modelHealthProbeLoopTask, scheduledExecutor := None, None, None;
      heartbeat, soulBridge, magicLinkCleanupTask, magicLinkReaperTask := None, None, None, None;
    }

    // What is recorded for a part.
    ghost function Field(p: Part): Option<Part>
      reads this
    {
      match p
      case Neo4j => neo4jRepo
      case Executor => scheduledExecutor
      case AuditTask => runtimeAuditTask
      case AuditLoop => runtimeAuditLoopTask
      case ProbeTask => modelHealthProbeTask
      case ProbeLoop => modelHealthProbeLoopTask
      case CleanupTask => magicLinkCleanupTask
      case ReaperTask => magicLinkReaperTask
      case Heartbeat => heartbeat
      case SoulBridge => soulBridge
      case _ => None
    }

    // Each field holds nothing or its own part.
    ghost predicate InOrder()
      reads this
    {
      forall p :: Field(p).Some? ==> Field(p).value == p
    }
  }

  class Runtime {
    var live: set<Part>
    var jobs: set<nat>
    var attempts: seq<Part>

    constructor ()
      ensures live == {} && jobs == {} && attempts == []
    {
      live, jobs, attempts := {}, {}, [];
    }

    // A task is created, a handle opened, a service started; `None` if that raises.
    method Acquire(p: Part, faults: set<Part>) returns (o: Option<Part>)
      modifies this`live
      ensures o == if p in faults then None else Some(p)
      ensures live == if o.Some? then old(live) + {p} else old(live)
    {
      if p in faults {
        return None;
      }
      live := live + {p};
      return Some(p);
    }
  }

  // ---------------------------------------------------------------- startup helpers

  // What the helpers leave open or running.
  predicate Holds(s: Settings, f: Faults, p: Part) {
    && p !in f.start
    && match p
       case Engine => true
       case Neo4j => s.neo4j && !f.neo4jRepo
       case AuditTask => true
       case AuditLoop => AuditTask !in f.start && Positive(s.auditInterval)
       case ProbeTask => s.healthProbes
       case ProbeLoop => s.healthProbes && ProbeTask !in f.start && Positive(s.probeInterval)
       case RagDriver => s.neo4j
       case GraphRagDriver => s.neo4j
       case CoursePool => s.lmsIntegration
       case McpClient => s.mcpClient
       case Executor => s.scheduler
       case Heartbeat => s.livingAgent
       case SoulBridge => s.soulBridge
       case SessionStore => s.magicLink
       case CleanupTask => s.magicLink
       case ReaperTask => s.magicLink && CleanupTask !in f.start && s.reaperAge != Unreadable
       case _ => false
  }

  // The probe helper raises after it has created a task.
  predicate ProbesRaise(s: Settings, f: Faults) {
    s.probeInterval == Unreadable || IntRaises(s.probeInterval) || (Positive(s.probeInterval) && ProbeLoop in f.start)
  }

  // Which of those the helpers fail to hand over, and shutdown does not reach otherwise.
  predicate Lost(s: Settings, f: Faults, p: Part) {
    || (p in {ProbeTask, ProbeLoop} && ProbesRaise(s, f))
    || (p == SoulBridge && f.soulConnect)
    || p in {RagDriver, GraphRagDriver}
  }

  // What the helper of a part returns for it, where there is a field for it.  The repository
  // is returned with or without a driver.
  function Handed(s: Settings, f: Faults, p: Part): Option<Part> {
    if p == Neo4j then if f.neo4jRepo then None else Some(Neo4j)
    else if Holds(s, f, p) && !Lost(s, f, p) && p !in {Engine, CoursePool, McpClient, SessionStore} then Some(p)
    else None
  }

  // Which of the startup helpers deals with a part.
  function Turn(p: Part): nat {
    match p
    case Engine => 0
    case Neo4j => 1
    case AuditTask | AuditLoop => 2
    case ProbeTask | ProbeLoop => 3
    case RagDriver | GraphRagDriver => 4
    case CoursePool => 5
    case McpClient => 6
    case Executor => 7
    case Heartbeat => 8
    case SoulBridge => 9
    case SessionStore | CleanupTask | ReaperTask => 10
    case _ => 11
  }

  // What is live once the first n startup helpers have been called.
  function LiveAfter(s: Settings, f: Faults, n: nat): set<Part> {
    set p: Part | Turn(p) < n && Holds(s, f, p)
  }

  function AllHeld(s: Settings, f: Faults): set<Part> {
    set p: Part | Holds(s, f, p)
  }

  function Only(held: set<Part>, p: Part): set<Part> {
    if p in held then {p} else {}
  }

  // Those of the parts held that helper n deals with.
  function Gains(held: set<Part>, n: nat): set<Part> {
    match n
    case 0 => Only(held, Engine)
    case 1 => Only(held, Neo4j)
    case 2 => Only(held, AuditTask) + Only(held, AuditLoop)
    case 3 => Only(held, ProbeTask) + Only(held, ProbeLoop)
    case 4 => Only(held, RagDriver) + Only(held, GraphRagDriver)
    case 5 => Only(held, CoursePool)
    case 6 => Only(held, McpClient)
    case 7 => Only(held, Executor)
    case 8 => Only(held, Heartbeat)
    case 9 => Only(held, SoulBridge)
    case 10 => Only(held, SessionStore) + Only(held, CleanupTask) + Only(held, ReaperTask)
    case _ => {}
  }

  lemma {:induction false} GainsEach(held: set<Part>, n: nat, p: Part)
    requires n < 11
    ensures p in Gains(held, n) <==> Turn(p) == n && p in held
  {
    match n
    case _ =>
  }

  lemma {:induction false} OneHelperMore(s: Settings, f: Faults, n: nat)
    requires n < 11
    ensures LiveAfter(s, f, n + 1) == LiveAfter(s, f, n) + Gains(AllHeld(s, f), n)
  {
    forall p ensures p in LiveAfter(s, f, n + 1) <==> p in LiveAfter(s, f, n) + Gains(AllHeld(s, f), n) {
      GainsEach(AllHeld(s, f), n, p);
    }
  }

  lemma {:induction false} NothingAtFirst(s: Settings, f: Faults)
    ensures LiveAfter(s, f, 0) == {}
  {
  }

  // `_validate_postgresql`: asking for the chat history repository creates the shared engine,
  // which stays when connecting fails.
  method ValidatePostgresql(r: Runtime, ghost s: Settings, f: Faults)
    requires r.live == LiveAfter(s, f, 0)
    modifies r`live
    ensures r.live == LiveAfter(s, f, 1)
  {
    OneHelperMore(s, f, 0);
    var ignored := r.Acquire(Engine, f.start);
  }

  // `Neo4jKnowledgeRepository()`: the driver is opened only if Neo4j is enabled, and a failure
  // to open it is swallowed.
  method OpenDriver(r: Runtime, s: Settings, f: Faults, p: Part)
    modifies r`live
    ensures r.live == if s.neo4j && p !in f.start then old(r.live) + {p} else old(r.live)
  {
    if s.neo4j {
      var ignored := r.Acquire(p, f.start);
    }
  }

  // `_validate_neo4j`: the repository is noted before it is asked whether it is available.
  method ValidateNeo4j(r: Runtime, s: Settings, f: Faults) returns (repo: Option<Part>)
    requires r.live == LiveAfter(s, f, 1)
    modifies r`live
    ensures r.live == LiveAfter(s, f, 2)
    ensures repo == Handed(s, f, Neo4j)
  {
    OneHelperMore(s, f, 1);
    if f.neo4jRepo {
      return None;
    }
    OpenDriver(r, s, f, Neo4j);
    repo := Some(Neo4j);
    if f.neo4jCheck {
      return repo;
    }
  }

  // `_schedule_runtime_audit`: whatever raises, the tasks made so far are returned.
  method ScheduleRuntimeAudit(r: Runtime, s: Settings, f: Faults)
    returns (task: Option<Part>, loopTask: Option<Part>)
    requires r.live == LiveAfter(s, f, 2)
    modifies r`live
    ensures r.live == LiveAfter(s, f, 3)
    ensures task == Handed(s, f, AuditTask) && loopTask == Handed(s, f, AuditLoop)
  {
    OneHelperMore(s, f, 2);
    loopTask := None;
    task := r.Acquire(AuditTask, f.start);
    if task.None? {
      return;
    }
    if s.auditInterval == Unreadable {
      return;
    }
    if Positive(s.auditInterval) {
      loopTask := r.Acquire(AuditLoop, f.start);
      if loopTask.None? {
        return;
      }
      if IntRaises(AtLeastAnHour(s.auditInterval)) {
        return;
      }
    }
  }

  // `_schedule_model_health_probes`: an exception loses the tasks made so far.
  method ScheduleModelHealthProbes(r: Runtime, s: Settings, f: Faults)
    returns (task: Option<Part>, loopTask: Option<Part>)
    requires r.live == LiveAfter(s, f, 3)
    modifies r`live
    ensures r.live == LiveAfter(s, f, 4)
    ensures task == Handed(s, f, ProbeTask) && loopTask == Handed(s, f, ProbeLoop)
  {
    OneHelperMore(s, f, 3);
    if !s.healthProbes {
      return None, None;
    }
    task := r.Acquire(ProbeTask, f.start);
    if task.None? {
      return None, None;
    }
    if s.probeInterval == Unreadable {
      return None, None;
    }
    loopTask := None;
    if Positive(s.probeInterval) {
      loopTask := r.Acquire(ProbeLoop, f.start);
      if loopTask.None? {
        return None, None;
      }
    }
    if IntRaises(s.probeInterval) {
      return None, None;
    }
  }

  // `_prewarm_rag_agent`: the agent and its graph service each make a repository of their own.
  method PrewarmRagAgent(r: Runtime, s: Settings, f: Faults)
    requires r.live == LiveAfter(s, f, 4)
    modifies r`live
    ensures r.live == LiveAfter(s, f, 5)
  {
    OneHelperMore(s, f, 4);
    OpenDriver(r, s, f, RagDriver);
    OpenDriver(r, s, f, GraphRagDriver);
  }

  // The loop over the claimed jobs
  method DispatchJobs(r: Runtime, jobs: seq<Job>)
    requires r.jobs == {}
    modifies r`jobs
    ensures r.jobs == DispatchedTo(jobs, |jobs|)
  {
    var i := 0;
    while i < |jobs| && !jobs[i].raises
      invariant 0 <= i <= |jobs| && NoneRaises(jobs, i)
      invariant r.jobs == DispatchedTo(jobs, i)
    {
      if jobs[i].phase in {"CONVERTING", "RECOVERING_OUTLINE"} {
        if jobs[i].document {
          r.jobs := r.jobs + {i};
        }
      } else if jobs[i].phase in {"EXPANDING", "RECOVERING_EXPANDING"} {
        if jobs[i].request {
          r.jobs := r.jobs + {i};
        }
      }
      i := i + 1;
    }
  }

  // The jobs whose task startup creates, once it gets there
  function Recovered(s: Settings, f: Faults, jobs: seq<Job>): set<nat> {
    if s.lmsIntegration && CoursePool !in f.start && !f.claim then DispatchedTo(jobs, |jobs|) else {}
  }

  // `_recover_course_generation_jobs`: the tasks made so far stay when a later job raises.
  method RecoverCourseGenerationJobs(r: Runtime, s: Settings, f: Faults, jobs: seq<Job>)
    requires r.live == LiveAfter(s, f, 5) && r.jobs == {}
    modifies r`live, r`jobs
    ensures r.live == LiveAfter(s, f, 6)
    ensures r.jobs == Recovered(s, f, jobs)
  {
    OneHelperMore(s, f, 5);
    if !s.lmsIntegration {
      return;
    }
    var pool := r.Acquire(CoursePool, f.start);
    if pool.None? {
      return;
    }
    if f.claim {
      return;
    }
    DispatchJobs(r, jobs);
  }

  // `_initialize_mcp_client`
  method InitializeMcpClient(r: Runtime, s: Settings, f: Faults)
    requires r.live == LiveAfter(s, f, 6)
    modifies r`live
    ensures r.live == LiveAfter(s, f, 7)
  {
    OneHelperMore(s, f, 6);
    if s.mcpClient {
      var ignored := r.Acquire(McpClient, f.start);
    }
  }

  // `_start_scheduled_executor`
  method StartScheduledExecutor(r: Runtime, s: Settings, f: Faults) returns (executor: Option<Part>)
    requires r.live == LiveAfter(s, f, 7)
    modifies r`live
    ensures r.live == LiveAfter(s, f, 8)
    ensures executor == Handed(s, f, Executor)
  {
    OneHelperMore(s, f, 7);
    if !s.scheduler {
      return None;
    }
    executor := r.Acquire(Executor, f.start);
  }

  // `_start_living_agent`
  method StartLivingAgent(r: Runtime, s: Settings, f: Faults) returns (heartbeat: Option<Part>)
    requires r.live == LiveAfter(s, f, 8)
    modifies r`live
    ensures r.live == LiveAfter(s, f, 9)
    ensures heartbeat == Handed(s, f, Heartbeat)
  {
    OneHelperMore(s, f, 8);
    if !s.livingAgent {
      return None;
    }
    heartbeat := r.Acquire(Heartbeat, f.start);
  }

  // `_start_soul_bridge`: initialised first, then connected; only then returned.
  method StartSoulBridge(r: Runtime, s: Settings, f: Faults) returns (bridge: Option<Part>)
    requires r.live == LiveAfter(s, f, 9)
    modifies r`live
    ensures r.live == LiveAfter(s, f, 10)
    ensures bridge == Handed(s, f, SoulBridge)
  {
    OneHelperMore(s, f, 9);
    if !s.soulBridge {
      return None;
    }
    bridge := r.Acquire(SoulBridge, f.start);
    if bridge.Some? && f.soulConnect {
      return None;
    }
  }

  // The two tasks of the magic links
  method StartMagicLinkTasks(r: Runtime, s: Settings, f: Faults) returns (cleanup: Option<Part>, reaper: Option<Part>)
    requires s.magicLink
    modifies r`live
    ensures r.live == old(r.live) + Only(AllHeld(s, f), CleanupTask) + Only(AllHeld(s, f), ReaperTask)
    ensures cleanup == Handed(s, f, CleanupTask) && reaper == Handed(s, f, ReaperTask)
  {
    reaper := None;
    cleanup := r.Acquire(CleanupTask, f.start);
    if cleanup.None? {
      return;
    }
    if s.reaperAge == Unreadable {
      return;
    }
    reaper := r.Acquire(ReaperTask, f.start);
  }

  // `_start_magic_link_maintenance`
  method StartMagicLinkMaintenance(r: Runtime, s: Settings, f: Faults)
    returns (cleanup: Option<Part>, reaper: Option<Part>)
    requires r.live == LiveAfter(s, f, 10)
    modifies r`live
    ensures r.live == LiveAfter(s, f, 11)
    ensures cleanup == Handed(s, f, CleanupTask) && reaper == Handed(s, f, ReaperTask)
  {
    OneHelperMore(s, f, 10);
    if !s.magicLink {
      return None, None;
    }
    var ignored := r.Acquire(SessionStore, f.start);
    cleanup, reaper := StartMagicLinkTasks(r, s, f);
  }

  // ---------------------------------------------------------------- startup

  // The step of the LMS connectors raises: what it writes when it is skipped, or in its
  // handler after a failure, is not guarded.
  predicate LmsRaises(s: Settings, f: Faults) {
    if s.lmsIntegration then (f.lmsBootstrap || LmsRegistered in f.notices) && LmsFailed in f.notices
    else LmsSkipped in f.notices
  }

  // `_bootstrap_lms_connectors`; false where it raises.
  method BootstrapLmsConnectors(s: Settings, f: Faults) returns (ok: bool)
    ensures ok == !LmsRaises(s, f)
  {
    if s.lmsIntegration {
      var raised := f.lmsBootstrap;
      if !raised {
        raised := LmsRegistered in f.notices;
      }
      return !(raised && LmsFailed in f.notices);
    }
    return LmsSkipped !in f.notices;
  }

  // Startup raises exactly when the observability set-up or the LMS step does.
  predicate StartupRaises(s: Settings, f: Faults) {
    f.observability || LmsRaises(s, f)
  }

  // Each field holds what the helper of its part returned.
  ghost predicate Records(resources: AppRuntimeResources, s: Settings, f: Faults)
    reads resources
  {
    && resources.neo4jRepo == Handed(s, f, Neo4j)
    && resources.runtimeAuditTask == Handed(s, f, AuditTask)
    && resources.runtimeAuditLoopTask == Handed(s, f, AuditLoop)
    && resources.modelHealthProbeTask == Handed(s, f, ProbeTask)
    && resources.modelHealthProbeLoopTask == Handed(s, f, ProbeLoop)
    && resources.scheduledExecutor == Handed(s, f, Executor)
    && resources.heartbeat == Handed(s, f, Heartbeat)
    && resources.soulBridge == Handed(s, f, SoulBridge)
    && resources.magicLinkCleanupTask == Handed(s, f, CleanupTask)
    && resources.magicLinkReaperTask == Handed(s, f, ReaperTask)
  }

  lemma {:induction false} RecordsEach(resources: AppRuntimeResources, s: Settings, f: Faults, p: Part)
    requires Records(resources, s, f)
    ensures resources.Field(p) == Handed(s, f, p)
  {
    match p
    case _ =>
  }

  // The calls of `startup_application` from the audit to the client
  method StartBackground(r: Runtime, s: Settings, f: Faults, jobs: seq<Job>, resources: AppRuntimeResources)
    requires r.live == LiveAfter(s, f, 2) && r.jobs == {}
    modifies r`live, r`jobs, resources`runtimeAuditTask, resources`runtimeAuditLoopTask
    modifies resources`modelHealthProbeTask, resources`modelHealthProbeLoopTask
    ensures r.live == LiveAfter(s, f, 7) && r.jobs == Recovered(s, f, jobs)
    ensures resources.runtimeAuditTask == Handed(s, f, AuditTask)
    ensures resources.runtimeAuditLoopTask == Handed(s, f, AuditLoop)
    ensures resources.modelHealthProbeTask == Handed(s, f, ProbeTask)
    ensures resources.modelHealthProbeLoopTask == Handed(s, f, ProbeLoop)
  {
    resources.runtimeAuditTask, resources.runtimeAuditLoopTask := ScheduleRuntimeAudit(r, s, f);
    resources.modelHealthProbeTask, resources.modelHealthProbeLoopTask := ScheduleModelHealthProbes(r, s, f);
    PrewarmRagAgent(r, s, f);
    RecoverCourseGenerationJobs(r, s, f, jobs);
    InitializeMcpClient(r, s, f);
  }

  // The last four calls of `startup_application`
  method StartServices(r: Runtime, s: Settings, f: Faults, resources: AppRuntimeResources)
    requires r.live == LiveAfter(s, f, 7)
    modifies r`live, resources`scheduledExecutor, resources`heartbeat, resources`soulBridge
    modifies resources`magicLinkCleanupTask, resources`magicLinkReaperTask
    ensures r.live == LiveAfter(s, f, 11)
    ensures resources.scheduledExecutor == Handed(s, f, Executor) && resources.heartbeat == Handed(s, f, Heartbeat)
    ensures resources.soulBridge == Handed(s, f, SoulBridge)
    ensures resources.magicLinkCleanupTask == Handed(s, f, CleanupTask)
    ensures resources.magicLinkReaperTask == Handed(s, f, ReaperTask)
  {
    resources.scheduledExecutor := StartScheduledExecutor(r, s, f);
    resources.heartbeat := StartLivingAgent(r, s, f);
    resources.soulBridge := StartSoulBridge(r, s, f);
    resources.magicLinkCleanupTask, resources.magicLinkReaperTask := StartMagicLinkMaintenance(r, s, f);
  }

  // What follows the LMS step
  method StartWork(r: Runtime, s: Settings, f: Faults, jobs: seq<Job>, resources: AppRuntimeResources)
    requires r.live == LiveAfter(s, f, 2) && r.jobs == {} && resources.neo4jRepo == Handed(s, f, Neo4j)
    modifies r`live, r`jobs, resources
    ensures r.live == LiveAfter(s, f, 11) && r.jobs == Recovered(s, f, jobs)
    ensures Records(resources, s, f)
  {
    StartBackground(r, s, f, jobs, resources);
    StartServices(r, s, f, resources);
  }

  // How many of the eleven helpers that acquire parts are called before startup ends.
  function Helpers(s: Settings, f: Faults): nat {
    if f.observability then 0 else if LmsRaises(s, f) then 2 else 11
  }

  // The jobs whose task is running when startup ends
  function RunningJobs(s: Settings, f: Faults, jobs: seq<Job>): set<nat> {
    if StartupRaises(s, f) then {} else Recovered(s, f, jobs)
  }

  // `startup_application`: where it raises, the parts of the helpers called before stay live
  // and are recorded by nobody.
  method StartupApplication(r: Runtime, s: Settings, f: Faults, jobs: seq<Job>)
    returns (ok: bool, resources: AppRuntimeResources)
    requires r.live == {} && r.jobs == {}
    modifies r`live, r`jobs
    ensures fresh(resources) && ok == !StartupRaises(s, f)
    ensures r.live == LiveAfter(s, f, Helpers(s, f)) && r.jobs == RunningJobs(s, f, jobs)
    ensures ok ==> Records(resources, s, f)
  {
    NothingAtFirst(s, f);
    resources := new AppRuntimeResources();
    if f.observability {
      return false, resources;
    }
    ValidatePostgresql(r, s, f);
    resources.neo4jRepo := ValidateNeo4j(r, s, f);
    ok := BootstrapLmsConnectors(s, f);
    if !ok {
      return;
    }
    StartWork(r, s, f, jobs, resources);
  }

  // ---------------------------------------------------------------- shutdown

  // The parts shutdown tries to stop: the recorded ones, and some whatever was recorded.
  ghost predicate Wants(resources: AppRuntimeResources, s: Settings, p: Part)
    reads resources
  {
    match p
    case SessionStore | SourcesPool | CoursePool | DensePool | SparsePool | Browser | Engine => true
    case EmotionState => s.livingAgent
    case McpClient => s.mcpClient
    case _ => resources.Field(p) == Some(p)
  }

  // A cancelled task ends; anything else ends unless stopping it raises.
  predicate Stops(f: Faults, p: Part) {
    IsTask(p) || p !in f.stop
  }

  // The attempts are in order of rank, each once, and are those of `wanted` below rank n.
  ghost predicate Attempted(attempts: seq<Part>, wanted: set<Part>, n: nat) {
    && (forall i, j :: 0 <= i < j < |attempts| ==> Rank(attempts[i]) < Rank(attempts[j]))
    && (forall p {:trigger p in attempts} :: p in attempts <==> p in wanted && Rank(p) < n)
  }

  // What the attempts below rank n have stopped.
  ghost function Stopped(f: Faults, wanted: set<Part>, n: nat): set<Part> {
    set p | p in wanted && Rank(p) < n && Stops(f, p)
  }

  // Shutdown has come to rank n.
  ghost predicate Reached(r: Runtime, f: Faults, wanted: set<Part>, was: set<Part>, n: nat)
    reads r
  {
    Attempted(r.attempts, wanted, n) && r.live == was - Stopped(f, wanted, n)
  }

  lemma {:induction false} RankDistinct(p: Part, q: Part)
    ensures Rank(p) == Rank(q) ==> p == q
  {
  }

  lemma {:induction false} AttemptedOneMore(attempts: seq<Part>, wanted: set<Part>, p: Part)
    requires Attempted(attempts, wanted, Rank(p)) && p in wanted
    ensures Attempted(attempts + [p], wanted, Rank(p) + 1)
  {
    var more := attempts + [p];
    forall q ensures q in more <==> q in wanted && Rank(q) < Rank(p) + 1 {
      RankDistinct(p, q);
      assert q in more <==> q in attempts || q == p;
    }
    forall i, j | 0 <= i < j < |more| ensures Rank(more[i]) < Rank(more[j]) {
      assert more[i] in attempts;
    }
  }

  lemma {:induction false} AttemptedNoMore(attempts: seq<Part>, wanted: set<Part>, p: Part)
    requires Attempted(attempts, wanted, Rank(p)) && p !in wanted
    ensures Attempted(attempts, wanted, Rank(p) + 1)
  {
    forall q ensures q in attempts <==> q in wanted && Rank(q) < Rank(p) + 1 {
      RankDistinct(p, q);
    }
  }

  lemma {:induction false} StoppedOneMore(f: Faults, wanted: set<Part>, p: Part)
    ensures Stopped(f, wanted, Rank(p) + 1)
            == Stopped(f, wanted, Rank(p)) + if p in wanted && Stops(f, p) then {p} else {}
  {
    forall q ensures Rank(q) == Rank(p) ==> q == p {
      RankDistinct(p, q);
    }
  }

  // `_close_neo4j`, `_cancel_background_task`, `_stop_heartbeat` and their like: nothing
  // for a part that is not there, else one attempt, whose exception is swallowed.
  method Stop(r: Runtime, f: Faults, part: Option<Part>, ghost p: Part, ghost wanted: set<Part>, ghost was: set<Part>)
    requires Reached(r, f, wanted, was, Rank(p))
    requires part == if p in wanted then Some(p) else None
    modifies r`live, r`attempts
    ensures Reached(r, f, wanted, was, Rank(p) + 1)
  {
    StoppedOneMore(f, wanted, p);
    if part.None? {
      AttemptedNoMore(r.attempts, wanted, p);
      return;
    }
    AttemptedOneMore(r.attempts, wanted, p);
    r.attempts := r.attempts + [part.value];
    if IsTask(part.value) || part.value !in f.stop {
      r.live := r.live - {part.value};
    }
  }

  // `wanted` is what shutdown tries to stop.
  ghost predicate AllWanted(wanted: set<Part>, resources: AppRuntimeResources, s: Settings)
    reads resources
  {
    forall p {:trigger p in wanted} :: p in wanted <==> Wants(resources, s, p)
  }

  // The six calls of `_cancel_background_task` in `shutdown_application`
  method CancelBackgroundTasks(r: Runtime, resources: AppRuntimeResources, f: Faults,
                               ghost s: Settings, ghost wanted: set<Part>, ghost was: set<Part>)
    requires resources.InOrder() && AllWanted(wanted, resources, s) && Reached(r, f, wanted, was, Rank(AuditTask))
    modifies r`live, r`attempts
    ensures Reached(r, f, wanted, was, Rank(SessionStore))
  {
    Stop(r, f, resources.runtimeAuditTask, AuditTask, wanted, was);
    Stop(r, f, resources.runtimeAuditLoopTask, AuditLoop, wanted, was);
    Stop(r, f, resources.modelHealthProbeTask, ProbeTask, wanted, was);
    Stop(r, f, resources.modelHealthProbeLoopTask, ProbeLoop, wanted, was);
    Stop(r, f, resources.magicLinkCleanupTask, CleanupTask, wanted, was);
    Stop(r, f, resources.magicLinkReaperTask, ReaperTask, wanted, was);
  }

  // The session store, the heartbeat and its emotion state
  method StopServices(r: Runtime, resources: AppRuntimeResources, s: Settings, f: Faults,
                      ghost wanted: set<Part>, ghost was: set<Part>)
    requires resources.InOrder() && AllWanted(wanted, resources, s) && Reached(r, f, wanted, was, Rank(SessionStore))
    modifies r`live, r`attempts
    ensures Reached(r, f, wanted, was, Rank(SoulBridge))
  {
    Stop(r, f, Some(SessionStore), SessionStore, wanted, was);
    Stop(r, f, resources.heartbeat, Heartbeat, wanted, was);
    Stop(r, f, if s.livingAgent then Some(EmotionState) else None, EmotionState, wanted, was);
  }

  // The connections to others
  method StopConnections(r: Runtime, resources: AppRuntimeResources, s: Settings, f: Faults,
                         ghost wanted: set<Part>, ghost was: set<Part>)
    requires resources.InOrder() && AllWanted(wanted, resources, s) && Reached(r, f, wanted, was, Rank(SoulBridge))
    modifies r`live, r`attempts
    ensures Reached(r, f, wanted, was, Rank(SourcesPool))
  {
    Stop(r, f, resources.soulBridge, SoulBridge, wanted, was);
    Stop(r, f, if s.mcpClient then Some(McpClient) else None, McpClient, wanted, was);
  }

  // The pools, which are closed whatever was started
  method ClosePools(r: Runtime, ghost resources: AppRuntimeResources, ghost s: Settings, f: Faults,
                    ghost wanted: set<Part>, ghost was: set<Part>)
    requires AllWanted(wanted, resources, s) && Reached(r, f, wanted, was, Rank(SourcesPool))
    modifies r`live, r`attempts
    ensures Reached(r, f, wanted, was, Rank(Browser))
  {
    Stop(r, f, Some(SourcesPool), SourcesPool, wanted, was);
    Stop(r, f, Some(CoursePool), CoursePool, wanted, was);
    Stop(r, f, Some(DensePool), DensePool, wanted, was);
    Stop(r, f, Some(SparsePool), SparsePool, wanted, was);
  }

  method CloseLast(r: Runtime, ghost resources: AppRuntimeResources, ghost s: Settings, f: Faults,
                   ghost wanted: set<Part>, ghost was: set<Part>)
    requires AllWanted(wanted, resources, s) && Reached(r, f, wanted, was, Rank(Browser))
    modifies r`live, r`attempts
    ensures Reached(r, f, wanted, was, Rank(Engine) + 1)
  {
    Stop(r, f, Some(Browser), Browser, wanted, was);
    Stop(r, f, Some(Engine), Engine, wanted, was);
  }

  // `shutdown_application`: every wanted part is attempted exactly once, in order, and no
  // failure keeps it from reaching the last.
  method ShutdownApplication(r: Runtime, resources: AppRuntimeResources, s: Settings, f: Faults,
                             ghost wanted: set<Part>)
    requires resources.InOrder() && AllWanted(wanted, resources, s) && r.attempts == []
    modifies r`live, r`attempts
    ensures Reached(r, f, wanted, old(r.live), Rank(Engine) + 1)
  {
    ghost var was := r.live;
    Stop(r, f, resources.neo4jRepo, Neo4j, wanted, was);
    Stop(r, f, resources.scheduledExecutor, Executor, wanted, was);
    CancelBackgroundTasks(r, resources, f, s, wanted, was);
    StopServices(r, resources, s, f, wanted, was);
    StopConnections(r, resources, s, f, wanted, was);
    ClosePools(r, resources, s, f, wanted, was);
    CloseLast(r, resources, s, f, wanted, was);
  }

  // ---------------------------------------------------------------- a whole run

  // How a run ends: startup raised; the start message raised before the `try`; or shutdown ran.
  datatype Ending = NotStarted | NotAnnounced | ShutDown

  // Live when shutdown begins
  predicate InUse(s: Settings, f: Faults, v: Serving, p: Part) {
    (Holds(s, f, p) && p !in v.ended) || p in v.used
  }

  // What shutdown does not end: parts that were lost, and handles whose closing raises.
  predicate Leaks(s: Settings, f: Faults, p: Part) {
    Lost(s, f, p) || (p in f.stop && !IsTask(p))
  }

  // What shutdown tries to stop after a startup with these settings and failures.
  predicate Tries(s: Settings, f: Faults, p: Part) {
    match p
    case SessionStore | SourcesPool | CoursePool | DensePool | SparsePool | Browser | Engine => true
    case EmotionState => s.livingAgent
    case McpClient => s.mcpClient
    case Neo4j => !f.neo4jRepo
    case _ => Holds(s, f, p) && !Lost(s, f, p)
  }

  lemma {:induction false} WantsWhatItTries(resources: AppRuntimeResources, s: Settings, f: Faults, p: Part)
    requires Records(resources, s, f)
    ensures Wants(resources, s, p) <==> Tries(s, f, p)
    ensures resources.Field(p).Some? ==> resources.Field(p).value == p
  {
    RecordsEach(resources, s, f, p);
  }

  // `wanted` is exactly what shutdown tries to stop.
  ghost predicate TriesAll(wanted: set<Part>, s: Settings, f: Faults) {
    forall p {:trigger p in wanted} :: p in wanted <==> Tries(s, f, p)
  }

  function AllInUse(s: Settings, f: Faults, v: Serving): set<Part> {
    set p: Part | InUse(s, f, v, p)
  }

  function LeftBehind(s: Settings, f: Faults, v: Serving): set<Part> {
    set p: Part | InUse(s, f, v, p) && Leaks(s, f, p)
  }

  lemma {:induction false} UseAfterStart(s: Settings, f: Faults, v: Serving)
    ensures LiveAfter(s, f, 11) - v.ended + v.used == AllInUse(s, f, v)
  {
  }

  // Whatever is in use and not lost is tried.
  lemma {:induction false} UsedIsTried(s: Settings, f: Faults, v: Serving, p: Part)
    requires Possible(v) && InUse(s, f, v, p)
    ensures Tries(s, f, p) <==> !Lost(s, f, p)
  {
    if p in v.used {
      assert OnDemand(p);
    }
  }

  lemma {:induction false} LeftAfterShutdown(live: set<Part>, was: set<Part>, s: Settings, f: Faults,
                                             wanted: set<Part>, v: Serving)
    requires live == was - Stopped(f, wanted, Rank(Engine) + 1) && TriesAll(wanted, s, f)
    requires Possible(v) && was == AllInUse(s, f, v)
    ensures live == LeftBehind(s, f, v)
  {
    forall p ensures p in live <==> InUse(s, f, v, p) && Leaks(s, f, p) {
      assert p in wanted ==> Rank(p) < Rank(Engine) + 1;
      if InUse(s, f, v, p) {
        UsedIsTried(s, f, v, p);
      }
    }
  }

  // The `finally`
  method StopServing(r: Runtime, resources: AppRuntimeResources, s: Settings, f: Faults, ghost v: Serving)
    returns (ghost wanted: set<Part>)
    requires Records(resources, s, f) && r.attempts == []
    requires Possible(v) && r.live == AllInUse(s, f, v)
    modifies r`live, r`attempts
    ensures Attempted(r.attempts, wanted, Rank(Engine) + 1) && TriesAll(wanted, s, f)
    ensures r.live == LeftBehind(s, f, v)
  {
    wanted := set p: Part | Wants(resources, s, p);
    forall p {
      WantsWhatItTries(resources, s, f, p);
    }
    ghost var was := r.live;
    ShutdownApplication(r, resources, s, f, wanted);
    LeftAfterShutdown(r.live, was, s, f, wanted, v);
  }

  // The `yield` and the `finally` of `lifespan`
  method Serve(r: Runtime, resources: AppRuntimeResources, s: Settings, f: Faults, v: Serving)
    returns (ghost wanted: set<Part>)
    requires Records(resources, s, f) && r.attempts == []
    requires Possible(v) && r.live == LiveAfter(s, f, 11)
    modifies r
    ensures Attempted(r.attempts, wanted, Rank(Engine) + 1) && TriesAll(wanted, s, f)
    ensures r.live == LeftBehind(s, f, v) && r.jobs == old(r.jobs) - v.finished
  {
    UseAfterStart(s, f, v);
    r.live, r.jobs := r.live - v.ended + v.used, r.jobs - v.finished;
    wanted := StopServing(r, resources, s, f, v);
  }

  function EndOf(s: Settings, f: Faults): Ending {
    if StartupRaises(s, f) then NotStarted else if StartMessage in f.notices then NotAnnounced else ShutDown
  }

  // What is live when a run is over.
  predicate Survives(s: Settings, f: Faults, v: Serving, p: Part) {
    match EndOf(s, f)
    case NotStarted => !f.observability && p in {Engine, Neo4j} && Holds(s, f, p)
    case NotAnnounced => Holds(s, f, p)
    case ShutDown => InUse(s, f, v, p) && Leaks(s, f, p)
  }

  function Survivors(s: Settings, f: Faults, v: Serving): set<Part> {
    set p: Part | Survives(s, f, v, p)
  }

  lemma {:induction false} SurvivorsByEnding(s: Settings, f: Faults, v: Serving)
    ensures Survivors(s, f, v) == if EndOf(s, f) == ShutDown then LeftBehind(s, f, v) else LiveAfter(s, f, Helpers(s, f))
  {
    forall p ensures Survives(s, f, v, p) && EndOf(s, f) != ShutDown
                     <==> EndOf(s, f) != ShutDown && Turn(p) < Helpers(s, f) && Holds(s, f, p) {
      match p
      case _ =>
    }
  }

  // The jobs whose task is running when a run is over.
  function SurvivingJobs(s: Settings, f: Faults, jobs: seq<Job>, v: Serving): set<nat> {
    if EndOf(s, f) == ShutDown then RunningJobs(s, f, jobs) - v.finished else RunningJobs(s, f, jobs)
  }

  // `lifespan`: start, serve, and shut down whatever the serving did.
  method Lifespan(s: Settings, f: Faults, jobs: seq<Job>, v: Serving)
    returns (r: Runtime, ending: Ending, ghost wanted: set<Part>)
    requires Possible(v)
    ensures fresh(r) && ending == EndOf(s, f)
    ensures ending != ShutDown ==> r.attempts == []
    ensures ending == ShutDown ==> Attempted(r.attempts, wanted, Rank(Engine) + 1) && TriesAll(wanted, s, f)
    ensures r.live == Survivors(s, f, v) && r.jobs == SurvivingJobs(s, f, jobs, v)
  {
    SurvivorsByEnding(s, f, v);
    r := new Runtime();
    wanted := {};
    var ok, resources := StartupApplication(r, s, f, jobs);
    if !ok {
      return r, NotStarted, wanted;
    }
    if StartMessage in f.notices {
      return r, NotAnnounced, wanted;
    }
    wanted := Serve(r, resources, s, f, v);
    ending := ShutDown;
  }

  lemma {:induction false} OnceAtMost(attempts: seq<Part>, p: Part)
    requires forall i, j :: 0 <= i < j < |attempts| ==> Rank(attempts[i]) < Rank(attempts[j])
    ensures multiset(attempts)[p] == if p in attempts then 1 else 0
  {
    if p in attempts {
      var k :| 0 <= k < |attempts| && attempts[k] == p;
      var before, after := attempts[..k], attempts[k + 1..];
      assert p !in before;
      assert p !in after;
      assert multiset(attempts)[p] == multiset(before)[p] + 1 + multiset(after)[p] by {
        assert attempts == before + [p] + after;
      }
    }
  }

  lemma {:induction false} HighestIsLast(attempts: seq<Part>, p: Part)
    requires forall i, j :: 0 <= i < j < |attempts| ==> Rank(attempts[i]) < Rank(attempts[j])
    requires p in attempts && forall q :: q in attempts ==> Rank(q) <= Rank(p)
    ensures attempts[|attempts| - 1] == p
  {
    var k :| 0 <= k < |attempts| && attempts[k] == p;
    assert attempts[|attempts| - 1] in attempts;
  }

  // One attempt for each part that shutdown tries to stop, none for any other; the engine last.
  lemma {:induction false} EachAttemptedOnce(attempts: seq<Part>, wanted: set<Part>, s: Settings, f: Faults, p: Part)
    requires Attempted(attempts, wanted, Rank(Engine) + 1) && TriesAll(wanted, s, f)
    ensures multiset(attempts)[p] == if Tries(s, f, p) then 1 else 0
    ensures attempts != [] && attempts[|attempts| - 1] == Engine
  {
    OnceAtMost(attempts, p);
    assert p in attempts <==> p in wanted;
    assert Engine in attempts <==> Engine in wanted;
    HighestIsLast(attempts, Engine);
  }

  // Once shutdown runs, the tasks of the audit and of the magic links never survive, whatever
  // else fails, and those of the health probes do exactly when their helper raises after
  // creating them.  Where the start message raises, every task made survives; where startup
  // raises, there is none.
  lemma {:induction false} WhichTasksSurvive(s: Settings, f: Faults, v: Serving, p: Part)
    requires IsTask(p) && Possible(v)
    ensures Survives(s, f, v, p)
            <==> && !StartupRaises(s, f) && Holds(s, f, p)
                 && (StartMessage in f.notices || (p in {ProbeTask, ProbeLoop} && ProbesRaise(s, f) && p !in v.ended))
  {
    assert p !in v.used || OnDemand(p);
  }

  // With settings as they are loaded the probe helper raises after creating a task exactly
  // when the loop is wanted and creating it raises.
  lemma {:induction false} LoadedProbesRaiseIff(s: Settings, f: Faults)
    requires Loaded(s)
    ensures ProbesRaise(s, f) <==> s.probeInterval.seconds > 0.0 && ProbeLoop in f.start
  {
  }

  // The two helpers before the LMS step open nothing.
  predicate OpensNothing(s: Settings, f: Faults) {
    Engine in f.start && (s.neo4j ==> f.neo4jRepo || Neo4j in f.start)
  }

  // The startup helpers open and start nothing.
  predicate NothingStarts(s: Settings, f: Faults) {
    && OpensNothing(s, f) && AuditTask in f.start
    && (s.healthProbes ==> ProbeTask in f.start) && (s.neo4j ==> {RagDriver, GraphRagDriver} <= f.start)
    && (s.lmsIntegration ==> CoursePool in f.start) && (s.mcpClient ==> McpClient in f.start)
    && (s.scheduler ==> Executor in f.start) && (s.livingAgent ==> Heartbeat in f.start)
    && (s.soulBridge ==> SoulBridge in f.start) && (s.magicLink ==> {SessionStore, CleanupTask} <= f.start)
  }

  // The probe helper loses a task that does not end by itself.
  predicate LosesProbes(s: Settings, f: Faults, v: Serving) {
    && s.healthProbes && ProbeTask !in f.start && ProbesRaise(s, f)
    && (ProbeTask !in v.ended || (Positive(s.probeInterval) && ProbeLoop !in f.start + v.ended))
  }

  // Startup opens a driver or a bridge that shutdown is never told of.
  predicate LosesHandles(s: Settings, f: Faults) {
    || (s.neo4j && !({RagDriver, GraphRagDriver} <= f.start))
    || (s.soulBridge && SoulBridge !in f.start && f.soulConnect)
  }

  // Closing raises for no handle in use.
  ghost predicate HandlesClose(s: Settings, f: Faults, v: Serving) {
    forall p :: p in f.stop && InUse(s, f, v, p) ==> IsTask(p)
  }

  lemma {:induction false} NothingHeldIff(s: Settings, f: Faults)
    ensures (forall p :: !Holds(s, f, p)) <==> NothingStarts(s, f)
  {
    if forall p :: !Holds(s, f, p) {
      assert !Holds(s, f, Engine) && !Holds(s, f, Neo4j) && !Holds(s, f, AuditTask) && !Holds(s, f, ProbeTask);
      assert !Holds(s, f, RagDriver) && !Holds(s, f, GraphRagDriver) && !Holds(s, f, CoursePool);
      assert !Holds(s, f, McpClient) && !Holds(s, f, Executor) && !Holds(s, f, Heartbeat) && !Holds(s, f, SoulBridge);
      assert !Holds(s, f, SessionStore) && !Holds(s, f, CleanupTask);
    }
  }

  lemma {:induction false} NothingLeaksIff(s: Settings, f: Faults, v: Serving)
    requires Possible(v)
    ensures (forall p :: !(InUse(s, f, v, p) && Leaks(s, f, p)))
            <==> !LosesProbes(s, f, v) && !LosesHandles(s, f) && HandlesClose(s, f, v)
  {
    assert SoulBridge !in v.ended && RagDriver !in v.ended && GraphRagDriver !in v.ended;
    if forall p :: !(InUse(s, f, v, p) && Leaks(s, f, p)) {
      assert !(InUse(s, f, v, ProbeTask) && Leaks(s, f, ProbeTask));
      assert !(InUse(s, f, v, ProbeLoop) && Leaks(s, f, ProbeLoop));
      assert !(InUse(s, f, v, SoulBridge) && Leaks(s, f, SoulBridge));
      assert !(InUse(s, f, v, RagDriver) && Leaks(s, f, RagDriver));
      assert !(InUse(s, f, v, GraphRagDriver) && Leaks(s, f, GraphRagDriver));
      forall p | p in f.stop && InUse(s, f, v, p) ensures IsTask(p) {
        assert !(InUse(s, f, v, p) && Leaks(s, f, p));
      }
    } else {
      var p :| InUse(s, f, v, p) && Leaks(s, f, p);
      assert p in v.used ==> OnDemand(p);
    }
  }

  lemma {:induction false} NoneLeftIff<T>(a: set<T>, b: set<T>)
    ensures a - b == {} <==> a <= b
  {
    if a - b == {} {
      forall x | x in a ensures x in b {
        assert x !in a - b;
      }
    }
  }

  // When a run leaves nothing live.  If startup raises: when it does so in the observability
  // set-up, or neither the engine nor the driver could be opened.  If the start message raises:
  // when nothing could be started at all.  Otherwise: when the probe helper loses nothing that
  // is still running, no driver or bridge is lost, every handle in use closes, and every
  // recovered job has finished.
  lemma {:induction false} NothingSurvivesIff(s: Settings, f: Faults, jobs: seq<Job>, v: Serving)
    requires Possible(v)
    ensures Survivors(s, f, v) == {} && SurvivingJobs(s, f, jobs, v) == {}
            <==> if StartupRaises(s, f) then f.observability || OpensNothing(s, f)
                 else if StartMessage in f.notices then NothingStarts(s, f)
                 else && !LosesProbes(s, f, v) && !LosesHandles(s, f) && HandlesClose(s, f, v)
                      && Recovered(s, f, jobs) <= v.finished
  {
    NothingHeldIff(s, f);
    NothingLeaksIff(s, f, v);
    NoneLeftIff(Recovered(s, f, jobs), v.finished);
    assert Survivors(s, f, v) == {} <==> forall p :: !Survives(s, f, v, p) by {
      forall p ensures p in Survivors(s, f, v) <==> Survives(s, f, v, p) {
      }
    }
    if StartupRaises(s, f) {
      if forall p :: !Survives(s, f, v, p) {
        assert !Survives(s, f, v, Engine) && !Survives(s, f, v, Neo4j);
      }
    } else if StartMessage in f.notices {
      assert forall p :: Survives(s, f, v, p) <==> Holds(s, f, p);
    } else {
      assert forall p :: Survives(s, f, v, p) <==> InUse(s, f, v, p) && Leaks(s, f, p);
    }
  }

  // ---------------------------------------------------------------- a run of each kind that leaves something

  // A run in which nothing raises leaves exactly the two drivers of the RAG agent, if Neo4j is
  // enabled, and the tasks of the recovered jobs that have not finished.
  lemma {:induction false} FaultFreeRunLeaves(s: Settings, jobs: seq<Job>, v: Serving, p: Part)
    requires Loaded(s) && Possible(v)
    ensures Survives(s, NO_FAULTS, v, p) <==> s.neo4j && p in {RagDriver, GraphRagDriver}
    ensures SurvivingJobs(s, NO_FAULTS, jobs, v)
            == (if s.lmsIntegration then DispatchedTo(jobs, |jobs|) else {}) - v.finished
  {
    LoadedProbesRaiseIff(s, NO_FAULTS);
    assert p in v.ended ==> IsTask(p);
    assert p in v.used ==> OnDemand(p);
  }

  // One job at its outline whose document is there: its task runs on after shutdown.
  lemma {:induction false} RecoveredJobSurvives(s: Settings, v: Serving)
    requires Loaded(s) && Possible(v) && s.lmsIntegration && 0 !in v.finished
    ensures SurvivingJobs(s, NO_FAULTS, [Job("CONVERTING", true, false, false)], v) == {0}
  {
    var jobs := [Job("CONVERTING", true, false, false)];
    FaultFreeRunLeaves(s, jobs, v, Engine);
    assert Dispatches(jobs[0]) && NoneRaises(jobs, 0);
  }

  // LMS integration is off, as by default, and saying so raises: the engine stays open, and
  // the driver of the repository if Neo4j is enabled.
  lemma {:induction false} SkippedLmsNoticeLeaves(s: Settings, v: Serving, p: Part)
    requires !s.lmsIntegration
    ensures Survives(s, NO_FAULTS.(notices := {LmsSkipped}), v, p) <==> p == Engine || (s.neo4j && p == Neo4j)
  {
  }

  // The start message raises: everything that was started stays, the engine at least.
  lemma {:induction false} StartMessageLeaves(s: Settings, jobs: seq<Job>, v: Serving, p: Part)
    ensures Survives(s, NO_FAULTS.(notices := {StartMessage}), v, p) <==> Holds(s, NO_FAULTS, p)
    ensures Survives(s, NO_FAULTS.(notices := {StartMessage}), v, Engine)
    ensures SurvivingJobs(s, NO_FAULTS.(notices := {StartMessage}), jobs, v) == Recovered(s, NO_FAULTS, jobs)
  {
  }

  // Creating the probe loop raises: the probe task that was made before is lost too.
  lemma {:induction false} ProbeLoopFailureLeaves(s: Settings, x: real, v: Serving, p: Part)
    requires Loaded(s) && Possible(v) && s.healthProbes && s.probeInterval == Finite(x) && x > 0.0
    requires ProbeTask !in v.ended
    ensures Survives(s, NO_FAULTS.(start := {ProbeLoop}), v, p)
            <==> p == ProbeTask || Survives(s, NO_FAULTS, v, p)
  {
    LoadedProbesRaiseIff(s, NO_FAULTS);
    assert p in v.used ==> OnDemand(p);
  }

  // Connecting to the peers raises: the initialised bridge is lost too.
  lemma {:induction false} SoulConnectFailureLeaves(s: Settings, v: Serving, p: Part)
    requires Loaded(s) && Possible(v) && s.soulBridge
    ensures Survives(s, NO_FAULTS.(soulConnect := true), v, p)
            <==> p == SoulBridge || Survives(s, NO_FAULTS, v, p)
  {
    LoadedProbesRaiseIff(s, NO_FAULTS.(soulConnect := true));
    assert SoulBridge !in v.ended;
    assert p in v.used ==> OnDemand(p);
  }
}
