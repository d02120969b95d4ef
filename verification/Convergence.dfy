/** The whole loop settles: every call that writes lowers a rank of at most nine, so at most nine calls
    write, and the state then agrees with the boot. */
module Convergence {
  import opened Wrappers
  import opened Strconv
  import opened Placeholder
  import opened EnvList
  import opened Types
  import opened BootOps
  import opened Defaulter
  import opened DefaulterLaws
  import opened Workloads
  import W = WorkloadLaws
  import S = Services
  import L = ServiceLaws
  import opened RevisionLog
  import H = Autoscaler
  import opened Cluster
  import opened StageLaws
  import opened LateLaws

  // --------------------------------------------------------------------------
  // The services stage on a whole state.

  /** The services expected by the workload that is there. */
  function Wanted(s: State, cfg: Config): seq<S.Service>
    requires S.ScrapeKnown(s.boot.spec, cfg) && Kind(s) in s.workloads && |s.workloads[Kind(s)].template.containers| > 0
  {
    Expected(s.boot, cfg, s.workloads[Kind(s)])
  }

  ghost predicate PassPending(s: State, cfg: Config)
    requires ServicesReady(s, cfg)
  {
    S.PassWrites(s.services, s.boot, cfg, Wanted(s, cfg))
  }

  ghost predicate ServicesAligned(s: State, cfg: Config)
    requires ServicesReady(s, cfg)
  {
    L.AllExpected(Wanted(s, cfg), s.boot, cfg) && L.AllAligned(s.services, s.boot, cfg, Wanted(s, cfg))
  }

  lemma ServicesAreReady(s: State, cfg: Config)
    requires Behind(s, cfg) && !Missing(s)
    ensures ServicesReady(s, cfg)
    ensures L.Ready(s.services, s.boot, cfg, Wanted(s, cfg))
  {
    ReadyForServices(s, cfg);
    L.NewServicesExpected(s.boot, cfg, s.workloads[Kind(s)].template.containers[1..]);
  }

  /** The state with the app service repaired. */
  ghost function AppFixed(s: State, cfg: Config, alloc: S.Allocator): State
    requires ServicesReady(s, cfg)
  {
    s.(services := AppUpdated(s, cfg, alloc))
  }

  lemma AppStored(s: State, cfg: Config, app: S.Service)
    requires Behind(s, cfg) && !Missing(s) && ServicesReady(s, cfg)
    requires S.IsStored(app) && app.name == s.boot.name && app.labels == s.services[s.boot.name].labels
    ensures var next := s.(services := s.services[s.boot.name := app]);
            && Behind(next, cfg) && !Missing(next) && ServicesReady(next, cfg)
            && PassPending(next, cfg) == PassPending(s, cfg)
            && ServicesAligned(next, cfg) == ServicesAligned(s, cfg)
  {
    ServicesAreReady(s, cfg);
    L.AppReplaced(s.services, s.boot, cfg, Wanted(s, cfg), app);
    ServicesReplaced(s, cfg, s.services[s.boot.name := app]);
  }

  lemma AppStep(s: State, cfg: Config, alloc: S.Allocator)
    requires Behind(s, cfg) && !Missing(s) && ServicesReady(s, cfg)
    ensures var app := AppFixed(s, cfg, alloc);
            && Behind(app, cfg) && !Missing(app) && ServicesReady(app, cfg)
            && !AppDiffers(app, cfg)
            && PassPending(app, cfg) == PassPending(s, cfg)
            && ServicesAligned(app, cfg) == ServicesAligned(s, cfg)
            && (app != s ==> AppDiffers(s, cfg))
  {
    if AppDiffers(s, cfg) {
      L.AppFixIsLast(s.services[s.boot.name], s.boot, cfg, alloc);
      AppStored(s, cfg, S.StoredService(S.FixApp(s.services[s.boot.name], s.boot, cfg).service, alloc));
    }
  }

  lemma PassKeepsLabels(services: S.ServiceMap, boot: Boot, cfg: Config, expected: seq<S.Service>, alloc: S.Allocator)
    requires L.Ready(services, boot, cfg, expected)
    ensures LabelsKept(services, S.Pass(services, boot, cfg, expected, alloc), boot, cfg)
  {
  }

  /** A pass from a state whose app service is in order. */
  lemma PassStep(s: State, cfg: Config, alloc: S.Allocator)
    requires Behind(s, cfg) && !Missing(s) && ServicesReady(s, cfg) && !AppDiffers(s, cfg)
    ensures var next := s.(services := S.Pass(s.services, s.boot, cfg, Wanted(s, cfg), alloc));
            && Behind(next, cfg) && !Missing(next) && ServicesReady(next, cfg)
            && !AppDiffers(next, cfg) && ServicesAligned(next, cfg)
            && (ServicesAligned(s, cfg) ==> !PassPending(next, cfg))
  {
    ServicesAreReady(s, cfg);
    var expected := Wanted(s, cfg);
    PassKeepsLabels(s.services, s.boot, cfg, expected, alloc);
    L.OnePassAligns(s.services, s.boot, cfg, expected, alloc);
    if ServicesAligned(s, cfg) { L.SecondPassIsLast(s.services, s.boot, cfg, expected, alloc); }
    ServicesReplaced(s, cfg, S.Pass(s.services, s.boot, cfg, expected, alloc));
  }

  lemma NoPassIsAligned(s: State, cfg: Config, alloc: S.Allocator)
    requires Behind(s, cfg) && !Missing(s) && ServicesReady(s, cfg) && !PassPending(s, cfg)
    ensures ServicesAligned(s, cfg)
  {
    ServicesAreReady(s, cfg);
    L.QuietPass(s.services, s.boot, cfg, Wanted(s, cfg), alloc);
  }

  // --------------------------------------------------------------------------
  // The rank behind defaulting.

  ghost function ServiceRank(s: State, cfg: Config): (rank: nat)
    requires ServicesReady(s, cfg) && DefaultsSet(s.boot.spec)
    ensures rank <= 5
    ensures !AppDiffers(s, cfg) && !PassPending(s, cfg) ==> rank == LateRank(s, cfg)
    ensures ServicesAligned(s, cfg) ==> rank <= 4
  {
    if AppDiffers(s, cfg) || PassPending(s, cfg) then (if ServicesAligned(s, cfg) then 4 else 5)
    else LateRank(s, cfg)
  }

  ghost function StageRank(s: State, cfg: Config): (rank: nat)
    requires Behind(s, cfg)
    ensures rank <= 7
    ensures !Missing(s) ==> rank <= 6
    ensures !Missing(s) && !Checked(s, cfg).written ==>
              rank <= 5 && ServicesReady(s, cfg) && rank == ServiceRank(s, cfg)
  {
    if Missing(s) then 7
    else if Checked(s, cfg).written then 6
    else
      ServicesAreReady(s, cfg);
      ServiceRank(s, cfg)
  }

  lemma SameWrites(services: S.ServiceMap, a: Boot, b: Boot, cfg: Config, expected: seq<S.Service>)
    requires a.name == b.name && L.Ready(services, a, cfg, expected)
    ensures L.Ready(services, b, cfg, expected)
    ensures S.PassWrites(services, a, cfg, expected) <==> S.PassWrites(services, b, cfg, expected)
  {
  }

  lemma LateKeepsObjects(s: State, cfg: Config, next: State)
    requires Behind(s, cfg) && LateOnly(s, next)
    ensures Behind(next, cfg)
    ensures !Missing(s) ==> !Missing(next)
  {
    ObjectsStaySane(s, cfg, s.(boot := next.boot));
  }

  /** What the late stages write of a checkable boot is invisible to the stages before. */
  lemma LateKeepsChecked(s: State, cfg: Config, next: State)
    requires Behind(s, cfg) && !Missing(s) && LateOnly(s, next) && W.Checkable(s.boot, cfg, s.claims)
    ensures Behind(next, cfg) && !Missing(next) && W.Checkable(next.boot, cfg, next.claims)
    ensures Checked(next, cfg).written == Checked(s, cfg).written
  {
    LateKeepsObjects(s, cfg, next);
    LateKeepsVerdict(s.workloads[Kind(s)].template, s.boot, next.boot, cfg, s.claims);
  }

  lemma LateKeepsServices(s: State, cfg: Config, next: State)
    requires Behind(s, cfg) && !Missing(s) && LateOnly(s, next)
    requires Behind(next, cfg) && !Missing(next)
    ensures ServicesReady(s, cfg) && ServicesReady(next, cfg)
    ensures AppDiffers(next, cfg) == AppDiffers(s, cfg)
    ensures PassPending(next, cfg) == PassPending(s, cfg)
  {
    ServicesAreReady(s, cfg);
    ServicesAreReady(next, cfg);
    MetaKeepsServices(s.boot, next.boot, cfg, s.workloads[Kind(s)].template.containers[1..]);
    SameWrites(s.services, s.boot, next.boot, cfg, Wanted(s, cfg));
  }

  /** The boot needs no defaults, now or when the API server returns it, its workload can pass the
      check, and its metrics settle. */
  ghost predicate Settleable(boot: Boot, cfg: Config, claims: Claims) {
    Lasting(boot, cfg) && W.Checkable(boot, cfg, claims) && MetricsSettle(boot.spec)
  }

  /** The late stages from a state whose services are in order. */
  lemma LateStep(s: State, cfg: Config)
    requires Behind(s, cfg) && !Missing(s) && !Checked(s, cfg).written
    requires ServicesReady(s, cfg) && !AppDiffers(s, cfg) && !PassPending(s, cfg)
    requires W.Checkable(s.boot, cfg, s.claims) && MetricsSettle(s.boot.spec)
    ensures var late := LateStages(s, cfg);
            && !late.failed && LateOnly(s, late.state) && Behind(late.state, cfg)
            && (late.written ==> StageRank(late.state, cfg) < LateRank(s, cfg))
            && (!late.written ==> late.state == s && LateRank(s, cfg) == 0)
            && StageRank(late.state, cfg) <= 3
  {
    LateStage(s, cfg);
    var next := LateStages(s, cfg).state;
    LateKeepsChecked(s, cfg, next);
    LateKeepsServices(s, cfg, next);
  }

  /** The services stage with all that follows. */
  lemma ServicesStep(s: State, cfg: Config, alloc: S.Allocator)
    requires Behind(s, cfg) && !Missing(s) && !Checked(s, cfg).written && ServicesReady(s, cfg)
    requires W.Checkable(s.boot, cfg, s.claims) && MetricsSettle(s.boot.spec)
    ensures var call := ServiceStages(s, cfg, alloc);
            && !call.failed && Behind(call.state, cfg) && MetaOnly(s.boot, call.state.boot)
            && call.state.claims == s.claims
            && (call.written ==> StageRank(call.state, cfg) < ServiceRank(s, cfg))
            && (!call.written ==> call.state == s && ServiceRank(s, cfg) == 0)
  {
    ServicesAreReady(s, cfg);
    var app := AppFixed(s, cfg, alloc);
    AppStep(s, cfg, alloc);
    ServicesAreReady(app, cfg);
    if PassPending(app, cfg) {
      PassStep(app, cfg, alloc);
    } else {
      NoPassIsAligned(s, cfg, alloc);
      LateStep(app, cfg);
    }
  }

  lemma ConvergeStep(s: State, cfg: Config, alloc: S.Allocator)
    requires Behind(s, cfg) && W.Checkable(s.boot, cfg, s.claims) && MetricsSettle(s.boot.spec)
    ensures WellFormedState(s) && OwnNames(s, cfg)
    ensures var call := Converge(s, cfg, alloc);
            && !call.failed && Behind(call.state, cfg) && MetaOnly(s.boot, call.state.boot)
            && call.state.claims == s.claims
            && (call.written ==> StageRank(call.state, cfg) < StageRank(s, cfg))
            && (!call.written ==> call.state == s && StageRank(s, cfg) == 0)
  {
    WorkableIsWellFormed(s, cfg);
    if Missing(s) {
      CreateStage(s, cfg, alloc);
    } else {
      ServicesAreReady(s, cfg);
      UpdateStep(s, cfg, alloc);
    }
  }

  lemma UpdateStep(s: State, cfg: Config, alloc: S.Allocator)
    requires Behind(s, cfg) && !Missing(s) && ServicesReady(s, cfg)
    requires W.Checkable(s.boot, cfg, s.claims) && MetricsSettle(s.boot.spec)
    ensures var call := UpdateStages(s, cfg, alloc);
            && !call.failed && Behind(call.state, cfg) && MetaOnly(s.boot, call.state.boot)
            && call.state.claims == s.claims
            && (call.written ==> StageRank(call.state, cfg) < StageRank(s, cfg))
            && (!call.written ==> call.state == s && StageRank(s, cfg) == 0)
  {
    MetaItself(s.boot);
    WorkloadStep(s, cfg);
    if !Checked(s, cfg).written { ServicesStep(s, cfg, alloc); }
  }

  lemma MetaItself(boot: Boot)
    ensures MetaOnly(boot, boot)
  {
  }

  lemma WorkloadStep(s: State, cfg: Config)
    requires Behind(s, cfg) && !Missing(s) && W.Checkable(s.boot, cfg, s.claims)
    ensures !Checked(s, cfg).failed
    ensures var next := s.(workloads := s.workloads[Kind(s) := Checked(s, cfg).workload]);
            Behind(next, cfg) && (Checked(s, cfg).written ==> StageRank(next, cfg) < StageRank(s, cfg))
  {
    WorkloadStage(s, cfg);
  }

  // --------------------------------------------------------------------------
  // What every call keeps, whatever boot it works on.

  lemma ServicesStay(s: State, cfg: Config, alloc: S.Allocator)
    requires Behind(s, cfg) && !Missing(s) && ServicesReady(s, cfg)
    ensures var call := ServiceStages(s, cfg, alloc);
            && !call.failed && Behind(call.state, cfg)
            && MetaOnly(s.boot, call.state.boot) && call.state.claims == s.claims
  {
    ServicesAreReady(s, cfg);
    var app := AppFixed(s, cfg, alloc);
    AppStep(s, cfg, alloc);
    ServicesAreReady(app, cfg);
    if PassPending(app, cfg) {
      PassStep(app, cfg, alloc);
    } else {
      LateShape(app, cfg);
      LateKeepsObjects(app, cfg, LateStages(app, cfg).state);
    }
  }

  lemma ConvergeStays(s: State, cfg: Config, alloc: S.Allocator)
    requires Behind(s, cfg)
    ensures WellFormedState(s) && OwnNames(s, cfg)
    ensures var call := Converge(s, cfg, alloc);
            Behind(call.state, cfg) && MetaOnly(s.boot, call.state.boot) && call.state.claims == s.claims
  {
    WorkableIsWellFormed(s, cfg);
    if Missing(s) {
      CreateStage(s, cfg, alloc);
    } else {
      ServicesAreReady(s, cfg);
      UpdateStays(s, cfg, alloc);
    }
  }

  lemma UpdateStays(s: State, cfg: Config, alloc: S.Allocator)
    requires Behind(s, cfg) && !Missing(s) && ServicesReady(s, cfg)
    ensures var call := UpdateStages(s, cfg, alloc);
            Behind(call.state, cfg) && MetaOnly(s.boot, call.state.boot) && call.state.claims == s.claims
  {
    MetaItself(s.boot);
    if Checked(s, cfg).failed || Checked(s, cfg).written {
      WorkloadStays(s, cfg);
    } else {
      ServicesStay(s, cfg, alloc);
    }
  }

  /** The boot the defaulting stage writes. */
  function Written(boot: Boot, cfg: Config): Boot {
    Stored(SetDefaults(boot, cfg))
  }

  lemma ReconcileStays(s: State, cfg: Config, alloc: S.Allocator)
    requires Workable(s, cfg)
    ensures WellFormedState(s) && ConfigComplete(cfg) && OwnNames(s, cfg)
    ensures Workable(Reconcile(s, cfg, alloc).state, cfg)
  {
    WorkableIsWellFormed(s, cfg);
    if NeedsDefaults(s.boot, cfg) {
      DefaultsStay(s, cfg);
    } else {
      NoDefaultsNeeded(s.boot, cfg);
      ConvergeStays(s, cfg, alloc);
    }
  }

  lemma DefaultsStay(s: State, cfg: Config)
    requires Workable(s, cfg)
    ensures Workable(s.(boot := Written(s.boot, cfg)), cfg)
  {
    OutcomeHolds(s.boot, cfg);
    KeptByDefaults(s.boot, cfg, SetDefaults(s.boot, cfg));
    ObjectsStaySane(s, cfg, s.(boot := Written(s.boot, cfg)));
  }

  lemma KeptByDefaults(boot: Boot, cfg: Config, once: Boot)
    requires Outcome(boot, cfg, once)
    ensures once.name == boot.name && once.spec.nodePort == boot.spec.nodePort
  {
  }

  lemma ObjectsStaySane(s: State, cfg: Config, next: State)
    requires cfg.prometheusScrape.Some? && SaneObjects(s, cfg)
    requires next == s.(boot := next.boot)
    requires next.boot.name == s.boot.name && next.boot.spec.nodePort == s.boot.spec.nodePort
    ensures SaneObjects(next, cfg)
  {
    NamesStayFree(s.boot, next.boot, cfg, s.services, cfg.sidecars);
    forall k | k in s.workloads
      ensures NamesFree(next.boot, cfg, s.services, s.workloads[k].template.containers[1..])
    {
      NamesStayFree(s.boot, next.boot, cfg, s.services, s.workloads[k].template.containers[1..]);
    }
  }

  /** Successive calls, each with its own choice of node ports. */
  ghost function After(s: State, cfg: Config, allocs: seq<S.Allocator>): (r: State)
    requires Workable(s, cfg)
    ensures Workable(r, cfg)
    decreases |allocs|
  {
    if allocs == [] then s
    else
      ReconcileStays(s, cfg, allocs[0]);
      After(Reconcile(s, cfg, allocs[0]).state, cfg, allocs[1..])
  }

  lemma FirstCall(s: State, cfg: Config, allocs: seq<S.Allocator>)
    requires Workable(s, cfg) && allocs != []
    ensures WellFormedState(s) && ConfigComplete(cfg) && OwnNames(s, cfg)
    ensures Workable(Reconcile(s, cfg, allocs[0]).state, cfg)
    ensures After(s, cfg, allocs) == After(Reconcile(s, cfg, allocs[0]).state, cfg, allocs[1..])
  {
    ReconcileStays(s, cfg, allocs[0]);
  }

  /** How many of the calls write. */
  ghost function Writes(s: State, cfg: Config, allocs: seq<S.Allocator>): nat
    requires Workable(s, cfg)
    decreases |allocs|
  {
    if allocs == [] then 0
    else
      ReconcileStays(s, cfg, allocs[0]);
      var call := Reconcile(s, cfg, allocs[0]);
      (if call.written then 1 else 0) + Writes(call.state, cfg, allocs[1..])
  }

  // --------------------------------------------------------------------------
  // Where the loop may start.

  /** The boot the defaulting stage ends with: two rounds at most, the second one when the first write
      dropped an explicitly empty list or changed the port of the mounts. */
  function Final(boot: Boot, cfg: Config): Boot {
    if !NeedsDefaults(boot, cfg) then boot
    else if !NeedsDefaults(Written(boot, cfg), cfg) then Written(boot, cfg)
    else Written(Written(boot, cfg), cfg)
  }

  /** Everything is said of the boot with its defaults set, to be computed from boot and configuration. */
  ghost predicate SaneBoot(boot: Boot, cfg: Config, claims: Claims) {
    && (NeedsDefaults(boot, cfg) ==> DefaultsWellFormed(cfg))
    && Settleable(Final(boot, cfg), cfg, claims)
  }

  ghost predicate Sane(s: State, cfg: Config) {
    Workable(s, cfg) && SaneBoot(s.boot, cfg, s.claims)
  }

  lemma LastingIsQuiet(boot: Boot, cfg: Config)
    requires Lasting(boot, cfg)
    ensures !NeedsDefaults(boot, cfg)
  {
    QuietExactly(boot, cfg);
  }

  lemma SaneWritten(boot: Boot, cfg: Config, claims: Claims)
    requires SaneBoot(boot, cfg, claims) && NeedsDefaults(boot, cfg)
    ensures SaneBoot(Written(boot, cfg), cfg, claims)
    ensures NeedsDefaults(Written(boot, cfg), cfg) ==> !NeedsDefaults(Written(Written(boot, cfg), cfg), cfg)
  {
    LastingIsQuiet(Final(boot, cfg), cfg);
  }

  lemma DefaultedIsBehind(s: State, cfg: Config)
    requires Sane(s, cfg) && !NeedsDefaults(s.boot, cfg)
    ensures Behind(s, cfg) && Settleable(s.boot, cfg, s.claims)
  {
    NoDefaultsNeeded(s.boot, cfg);
  }

  /** Behind defaulting the boot stays as good as it is. */
  lemma BehindStaysSane(s: State, cfg: Config, next: State)
    requires Behind(s, cfg) && Settleable(s.boot, cfg, s.claims)
    requires Behind(next, cfg) && MetaOnly(s.boot, next.boot) && next.claims == s.claims
    ensures Sane(next, cfg) && !NeedsDefaults(next.boot, cfg)
  {
    MetaKeepsLasting(s.boot, next.boot, cfg);
    LastingIsQuiet(next.boot, cfg);
    MetaKeepsSettling(s.boot, next.boot, cfg, s.claims);
  }

  lemma MetaKeepsSettling(a: Boot, b: Boot, cfg: Config, claims: Claims)
    requires MetaOnly(a, b) && W.Checkable(a, cfg, claims)
    ensures W.Checkable(b, cfg, claims) && MetricsSettle(a.spec) == MetricsSettle(b.spec)
  {
    StoringKeepsCheckable(a, cfg, claims);
    MetaKeepsCheckable(if MetaSame(a, b) then a else Stored(a), b, cfg, claims);
  }

  // --------------------------------------------------------------------------
  // The whole loop.

  /** How far the state is from settled: the first stage that still has something to write. */
  ghost function Rank(s: State, cfg: Config): (rank: nat)
    requires Sane(s, cfg)
    ensures rank <= 9
    ensures NeedsDefaults(s.boot, cfg) <==> rank >= 8
  {
    if NeedsDefaults(s.boot, cfg) then (if NeedsDefaults(Written(s.boot, cfg), cfg) then 9 else 8)
    else
      DefaultedIsBehind(s, cfg);
      StageRank(s, cfg)
  }

  lemma DefaultsStage(s: State, cfg: Config)
    requires Sane(s, cfg) && NeedsDefaults(s.boot, cfg)
    ensures var next := WriteBoot(s, SetDefaults(s.boot, cfg));
            Sane(next, cfg) && Rank(next, cfg) < Rank(s, cfg)
  {
    DefaultsStay(s, cfg);
    SaneWritten(s.boot, cfg, s.claims);
  }

  /** Main result: from every sane state a call succeeds and leaves a sane state; if it writes, the
      rank falls, and if it does not, nothing has changed and the rank is zero. */
  lemma ReconcileLowersRank(s: State, cfg: Config, alloc: S.Allocator)
    requires Sane(s, cfg)
    ensures WellFormedState(s) && ConfigComplete(cfg) && OwnNames(s, cfg)
    ensures var call := Reconcile(s, cfg, alloc);
            && !call.failed && Sane(call.state, cfg)
            && (call.written ==> Rank(call.state, cfg) < Rank(s, cfg))
            && (!call.written ==> call.state == s && Rank(s, cfg) == 0)
  {
    WorkableIsWellFormed(s, cfg);
    if NeedsDefaults(s.boot, cfg) {
      DefaultsStage(s, cfg);
    } else {
      DefaultedIsBehind(s, cfg);
      ConvergeStep(s, cfg, alloc);
      BehindStaysSane(s, cfg, Converge(s, cfg, alloc).state);
    }
  }

  lemma {:induction false} WritesWithinRank(s: State, cfg: Config, allocs: seq<S.Allocator>)
    requires Sane(s, cfg)
    ensures Writes(s, cfg, allocs) <= Rank(s, cfg)
    decreases |allocs|
  {
    if allocs != [] {
      ReconcileLowersRank(s, cfg, allocs[0]);
      WritesWithinRank(Reconcile(s, cfg, allocs[0]).state, cfg, allocs[1..]);
    }
  }

  lemma {:induction false} RankRunsOut(s: State, cfg: Config, allocs: seq<S.Allocator>)
    requires Sane(s, cfg)
    ensures Sane(After(s, cfg, allocs), cfg)
    ensures |allocs| >= Rank(s, cfg) ==> Rank(After(s, cfg, allocs), cfg) == 0
    decreases |allocs|
  {
    if allocs != [] {
      FirstCall(s, cfg, allocs);
      ReconcileLowersRank(s, cfg, allocs[0]);
      RankRunsOut(Reconcile(s, cfg, allocs[0]).state, cfg, allocs[1..]);
    }
  }

  /** Main result: however often the loop is called, at most nine calls write, and after nine calls
      none does. */
  lemma NineCallsSettle(s: State, cfg: Config, allocs: seq<S.Allocator>)
    requires Sane(s, cfg)
    ensures Writes(s, cfg, allocs) <= Rank(s, cfg) <= 9
    ensures Sane(After(s, cfg, allocs), cfg)
    ensures |allocs| >= 9 ==> Rank(After(s, cfg, allocs), cfg) == 0
  {
    WritesWithinRank(s, cfg, allocs);
    RankRunsOut(s, cfg, allocs);
  }
}
