/** The other side of convergence: what a quiet call needs, and boots on which the loop never ends. */
module Endless {
  import opened Wrappers
  import opened Placeholder
  import opened EnvList
  import opened Types
  import opened BootOps
  import opened Defaulter
  import opened DefaulterLaws
  import opened Workloads
  import W = WorkloadLaws
  import S = Services
  import L = ServiceLaws
  import H = Autoscaler
  import opened Cluster
  import opened StageLaws
  import opened Convergence
  import opened Starting

  /** A call on stored objects that succeeds without a write implies that no compared field is
      explicitly empty, that the metrics are consistent and that no expected name is taken. */
  lemma QuietNeeds(s: State, cfg: Config, alloc: S.Allocator)
    requires WellFormedState(s) && ConfigComplete(cfg) && OwnNames(s, cfg)
    requires forall k :: k in s.workloads ==> W.IsStored(s.workloads[k].template)
    requires var call := Reconcile(s, cfg, alloc); !call.failed && !call.written
    ensures W.FieldsNormal(s.boot.spec) && MetricsSettle(s.boot.spec) && Kind(s) in s.workloads
    ensures S.NoForeignHolder(s.services, s.boot, cfg, Expected(s.boot, cfg, s.workloads[Kind(s)]))
  {
    NoDefaultsNeeded(s.boot, cfg);
    ConvergeNeeds(s, cfg, alloc);
  }

  lemma ConvergeNeeds(s: State, cfg: Config, alloc: S.Allocator)
    requires WellFormedState(s) && ConfigComplete(cfg) && OwnNames(s, cfg) && DefaultsSet(s.boot.spec)
    requires forall k :: k in s.workloads ==> W.IsStored(s.workloads[k].template)
    requires var call := Converge(s, cfg, alloc); !call.failed && !call.written
    ensures W.FieldsNormal(s.boot.spec) && MetricsSettle(s.boot.spec) && Kind(s) in s.workloads
    ensures S.NoForeignHolder(s.services, s.boot, cfg, Expected(s.boot, cfg, s.workloads[Kind(s)]))
  {
    var w := s.workloads[Kind(s)];
    ReadyForServices(s, cfg);
    if !W.FieldsNormal(s.boot.spec) && !Undecodable(s.boot) { W.ExplicitEmptyNeverSettles(w, s.boot, cfg, s.claims); }
    assert s.(services := AppUpdated(s, cfg, alloc)) == s;
    if !MetricsSettle(s.boot.spec) && s.hpa.Some? {
      H.InconsistentDiffers(s.boot.spec.hpa.value.metrics, s.hpa.value.metrics);
    }
  }

  // --------------------------------------------------------------------------
  // Endless rolling updates.

  /** Reasons for which every rebuilt workload is rebuilt again: a list such as `command: []`, or a
      mount record that differs from the built container in a claim of the boot (say, since the
      configured mounts changed under unchanged claims). */
  ghost predicate Hopeless(boot: Boot, cfg: Config, claims: Claims) {
    !W.FieldsNormal(boot.spec) || VolumesDiffer(NewAppContainer(boot, cfg).mounts, boot, claims)
  }

  lemma HopelessStaysWritten(w: WorkloadObject, boot: Boot, cfg: Config, claims: Claims)
    requires OverridesWellFormed(cfg) && boot.spec.replicas.Some? && !Undecodable(boot)
    requires Hopeless(boot, cfg, claims)
    requires w == StoredWorkload(NewWorkload(boot, cfg))
    ensures UpdatedWorkload(w, boot, cfg, claims) == Updated(w, true, false)
  {
  }

  /** Defaults are set, the workload is as the operator built it, and it does not pass the check. */
  ghost predicate Rolling(s: State, cfg: Config) {
    && WellFormedState(s) && ConfigComplete(cfg) && OwnNames(s, cfg) && OverridesWellFormed(cfg)
    && !NeedsDefaults(s.boot, cfg) && !Missing(s)
    && s.boot.spec.replicas.Some? && !Undecodable(s.boot)
    && s.workloads[Kind(s)] == StoredWorkload(NewWorkload(s.boot, cfg))
    && Hopeless(s.boot, cfg, s.claims)
  }

  /** From there every call writes and changes nothing: the rolling update never ends. */
  lemma RollingForever(s: State, cfg: Config, alloc: S.Allocator)
    requires Rolling(s, cfg)
    ensures Reconcile(s, cfg, alloc) == Call(s, true, false)
  {
    NoDefaultsNeeded(s.boot, cfg);
    HopelessStaysWritten(s.workloads[Kind(s)], s.boot, cfg, s.claims);
    SameWorkloadWritten(s, cfg, alloc);
  }

  lemma SameWorkloadWritten(s: State, cfg: Config, alloc: S.Allocator)
    requires WellFormedState(s) && ConfigComplete(cfg) && OwnNames(s, cfg)
    requires DefaultsSet(s.boot.spec) && !Missing(s)
    requires UpdatedWorkload(s.workloads[Kind(s)], s.boot, cfg, s.claims) == Updated(s.workloads[Kind(s)], true, false)
    ensures Converge(s, cfg, alloc) == Call(s, true, false)
  {
    assert s.workloads[Kind(s) := s.workloads[Kind(s)]] == s.workloads;
  }

  // --------------------------------------------------------------------------
  // Such boots exist.

  /** A choice of node ports. */
  function SomePorts(): S.Allocator {
    (name: string, i: nat) => 30000
  }

  /** The state in which the operator has built the workload and the app service, and nothing else. */
  function JustBuilt(boot: Boot, cfg: Config, claims: Claims): State
    requires boot.spec.replicas.Some? && S.ScrapeKnown(boot.spec, cfg)
  {
    State(boot, map[EffectiveWorkload(boot.spec.workload) := StoredWorkload(NewWorkload(boot, cfg))],
          map[boot.name := S.StoredService(S.AppService(boot, cfg), SomePorts())], None, claims, [], 0, 0)
  }

  lemma JustBuiltIsWorkable(boot: Boot, cfg: Config, claims: Claims)
    requires OverridesWellFormed(cfg) && ConfigComplete(cfg) && boot.spec.replicas.Some?
    requires S.DistinctNames(S.NewServices(boot, cfg, cfg.sidecars))
    ensures Workable(JustBuilt(boot, cfg, claims), cfg) && !Missing(JustBuilt(boot, cfg, claims))
  {
    var app := S.StoredService(S.AppService(boot, cfg), SomePorts());
    AppIsStored(boot, cfg);
    NoneForeign(boot, cfg, app, cfg.sidecars);
    BuiltIsStored(boot, cfg, map[boot.name := app]);
    OneEachIsSane(JustBuilt(boot, cfg, claims), cfg, EffectiveWorkload(boot.spec.workload),
                  StoredWorkload(NewWorkload(boot, cfg)), app);
  }

  lemma OneEachIsSane(s: State, cfg: Config, kind: Workload, w: WorkloadObject, app: S.Service)
    requires cfg.prometheusScrape.Some?
    requires s.workloads == map[kind := w] && s.services == map[app.name := app] && s.hpa.None?
    requires W.IsStored(w.template) && S.IsStored(app)
    requires NamesFree(s.boot, cfg, s.services, cfg.sidecars)
    requires NamesFree(s.boot, cfg, s.services, w.template.containers[1..])
    ensures SaneObjects(s, cfg)
  {
  }

  /** The built workload is stored as such, and its sidecars have free names. */
  lemma BuiltIsStored(boot: Boot, cfg: Config, services: S.ServiceMap)
    requires OverridesWellFormed(cfg) && ConfigComplete(cfg) && boot.spec.replicas.Some?
    requires NamesFree(boot, cfg, services, cfg.sidecars)
    ensures var t := StoredWorkload(NewWorkload(boot, cfg)).template;
            W.IsStored(t) && NamesFree(boot, cfg, services, t.containers[1..])
  {
    BuiltServices(boot, cfg);
    W.StoringTwice(NewTemplate(boot, cfg));
  }

  lemma AppIsStored(boot: Boot, cfg: Config)
    requires cfg.prometheusScrape.Some?
    ensures var app := S.StoredService(S.AppService(boot, cfg), SomePorts()); app.name == boot.name && S.IsStored(app)
  {
    L.NewServicesExpected(boot, cfg, []);
    L.CreatedIsStored(S.AppService(boot, cfg), SomePorts(), boot, cfg);
  }

  lemma NoneForeign(boot: Boot, cfg: Config, app: S.Service, sidecars: seq<Container>)
    requires cfg.prometheusScrape.Some? && S.DistinctNames(S.NewServices(boot, cfg, sidecars))
    ensures NamesFree(boot, cfg, map[boot.name := app], sidecars)
  {
  }

  function WithEmptyCommand(boot: Boot): Boot {
    boot.(spec := boot.spec.(command := Some([])))
  }

  /** Whatever boot has its defaults set: give it `command: []`, and its rolling update never ends. */
  lemma EmptyCommandRolls(boot: Boot, cfg: Config, claims: Claims)
    requires OverridesWellFormed(cfg) && ConfigComplete(cfg)
    requires !NeedsDefaults(boot, cfg) && !Undecodable(boot)
    requires S.DistinctNames(S.NewServices(boot, cfg, cfg.sidecars))
    ensures var rolling := WithEmptyCommand(boot);
            DefaultsSet(rolling.spec) && Rolling(JustBuilt(rolling, cfg, claims), cfg)
  {
    var rolling := WithEmptyCommand(boot);
    QuietExactly(boot, cfg);
    QuietWithCommand(boot, cfg);
    QuietExactly(rolling, cfg);
    NoDefaultsNeeded(rolling, cfg);
    NamesStayFree(boot, rolling, cfg, map[], cfg.sidecars);
    JustBuiltIsWorkable(rolling, cfg, claims);
    WorkableIsWellFormed(JustBuilt(rolling, cfg, claims), cfg);
  }

  lemma QuietWithCommand(boot: Boot, cfg: Config)
    requires Quiet(boot, cfg)
    ensures Quiet(WithEmptyCommand(boot), cfg)
  {
  }

  lemma DefaultedBootRolls(boot: Boot, cfg: Config)
    requires WellFormedConfig(cfg) && MountsKept(boot, cfg)
    requires S.DistinctNames(S.NewServices(boot, cfg, cfg.sidecars))
    ensures exists s: State, c: Config :: Rolling(s, c)
  {
    var once := SetDefaults(boot, cfg);
    OutcomeHolds(boot, cfg);
    DefaultedKeepsMounts(boot, cfg, once);
    DefaultingIsFixpoint(boot, cfg);
    KeptByDefaults(boot, cfg, once);
    NamesStayFree(boot, once, cfg, map[], cfg.sidecars);
    EmptyCommandRolls(once, cfg, map[]);
  }

  /** One with its defaults set by a plain configuration and `command: []`. */
  lemma SomeStateRolls()
    ensures exists s: State, cfg: Config :: Rolling(s, cfg)
  {
    var boot, cfg := BlankBoot(), PlainConfig();
    assert Safe(boot.name) && Safe(cfg.operEnv);
    PlainMountsAreKept(boot, cfg);
    DefaultedBootRolls(boot, cfg);
  }
}
