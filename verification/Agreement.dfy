/** What a settled state looks like: a call writes nothing exactly when workload, services,
    autoscaler, status, revision phase and annotations agree with the boot. */
module Agreement {
  import opened Wrappers
  import opened Strconv
  import opened EnvList
  import opened Types
  import opened BootOps
  import opened Defaulter
  import opened DefaulterLaws
  import opened Workloads
  import W = WorkloadLaws
  import S = Services
  import L = ServiceLaws
  import opened RevisionLog
  import H = Autoscaler
  import opened Cluster
  import opened StageLaws
  import opened LateLaws
  import opened Convergence

  // --------------------------------------------------------------------------
  // Object by object.

  /** A probe on the wanted path, or none when there is no path. */
  predicate ProbeAgrees(probe: Option<Probe>, path: string) {
    if path == "" then probe.None? else probe.Some? && probe.value.path == path
  }

  ghost predicate WorkloadAgrees(w: WorkloadObject, boot: Boot, cfg: Config, claims: Claims)
    requires |w.template.containers| > 0 && boot.spec.replicas.Some?
  {
    var c, spec := w.template.containers[0], boot.spec;
    && w.owned && w.replicas == spec.replicas.value
    && c.image == ImageName(spec, cfg) && c.env == spec.env
    && c.ports == [ContainerPort("http", spec.port, "TCP")]
    && c.limits == spec.limits && c.requests == spec.requests && c.command == spec.command
    && ProbeAgrees(c.liveness, HealthOf(spec)) && ProbeAgrees(c.readiness, ReadinessOf(spec))
    && w.template.nodeSelector == spec.nodeSelector && w.template.priority == spec.priority
    && (RestartedAt in boot.annotations ==>
          Read'(w.template.annotations, RestartedAt) == Read'(boot.annotations, RestartedAt))
    && !VolumesDiffer(c.mounts, boot, claims)
  }

  lemma WorkloadQuietExactly(w: WorkloadObject, boot: Boot, cfg: Config, claims: Claims)
    requires |w.template.containers| > 0 && boot.spec.replicas.Some? && !Undecodable(boot)
    ensures UpdatedWorkload(w, boot, cfg, claims).written <==> !WorkloadAgrees(w, boot, cfg, claims)
  {
  }

  /** The port the annotations name is the wanted one, where there are any. */
  predicate ScrapePortIs(annotations: S.ServiceAnnotations, port: int) {
    annotations.Some? ==> S.PortText(annotations.value) == Itoa(port)
  }

  predicate AppServiceAgrees(s: S.Service, boot: Boot, cfg: Config)
    requires |s.ports| > 0 && S.ScrapeKnown(boot.spec, cfg)
  {
    && s.owned
    && s.ports[0].port == boot.spec.port
    && (s.annotations.Some? <==> AllowScrape(boot.spec, cfg)) && ScrapePortIs(s.annotations, boot.spec.port)
    && (|| s.affinity == boot.spec.sessionAffinity
        || (s.affinity in ["", "None"] && boot.spec.sessionAffinity in ["", "None"]))
  }

  lemma AppQuietExactly(s: S.Service, boot: Boot, cfg: Config)
    requires |s.ports| > 0 && S.ScrapeKnown(boot.spec, cfg)
    ensures S.FixApp(s, boot, cfg).modified <==> !AppServiceAgrees(s, boot, cfg)
  {
  }

  predicate OtherServiceAgrees(s: S.Service, e: S.Service)
    requires |s.ports| > 0 && |e.ports| > 0
  {
    var port, want := s.ports[0], e.ports[0];
    && port.name == want.name && port.target == want.target
    && (s.kind == S.ClusterIP ==> port.port == want.port)
    && (s.kind == S.NodePort ==> port.nodePort == port.port)
    && s.affinity == e.affinity
    && (e.annotations.Some? ==> s.annotations.Some?) && ScrapePortIs(s.annotations, want.port)
  }

  lemma OtherQuietExactly(s: S.Service, e: S.Service, boot: Boot, cfg: Config)
    requires |s.ports| > 0 && L.IsExpected(e, boot, cfg)
    ensures S.FixOther(s, e).modified <==> !OtherServiceAgrees(s, e)
  {
  }

  /** The boot's services are exactly those expected, and each agrees. */
  ghost predicate OthersAgree(services: S.ServiceMap, boot: Boot, cfg: Config, expected: seq<S.Service>)
    requires S.WellStored(services) && L.AllExpected(expected, boot, cfg)
  {
    && (forall name :: name in services && S.IsOther(services[name], boot, cfg)
                       <==> S.Expects(expected, name) && name != boot.name)
    && (forall name :: name in services && S.IsOther(services[name], boot, cfg) && S.Expects(expected, name) ==>
          OtherServiceAgrees(services[name], S.ExpectedOf(expected, name)))
  }

  lemma OthersQuietExactly(services: S.ServiceMap, boot: Boot, cfg: Config, expected: seq<S.Service>,
          alloc: S.Allocator)
    requires L.Ready(services, boot, cfg, expected)
    ensures S.PassWrites(services, boot, cfg, expected) <==> !OthersAgree(services, boot, cfg, expected)
  {
  }

  predicate HpaAgrees(hpa: Option<H.HpaObject>, spec: BootSpec)
    requires H.BoundsSet(spec)
  {
    && (hpa.Some? <==> H.Enabled(spec))
    && (hpa.Some? && H.Enabled(spec) ==>
          && hpa.value.owned
          && hpa.value.minReplicas == spec.hpa.value.minReplicas
          && Some(hpa.value.maxReplicas) == spec.hpa.value.maxReplicas
          && !H.MetricsDiffer(spec.hpa.value.metrics, hpa.value.metrics))
  }

  /** The newest revision is Active exactly when all pods are ready. */
  ghost predicate PhaseAgrees(s: State)
    requires s.boot.spec.replicas.Some?
  {
    s.revisions != [] ==> s.revisions[LatestIndex(s.revisions)].phase == PhaseOf(s)
  }

  ghost predicate MetaAgrees(s: State, cfg: Config)
    requires s.boot.spec.replicas.Some?
  {
    forall k :: k in MetaUpdates(s, cfg) ==> Read'(s.boot.annotations, k) == Some(MetaUpdates(s, cfg)[k])
  }

  ghost predicate LateAgrees(s: State, cfg: Config)
    requires DefaultsSet(s.boot.spec)
  {
    HpaAgrees(s.hpa, s.boot.spec) && s.boot.status == StatusOf(s, cfg) && PhaseAgrees(s) && MetaAgrees(s, cfg)
  }

  lemma LateQuietExactly(s: State, cfg: Config)
    requires DefaultsSet(s.boot.spec)
    ensures LateRank(s, cfg) == 0 <==> LateAgrees(s, cfg)
  {
  }

  // --------------------------------------------------------------------------
  // The whole state.

  ghost predicate ServicesAgree(s: State, cfg: Config)
    requires Behind(s, cfg) && !Missing(s)
  {
    ServicesAreReady(s, cfg);
    && AppServiceAgrees(s.services[s.boot.name], s.boot, cfg)
    && OthersAgree(s.services, s.boot, cfg, Wanted(s, cfg))
  }

  lemma ServicesQuietExactly(s: State, cfg: Config, alloc: S.Allocator)
    requires Behind(s, cfg) && !Missing(s)
    ensures ServicesReady(s, cfg)
    ensures !AppDiffers(s, cfg) && !PassPending(s, cfg) <==> ServicesAgree(s, cfg)
  {
    ServicesAreReady(s, cfg);
    AppQuietExactly(s.services[s.boot.name], s.boot, cfg);
    OthersQuietExactly(s.services, s.boot, cfg, Wanted(s, cfg), alloc);
  }

  ghost predicate ObjectsAgree(s: State, cfg: Config)
    requires Behind(s, cfg)
  {
    && !Missing(s)
    && WorkloadAgrees(s.workloads[Kind(s)], s.boot, cfg, s.claims)
    && ServicesAgree(s, cfg)
    && LateAgrees(s, cfg)
  }

  lemma CheckedExactly(s: State, cfg: Config)
    requires Behind(s, cfg) && !Missing(s) && !Undecodable(s.boot)
    ensures Checked(s, cfg).written <==> !WorkloadAgrees(s.workloads[Kind(s)], s.boot, cfg, s.claims)
  {
    WorkloadQuietExactly(s.workloads[Kind(s)], s.boot, cfg, s.claims);
  }

  lemma StagesQuietExactly(s: State, cfg: Config, alloc: S.Allocator)
    requires Behind(s, cfg) && !Undecodable(s.boot)
    ensures StageRank(s, cfg) == 0 <==> ObjectsAgree(s, cfg)
  {
    if !Missing(s) {
      CheckedExactly(s, cfg);
      ServicesQuietExactly(s, cfg, alloc);
      LateQuietExactly(s, cfg);
    }
  }

  lemma DefaultsQuietExactly(boot: Boot, cfg: Config)
    requires NeedsDefaults(boot, cfg) ==> DefaultsWellFormed(cfg)
    ensures SetDefaults(boot, cfg) == boot <==> !NeedsDefaults(boot, cfg)
  {
    if NeedsDefaults(boot, cfg) { ReportsExactly(boot, cfg); } else { FalseMeansUnchanged(boot, cfg); }
  }

  /** The boot has its defaults, and every object agrees with it. */
  ghost predicate Agrees(s: State, cfg: Config)
    requires Sane(s, cfg)
  {
    && SetDefaults(s.boot, cfg) == s.boot
    && (DefaultsQuietExactly(s.boot, cfg);
        DefaultedIsBehind(s, cfg);
        ObjectsAgree(s, cfg))
  }

  /** Main result: a call writes nothing exactly when everything agrees. */
  lemma QuietMeansAgreement(s: State, cfg: Config, alloc: S.Allocator)
    requires Sane(s, cfg)
    ensures WellFormedState(s) && ConfigComplete(cfg) && OwnNames(s, cfg)
    ensures !Reconcile(s, cfg, alloc).written <==> Agrees(s, cfg)
  {
    ReconcileLowersRank(s, cfg, alloc);
    RankZeroExactly(s, cfg, alloc);
  }

  lemma RankZeroExactly(s: State, cfg: Config, alloc: S.Allocator)
    requires Sane(s, cfg)
    ensures Rank(s, cfg) == 0 <==> Agrees(s, cfg)
  {
    DefaultsQuietExactly(s.boot, cfg);
    if !NeedsDefaults(s.boot, cfg) {
      DefaultedIsBehind(s, cfg);
      StagesQuietExactly(s, cfg, alloc);
    }
  }

  /** Main result: nine calls bring every sane state to agreement, whatever node ports are given out,
      and nothing changes afterwards. */
  lemma NineCallsAgree(s: State, cfg: Config, allocs: seq<S.Allocator>, more: seq<S.Allocator>)
    requires Sane(s, cfg) && |allocs| >= 9
    ensures Sane(After(s, cfg, allocs), cfg)
    ensures Agrees(After(s, cfg, allocs), cfg)
    ensures After(After(s, cfg, allocs), cfg, more) == After(s, cfg, allocs)
  {
    NineCallsSettle(s, cfg, allocs);
    var settled := After(s, cfg, allocs);
    RankZeroExactly(settled, cfg, allocs[0]);
    SettledStays(settled, cfg, more);
  }

  lemma {:induction false} SettledStays(s: State, cfg: Config, more: seq<S.Allocator>)
    requires Sane(s, cfg) && Rank(s, cfg) == 0
    ensures After(s, cfg, more) == s
    decreases |more|
  {
    if more != [] {
      ReconcileLowersRank(s, cfg, more[0]);
      SettledStays(s, cfg, more[1..]);
    }
  }
}
