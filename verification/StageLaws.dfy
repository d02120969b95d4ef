/** The stages behind defaulting, one by one: each that writes leaves a state on which it is quiet and
    the earlier stages still are. */
module StageLaws {
  import opened Wrappers
  import opened Strconv
  import opened Placeholder
  import opened EnvList
  import opened Types
  import opened BootOps
  import opened Defaulter
  import opened Workloads
  import W = WorkloadLaws
  import S = Services
  import L = ServiceLaws
  import opened RevisionLog
  import H = Autoscaler
  import opened Cluster

  // --------------------------------------------------------------------------
  // The states the stages work on.

  ghost predicate MetricsSettle(spec: BootSpec) {
    H.Enabled(spec) ==> H.MetricsConsistent(spec.hpa.value.metrics)
  }

  /** The services expected for these sidecars have names of their own, and none of those names is
      held by a service with other labels. */
  ghost predicate NamesFree(boot: Boot, cfg: Config, services: S.ServiceMap, sidecars: seq<Container>)
    requires S.ScrapeKnown(boot.spec, cfg)
  {
    var expected := S.NewServices(boot, cfg, sidecars);
    S.DistinctNames(expected) && S.NoForeignHolder(services, boot, cfg, expected)
  }

  ghost predicate SaneObjects(s: State, cfg: Config)
    requires cfg.prometheusScrape.Some?
  {
    && (forall k :: k in s.workloads ==> W.IsStored(s.workloads[k].template))
    && S.WellStored(s.services)
    && H.IsStored(s.hpa)
    && NamesFree(s.boot, cfg, s.services, cfg.sidecars)
    && (forall k :: k in s.workloads ==> NamesFree(s.boot, cfg, s.services, s.workloads[k].template.containers[1..]))
  }

  /** The configuration leaves alone what the boot decides, and the objects are as the API server keeps
      them. Which objects exist, and what they hold, is arbitrary. */
  ghost predicate Workable(s: State, cfg: Config) {
    OverridesWellFormed(cfg) && ConfigComplete(cfg) && SaneObjects(s, cfg)
  }

  /** A state the stages behind defaulting may start from. */
  ghost predicate Behind(s: State, cfg: Config) {
    Workable(s, cfg) && DefaultsSet(s.boot.spec)
  }

  lemma WorkableIsWellFormed(s: State, cfg: Config)
    requires Workable(s, cfg)
    ensures WellFormedState(s) && ConfigComplete(cfg) && OwnNames(s, cfg)
  {
  }

  // --------------------------------------------------------------------------
  // Expected services: what they depend on.

  /** Same names, in the same order. */
  ghost predicate SameNames(a: seq<S.Service>, b: seq<S.Service>) {
    |a| == |b| && forall i :: 0 <= i < |a| ==> a[i].name == b[i].name
  }

  lemma {:induction false} PortNames(a: Boot, b: Boot, cfg: Config, ports: seq<ContainerPort>)
    requires a.name == b.name
    ensures SameNames(S.PortServices(a, cfg, ports), S.PortServices(b, cfg, ports))
  {
    if ports != [] { PortNames(a, b, cfg, ports[1..]); }
  }

  lemma {:induction false} SidecarNames(a: Boot, b: Boot, cfg: Config, sidecars: seq<Container>)
    requires a.name == b.name
    ensures SameNames(S.SidecarServices(a, cfg, sidecars), S.SidecarServices(b, cfg, sidecars))
  {
    if sidecars != [] {
      PortNames(a, b, cfg, sidecars[0].ports);
      SidecarNames(a, b, cfg, sidecars[1..]);
    }
  }

  /** The names follow from the name of the boot and its node port wish. */
  lemma NamesStayFree(a: Boot, b: Boot, cfg: Config, services: S.ServiceMap, sidecars: seq<Container>)
    requires S.ScrapeKnown(a.spec, cfg) && S.ScrapeKnown(b.spec, cfg)
    requires a.name == b.name && a.spec.nodePort == b.spec.nodePort
    requires NamesFree(a, cfg, services, sidecars)
    ensures NamesFree(b, cfg, services, sidecars)
  {
    SidecarNames(a, b, cfg, sidecars);
    SameNamesFree(a, b, cfg, services, S.NewServices(a, cfg, sidecars), S.NewServices(b, cfg, sidecars));
  }

  lemma SameNamesFree(a: Boot, b: Boot, cfg: Config, services: S.ServiceMap, x: seq<S.Service>, y: seq<S.Service>)
    requires a.name == b.name && SameNames(x, y)
    requires S.DistinctNames(x) && S.NoForeignHolder(services, a, cfg, x)
    ensures S.DistinctNames(y) && S.NoForeignHolder(services, b, cfg, y)
  {
    forall i | 0 <= i < |y| && y[i].name != b.name && y[i].name in services
      ensures S.Selected(services[y[i].name], b, cfg)
    {
      assert S.Selected(services[x[i].name], a, cfg);
    }
  }

  lemma {:induction false} StoredPortServices(boot: Boot, cfg: Config, ports: seq<ContainerPort>)
    ensures S.PortServices(boot, cfg, Workloads.StoredPorts(ports)) == S.PortServices(boot, cfg, ports)
  {
    if ports != [] {
      assert Workloads.StoredPorts(ports)[1..] == Workloads.StoredPorts(ports[1..]);
      StoredPortServices(boot, cfg, ports[1..]);
    }
  }

  /** Decoding the environment of a sidecar and storing it leave its services alone. */
  lemma {:induction false} BuiltSidecarServices(boot: Boot, cfg: Config, sidecars: seq<Container>,
          built: seq<Container>)
    requires |built| == |sidecars|
    requires forall i :: 0 <= i < |built| ==> built[i] == StoredContainer(NewSidecar(boot, cfg, sidecars[i]))
    ensures S.SidecarServices(boot, cfg, built) == S.SidecarServices(boot, cfg, sidecars)
  {
    if sidecars != [] {
      StoredPortServices(boot, cfg, sidecars[0].ports);
      BuiltSidecarServices(boot, cfg, sidecars[1..], built[1..]);
    }
  }

  /** A built workload expects the services of the configured sidecars. */
  lemma BuiltServices(boot: Boot, cfg: Config)
    requires OverridesWellFormed(cfg) && S.ScrapeKnown(boot.spec, cfg)
    ensures S.NewServices(boot, cfg, StoredTemplate(NewTemplate(boot, cfg)).containers[1..])
            == S.NewServices(boot, cfg, cfg.sidecars)
  {
    var built := StoredTemplate(NewTemplate(boot, cfg)).containers[1..];
    BuiltSidecars(boot, cfg, built);
    BuiltSidecarServices(boot, cfg, cfg.sidecars, built);
  }

  lemma BuiltSidecars(boot: Boot, cfg: Config, built: seq<Container>)
    requires OverridesWellFormed(cfg) && built == StoredTemplate(NewTemplate(boot, cfg)).containers[1..]
    ensures |built| == |cfg.sidecars|
    ensures forall i :: 0 <= i < |built| ==> built[i] == StoredContainer(NewSidecar(boot, cfg, cfg.sidecars[i]))
  {
    assert NewTemplate(boot, cfg).containers == [NewAppContainer(boot, cfg)] + NewSidecars(boot, cfg);
  }

  /** Services that keep their labels, next to new ones of the boot. */
  ghost predicate LabelsKept(before: S.ServiceMap, after: S.ServiceMap, boot: Boot, cfg: Config) {
    forall name :: name in after ==>
      S.Selected(after[name], boot, cfg) || (name in before && after[name].labels == before[name].labels)
  }

  // --------------------------------------------------------------------------
  // Creation.

  /** A stored workload with free names takes its place. */
  lemma WorkloadReplaced(s: State, cfg: Config, kind: Workload, w: WorkloadObject)
    requires Behind(s, cfg)
    requires W.IsStored(w.template) && NamesFree(s.boot, cfg, s.services, w.template.containers[1..])
    ensures Behind(s.(workloads := s.workloads[kind := w]), cfg)
  {
  }

  lemma BuiltWorkloadIsFree(s: State, cfg: Config)
    requires Behind(s, cfg)
    ensures var w := StoredWorkload(NewWorkload(s.boot, cfg));
            W.IsStored(w.template) && NamesFree(s.boot, cfg, s.services, w.template.containers[1..])
  {
    BuiltServices(s.boot, cfg);
    W.StoringTwice(NewTemplate(s.boot, cfg));
  }

  lemma ServicesReplaced(s: State, cfg: Config, services: S.ServiceMap)
    requires Behind(s, cfg) && S.WellStored(services) && LabelsKept(s.services, services, s.boot, cfg)
    ensures Behind(s.(services := services), cfg)
  {
  }

  lemma CreateStage(s: State, cfg: Config, alloc: S.Allocator)
    requires Behind(s, cfg) && Missing(s)
    ensures var next := Created(s, cfg, alloc);
            Behind(next, cfg) && next.boot == s.boot && next.claims == s.claims && !Missing(next)
  {
    var w, next := WithWorkload(s, cfg), Created(s, cfg, alloc);
    BuiltWorkloadIsFree(s, cfg);
    WorkloadReplaced(s, cfg, Kind(s), StoredWorkload(NewWorkload(s.boot, cfg)));
    if s.boot.name !in s.services {
      var sidecars := w.workloads[Kind(s)].template.containers[1..];
      L.NewServicesExpected(s.boot, cfg, sidecars);
      L.CreateAllAdds(s.services, S.NewServices(s.boot, cfg, sidecars), alloc, s.boot, cfg);
      ServicesReplaced(w, cfg, next.services);
    }
  }

  /** Creation leaves every object alone that is there, and builds the workload that is not. */
  lemma CreationKeepsObjects(s: State, cfg: Config, alloc: S.Allocator)
    requires Behind(s, cfg)
    ensures var next := Created(s, cfg, alloc);
            && next == s.(workloads := next.workloads, services := next.services)
            && (forall k :: k in next.workloads <==> k in s.workloads || k == Kind(s))
            && (forall k :: k in s.workloads ==> next.workloads[k] == s.workloads[k])
            && (Kind(s) !in s.workloads ==> next.workloads[Kind(s)] == StoredWorkload(NewWorkload(s.boot, cfg)))
            && (forall name :: name in s.services ==> name in next.services && next.services[name] == s.services[name])
  {
    BuiltIfMissing(s, cfg);
    CreationKeepsServices(s, cfg, WithWorkload(s, cfg).workloads[Kind(s)], alloc);
  }

  lemma CreationKeepsServices(s: State, cfg: Config, w: WorkloadObject, alloc: S.Allocator)
    requires Behind(s, cfg) && |w.template.containers| > 0
    ensures var after := S.CreateAll(s.services, Expected(s.boot, cfg, w), alloc);
            forall name :: name in s.services ==> name in after && after[name] == s.services[name]
  {
    L.NewServicesExpected(s.boot, cfg, w.template.containers[1..]);
    L.CreateAllAdds(s.services, Expected(s.boot, cfg, w), alloc, s.boot, cfg);
  }

  lemma BuiltIfMissing(s: State, cfg: Config)
    requires s.boot.spec.replicas.Some?
    ensures var next := WithWorkload(s, cfg);
            && next == s.(workloads := next.workloads)
            && (forall k :: k in next.workloads <==> k in s.workloads || k == Kind(s))
            && (forall k :: k in s.workloads ==> next.workloads[k] == s.workloads[k])
            && (Kind(s) !in s.workloads ==> next.workloads[Kind(s)] == StoredWorkload(NewWorkload(s.boot, cfg)))
  {
  }

  // --------------------------------------------------------------------------
  // The workload.

  /** The update the workload stage makes. */
  ghost function Checked(s: State, cfg: Config): Updated
    requires Behind(s, cfg) && !Missing(s)
  {
    UpdatedWorkload(s.workloads[Kind(s)], s.boot, cfg, s.claims)
  }

  /** Whatever the check says, what is stored is a workload with free names. */
  lemma WorkloadStays(s: State, cfg: Config)
    requires Behind(s, cfg) && !Missing(s)
    ensures var next := s.(workloads := s.workloads[Kind(s) := Checked(s, cfg).workload]);
            Behind(next, cfg) && !Missing(next)
  {
    var w, updated := s.workloads[Kind(s)], Checked(s, cfg);
    W.UpdateIsStored(w, s.boot, cfg, s.claims);
    UpdatedIsFree(s, cfg, w, updated.workload);
    WorkloadReplaced(s, cfg, Kind(s), updated.workload);
  }

  /** For a checkable boot the stage does not fail and has nothing left to update. */
  lemma WorkloadStage(s: State, cfg: Config)
    requires Behind(s, cfg) && !Missing(s) && W.Checkable(s.boot, cfg, s.claims)
    ensures !Checked(s, cfg).failed
    ensures var next := s.(workloads := s.workloads[Kind(s) := Checked(s, cfg).workload]);
            Behind(next, cfg) && !Missing(next) && !Checked(next, cfg).written
  {
    WorkloadStays(s, cfg);
    W.OneUpdateSettles(s.workloads[Kind(s)], s.boot, cfg, s.claims);
  }

  lemma UpdatedIsFree(s: State, cfg: Config, w: WorkloadObject, updated: WorkloadObject)
    requires Behind(s, cfg) && Kind(s) in s.workloads && w == s.workloads[Kind(s)]
    requires updated == UpdatedWorkload(w, s.boot, cfg, s.claims).workload
    ensures |updated.template.containers| > 0
            && NamesFree(s.boot, cfg, s.services, updated.template.containers[1..])
  {
    BuiltWorkloadIsFree(s, cfg);
    W.StampedIsStored(w.template, s.boot);
    assert Stamped(w.template, s.boot).containers == w.template.containers;
  }
}
