/** One reconcile of a boot as a step over the API server's state: the stages of
    pkg/controller/javaboot/javaboot_controller.go in their order, each with its writes and its early
    return, together with the status stage (boot_handler_status.go) and the meta stage
    (boot_handler_controller.go). Every step is free of transport errors. */
module Cluster {
  import opened Wrappers
  import opened Strconv
  import opened EnvList
  import opened Difference
  import opened Types
  import opened BootOps
  import opened Defaulter
  import opened DefaulterLaws
  import opened Workloads
  import S = Services
  import opened ServiceNames
  import opened RevisionLog
  import H = Autoscaler

  /** What the API server holds for one boot. The workloads are those called like the boot, by kind;
      pod counts do not change. */
  datatype State = State(
    boot: Boot,
    workloads: map<Workload, WorkloadObject>,
    services: S.ServiceMap,
    hpa: Option<H.HpaObject>,
    claims: Claims,
    revisions: seq<Revision>,
    ready: int,
    current: int)

  /** The state a call leaves, whether it wrote to the API server, and whether it ended with an error. */
  datatype Call = Call(state: State, written: bool, failed: bool)

  /** What every state the API server returns has: objects as it stores them. */
  ghost predicate WellFormedState(s: State) {
    && (forall k :: k in s.workloads ==> |s.workloads[k].template.containers| > 0)
    && S.WellStored(s.services)
    && H.IsStored(s.hpa)
  }

  /** The facts of the configuration the stages rely on without checking. */
  predicate ConfigComplete(cfg: Config) {
    cfg.health != "" && cfg.prometheusScrape.Some?
  }

  /** What the stages behind defaulting find set. */
  predicate DefaultsSet(spec: BootSpec) {
    spec.replicas.Some? && spec.prometheus != "" && H.BoundsSet(spec)
  }

  lemma NoDefaultsNeeded(boot: Boot, cfg: Config)
    requires ConfigComplete(cfg) && !NeedsDefaults(boot, cfg)
    ensures DefaultsSet(boot.spec) && !boot.spec.workload.OtherWorkload?
    ensures boot.spec.health.Some? && boot.spec.replicas.value >= 0
  {
    QuietExactly(boot, cfg);
  }

  // --------------------------------------------------------------------------
  // 0. Defaults.

  /** A write of the boot by the operator. */
  function WriteBoot(s: State, boot: Boot): State {
    s.(boot := Stored(boot))
  }

  // --------------------------------------------------------------------------
  // 1. Creation.

  function Kind(s: State): Workload {
    EffectiveWorkload(s.boot.spec.workload)
  }

  function WithWorkload(s: State, cfg: Config): State
    requires s.boot.spec.replicas.Some?
  {
    if Kind(s) in s.workloads then s
    else s.(workloads := s.workloads[Kind(s) := StoredWorkload(NewWorkload(s.boot, cfg))])
  }

  /** The services expected for a workload: its own sidecars decide. */
  function Expected(boot: Boot, cfg: Config, w: WorkloadObject): seq<S.Service>
    requires S.ScrapeKnown(boot.spec, cfg) && |w.template.containers| > 0
  {
    S.NewServices(boot, cfg, w.template.containers[1..])
  }

  predicate Missing(s: State) {
    Kind(s) !in s.workloads || s.boot.name !in s.services
  }

  /** The stage ends the reconcile exactly when the workload or the app service was missing; the
      creation of services stops early when one of them exists already. */
  function Created(s: State, cfg: Config, alloc: S.Allocator): State
    requires s.boot.spec.replicas.Some? && S.ScrapeKnown(s.boot.spec, cfg)
    requires forall k :: k in s.workloads ==> |s.workloads[k].template.containers| > 0
  {
    var w := WithWorkload(s, cfg);
    if s.boot.name in s.services then w
    else w.(services := S.CreateAll(w.services, Expected(w.boot, cfg, w.workloads[Kind(s)]), alloc))
  }

  // --------------------------------------------------------------------------
  // 2. Update of services.

  ghost predicate ServicesReady(s: State, cfg: Config) {
    && S.ScrapeKnown(s.boot.spec, cfg)
    && S.WellStored(s.services) && s.boot.name in s.services
    && Kind(s) in s.workloads && |s.workloads[Kind(s)].template.containers| > 0
    && (forall i :: 0 <= i < |Expected(s.boot, cfg, s.workloads[Kind(s)])| ==>
          |Expected(s.boot, cfg, s.workloads[Kind(s)])[i].ports| > 0)
    && S.DistinctNames(Expected(s.boot, cfg, s.workloads[Kind(s)]))
  }

  /** The services of an existing workload have names of their own: no two sidecar ports share one. */
  ghost predicate OwnNames(s: State, cfg: Config)
    requires WellFormedState(s)
  {
    Kind(s) in s.workloads && S.ScrapeKnown(s.boot.spec, cfg) ==>
      S.DistinctNames(Expected(s.boot, cfg, s.workloads[Kind(s)]))
  }

  /** The app service, written only when something differed. */
  ghost function AppUpdated(s: State, cfg: Config, alloc: S.Allocator): S.ServiceMap
    requires ServicesReady(s, cfg)
  {
    var fixed := S.FixApp(s.services[s.boot.name], s.boot, cfg);
    if fixed.modified then s.services[s.boot.name := S.StoredService(fixed.service, alloc)] else s.services
  }

  ghost predicate AppDiffers(s: State, cfg: Config)
    requires ServicesReady(s, cfg)
  {
    S.FixApp(s.services[s.boot.name], s.boot, cfg).modified
  }

  // --------------------------------------------------------------------------
  // 4. Status.

  function SelectorText(boot: Boot): string {
    "app=havok,bootName=" + boot.name + ",bootType=" + TypeText(boot.bootType)
  }

  ghost function ServicesText(s: State, cfg: Config): string {
    NamesText(set name | name in s.services && S.Selected(s.services[name], s.boot, cfg))
  }

  function RevisionText(revisions: seq<Revision>): Option<string> {
    if revisions == [] then None else Some(Itoa(GetRevisionId(revisions[LatestIndex(revisions)])))
  }

  ghost function StatusOf(s: State, cfg: Config): BootStatus
    requires s.boot.spec.replicas.Some?
  {
    var spec, status := s.boot.spec, s.boot.status;
    BootStatus(
      ServicesText(s, cfg),
      if spec.workload != Unset then spec.workload
      else if status.workload == Unset then Deployment else status.workload,
      spec.replicas.value,
      SelectorText(s.boot),
      spec.replicas.value,
      s.current,
      s.ready,
      if RevisionText(s.revisions).Some? then RevisionText(s.revisions).value else status.revision)
  }

  // --------------------------------------------------------------------------
  // 5. Meta.

  function PhaseOf(s: State): Phase
    requires s.boot.spec.replicas.Some?
  {
    if s.ready == s.boot.spec.replicas.value && s.ready == s.current then Active else Running
  }

  function PhasedRevisions(s: State): seq<Revision>
    requires s.boot.spec.replicas.Some?
  {
    if s.revisions == [] then []
    else
      var i := LatestIndex(s.revisions);
      s.revisions[i := s.revisions[i].(phase := PhaseOf(s))]
  }

  ghost function MetaUpdates(s: State, cfg: Config): Annotations
    requires s.boot.spec.replicas.Some?
  {
    var common := map[
      DeployKey := Plain(s.boot.name),
      AppTypeKey := Plain("deploy"),
      ServicesKey := Plain(ServicesText(s, cfg)),
      StatusAvailable := Plain(Itoa(s.ready)),
      StatusDesired := Plain(Itoa(s.boot.spec.replicas.value))];
    if RevisionText(s.revisions).None? then common
    else common[RevisionKey := Plain(RevisionText(s.revisions).value)]
  }

  /** The annotations with the meta information of the boot. */
  ghost function MetaAnnotations(s: State, cfg: Config): Annotations
    requires s.boot.spec.replicas.Some?
  {
    s.boot.annotations + MetaUpdates(s, cfg)
  }

  ghost function MetaStage(s: State, cfg: Config): Call
    requires s.boot.spec.replicas.Some?
  {
    var phased := s.(revisions := PhasedRevisions(s));
    var annotations := MetaAnnotations(s, cfg);
    if annotations != s.boot.annotations
    then Call(WriteBoot(phased, s.boot.(annotations := annotations)), true, false)
    else Call(phased, PhasedRevisions(s) != s.revisions, false)
  }

  // --------------------------------------------------------------------------
  // The stages behind the services, each ending the reconcile when it writes.

  ghost function LateStages(s: State, cfg: Config): Call
    requires DefaultsSet(s.boot.spec)
  {
    var hpa := H.Reconciled(s.hpa, s.boot.spec);
    if hpa.written then Call(s.(hpa := hpa.hpa), true, false)
    else if StatusOf(s, cfg) != s.boot.status then Call(s.(boot := s.boot.(status := StatusOf(s, cfg))), true, false)
    else MetaStage(s, cfg)
  }

  ghost function ServiceStages(s: State, cfg: Config, alloc: S.Allocator): Call
    requires DefaultsSet(s.boot.spec) && ServicesReady(s, cfg)
  {
    var expected := Expected(s.boot, cfg, s.workloads[Kind(s)]);
    var app := s.(services := AppUpdated(s, cfg, alloc));
    if !S.NoForeignHolder(app.services, s.boot, cfg, expected)
    then Call(s.(services := S.FailedPass(app.services, s.boot, cfg, expected, alloc)),
                 AppDiffers(s, cfg) || S.FailedPassWrites(app.services, s.boot, cfg, expected), true)
    else if S.PassWrites(app.services, s.boot, cfg, expected)
    then Call(s.(services := S.Pass(app.services, s.boot, cfg, expected, alloc)), true, false)
    else
      var late := LateStages(app, cfg);
      Call(late.state, AppDiffers(s, cfg) || late.written, false)
  }

  /** The stages that find workload and app service in place. */
  ghost function UpdateStages(s: State, cfg: Config, alloc: S.Allocator): Call
    requires DefaultsSet(s.boot.spec) && ServicesReady(s, cfg)
  {
    var updated := UpdatedWorkload(s.workloads[Kind(s)], s.boot, cfg, s.claims);
    if updated.failed then Call(s, false, true)
    else if updated.written then Call(s.(workloads := s.workloads[Kind(s) := updated.workload]), true, false)
    else ServiceStages(s, cfg, alloc)
  }

  /** The stages behind defaulting. */
  ghost function Converge(s: State, cfg: Config, alloc: S.Allocator): Call
    requires WellFormedState(s) && ConfigComplete(cfg) && OwnNames(s, cfg)
    requires DefaultsSet(s.boot.spec)
  {
    if Missing(s) then Call(Created(s, cfg, alloc), true, false)
    else
      ReadyForServices(s, cfg);
      UpdateStages(s, cfg, alloc)
  }

  /** One call of Reconcile on an existing boot. */
  ghost function Reconcile(s: State, cfg: Config, alloc: S.Allocator): Call
    requires WellFormedState(s) && ConfigComplete(cfg) && OwnNames(s, cfg)
  {
    if NeedsDefaults(s.boot, cfg) then Call(WriteBoot(s, SetDefaults(s.boot, cfg)), true, false)
    else
      NoDefaultsNeeded(s.boot, cfg);
      Converge(s, cfg, alloc)
  }

  lemma {:induction false} PortsOfPortServices(boot: Boot, cfg: Config, ports: seq<ContainerPort>, i: nat)
    requires i < |S.PortServices(boot, cfg, ports)|
    ensures |S.PortServices(boot, cfg, ports)[i].ports| > 0
  {
    if i > 0 { PortsOfPortServices(boot, cfg, ports[1..], i - 1); }
  }

  lemma {:induction false} PortsOfSidecarServices(boot: Boot, cfg: Config, sidecars: seq<Container>, i: nat)
    requires i < |S.SidecarServices(boot, cfg, sidecars)|
    ensures |S.SidecarServices(boot, cfg, sidecars)[i].ports| > 0
  {
    var n := |S.PortServices(boot, cfg, sidecars[0].ports)|;
    if i < n { PortsOfPortServices(boot, cfg, sidecars[0].ports, i); }
    else { PortsOfSidecarServices(boot, cfg, sidecars[1..], i - n); }
  }

  lemma ReadyForServices(s: State, cfg: Config)
    requires WellFormedState(s) && ConfigComplete(cfg) && OwnNames(s, cfg) && !Missing(s)
    ensures ServicesReady(s, cfg)
  {
    var sidecars := s.workloads[Kind(s)].template.containers[1..];
    var expected := Expected(s.boot, cfg, s.workloads[Kind(s)]);
    var more := S.SidecarServices(s.boot, cfg, sidecars);
    forall i | 0 <= i < |expected|
      ensures |expected[i].ports| > 0
    {
      var j := i - (|expected| - |more|);
      if j >= 0 {
        PortsOfSidecarServices(s.boot, cfg, sidecars, j);
        assert expected[i] == more[j];
      }
    }
  }
}
