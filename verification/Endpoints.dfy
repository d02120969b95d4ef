/** Services reach the pods of their boot and of no other: selectors against the labels of the pod
    template, for what is built and over whole runs. */
module Endpoints {
  import opened Wrappers
  import opened Types
  import opened BootOps
  import opened Defaulter
  import opened DefaulterLaws
  import opened Workloads
  import S = Services
  import H = Autoscaler
  import opened Cluster
  import opened StageLaws
  import opened LateLaws
  import opened Convergence

  /** A selector finds the pods that carry all its labels. */
  predicate Finds(selector: Labels, labels: Labels) {
    forall k :: k in selector ==> k in labels && labels[k] == selector[k]
  }

  // --------------------------------------------------------------------------
  // What is built.

  lemma {:induction false} PortSelectors(boot: Boot, cfg: Config, ports: seq<ContainerPort>, i: nat)
    requires i < |S.PortServices(boot, cfg, ports)|
    ensures S.PortServices(boot, cfg, ports)[i].selector == PodLabels(boot)
  {
    if i > 0 { PortSelectors(boot, cfg, ports[1..], i - 1); }
  }

  lemma {:induction false} SidecarSelectors(boot: Boot, cfg: Config, sidecars: seq<Container>, i: nat)
    requires i < |S.SidecarServices(boot, cfg, sidecars)|
    ensures S.SidecarServices(boot, cfg, sidecars)[i].selector == PodLabels(boot)
  {
    var n := |S.PortServices(boot, cfg, sidecars[0].ports)|;
    if i < n { PortSelectors(boot, cfg, sidecars[0].ports, i); }
    else { SidecarSelectors(boot, cfg, sidecars[1..], i - n); }
  }

  lemma BuiltSelectors(boot: Boot, cfg: Config, sidecars: seq<Container>, i: nat)
    requires S.ScrapeKnown(boot.spec, cfg) && i < |S.NewServices(boot, cfg, sidecars)|
    ensures S.NewServices(boot, cfg, sidecars)[i].selector == PodLabels(boot)
  {
    var all, more := S.NewServices(boot, cfg, sidecars), S.SidecarServices(boot, cfg, sidecars);
    var j := i - (|all| - |more|);
    if j >= 0 {
      SidecarSelectors(boot, cfg, sidecars, j);
      assert all[i] == more[j];
    }
  }

  /** The labels of the pods of a boot, as its workload is stored. */
  function PodsOf(boot: Boot, cfg: Config): Labels {
    StoredTemplate(NewTemplate(boot, cfg)).labels
  }

  lemma PodsAreLabelled(boot: Boot, cfg: Config)
    ensures PodsOf(boot, cfg) == PodLabels(boot)
  {
  }

  /** Main result: every service built for a boot finds the pods of its workload, and never those of a
      boot of another name. */
  lemma ServicesFindTheirPods(boot: Boot, cfg: Config, sidecars: seq<Container>, i: nat, other: Boot, with: Config)
    requires S.ScrapeKnown(boot.spec, cfg) && i < |S.NewServices(boot, cfg, sidecars)|
    ensures var selector := S.NewServices(boot, cfg, sidecars)[i].selector;
            && Finds(selector, PodsOf(boot, cfg))
            && (other.name != boot.name ==> !Finds(selector, PodsOf(other, with)))
  {
    var selector := S.NewServices(boot, cfg, sidecars)[i].selector;
    BuiltSelectors(boot, cfg, sidecars, i);
    PodsAreLabelled(boot, cfg);
    PodsAreLabelled(other, with);
    assert "bootName" in selector && selector["bootName"] == boot.name;
  }

  /** The pods of a boot depend on its name and type only. */
  lemma SamePods(a: Boot, b: Boot, cfg: Config)
    requires a.name == b.name && a.bootType == b.bootType
    ensures PodsOf(a, cfg) == PodsOf(b, cfg)
  {
    PodsAreLabelled(a, cfg);
    PodsAreLabelled(b, cfg);
  }

  // --------------------------------------------------------------------------
  // What a call does to selectors and labels.

  /** Every service has the selector it had or finds the pods. */
  ghost predicate SelectorsServe(before: S.ServiceMap, after: S.ServiceMap, pods: Labels) {
    forall name :: name in after ==>
      || (name in before && after[name].selector == before[name].selector)
      || Finds(after[name].selector, pods)
  }

  /** A boot that asks for a StatefulSet gets one, and every other boot a Deployment. */
  function WantedKind(boot: Boot): Workload {
    if boot.spec.workload == StatefulSet then StatefulSet else Deployment
  }

  /** Every workload has the pod labels it had, or is of the wanted kind and has those of the boot. */
  ghost predicate LabelsServe(before: map<Workload, WorkloadObject>, after: map<Workload, WorkloadObject>,
                              pods: Labels, wanted: Workload) {
    forall k :: k in after ==>
      || (k in before && after[k].template.labels == before[k].template.labels)
      || (k == wanted && after[k].template.labels == pods)
  }

  ghost predicate Serves(s: State, next: State, cfg: Config) {
    && next.boot.name == s.boot.name && next.boot.bootType == s.boot.bootType
    && WantedKind(next.boot) == WantedKind(s.boot)
    && SelectorsServe(s.services, next.services, PodsOf(s.boot, cfg))
    && LabelsServe(s.workloads, next.workloads, PodsOf(s.boot, cfg), WantedKind(s.boot))
  }

  lemma {:induction false} CreatedServe(services: S.ServiceMap, list: seq<S.Service>, alloc: S.Allocator, pods: Labels)
    requires forall i :: 0 <= i < |list| ==> Finds(list[i].selector, pods)
    ensures SelectorsServe(services, S.CreateAll(services, list, alloc), pods)
    decreases |list|
  {
    if list != [] && list[0].name !in services {
      CreatedServe(services[list[0].name := S.StoredService(list[0], alloc)], list[1..], alloc, pods);
    }
  }

  lemma {:induction false} CreateOverServes(base: S.ServiceMap, start: S.ServiceMap, expected: seq<S.Service>, n: nat,
                                            alloc: S.Allocator, pods: Labels)
    requires n <= |expected| && forall i :: 0 <= i < |expected| ==> Finds(expected[i].selector, pods)
    ensures SelectorsServe(base, S.CreateOver(base, start, expected, n, alloc), pods)
  {
    if n > 0 { CreateOverServes(base, start, expected, n - 1, alloc, pods); }
  }

  lemma PassServes(services: S.ServiceMap, boot: Boot, cfg: Config, expected: seq<S.Service>, alloc: S.Allocator,
                   pods: Labels)
    requires S.WellStored(services) && forall i :: 0 <= i < |expected| ==> |expected[i].ports| > 0
    requires forall i :: 0 <= i < |expected| ==> Finds(expected[i].selector, pods)
    ensures SelectorsServe(services, S.Pass(services, boot, cfg, expected, alloc), pods)
    ensures SelectorsServe(services, S.FailedPass(services, boot, cfg, expected, alloc), pods)
  {
    var base := S.PassOver(services, S.ListedOthers(services, boot, cfg), boot, cfg, expected, alloc);
    CreateOverServes(base, services, expected, S.FirstForeign(services, boot, cfg, expected), alloc, pods);
  }

  lemma ExpectedServe(s: State, cfg: Config, w: WorkloadObject)
    requires S.ScrapeKnown(s.boot.spec, cfg) && |w.template.containers| > 0
    ensures forall i :: 0 <= i < |Expected(s.boot, cfg, w)| ==>
              Finds(Expected(s.boot, cfg, w)[i].selector, PodsOf(s.boot, cfg))
  {
    forall i | 0 <= i < |Expected(s.boot, cfg, w)|
      ensures Finds(Expected(s.boot, cfg, w)[i].selector, PodsOf(s.boot, cfg))
    {
      ServicesFindTheirPods(s.boot, cfg, w.template.containers[1..], i, s.boot, cfg);
    }
  }

  lemma CreateServes(s: State, cfg: Config, alloc: S.Allocator)
    requires Behind(s, cfg)
    ensures Serves(s, Created(s, cfg, alloc), cfg)
  {
    WorkloadServes(s, cfg);
    if s.boot.name !in s.services {
      var w := WithWorkload(s, cfg).workloads[Kind(s)];
      ExpectedServe(s, cfg, w);
      CreatedServe(s.services, Expected(s.boot, cfg, w), alloc, PodsOf(s.boot, cfg));
    }
  }

  lemma WorkloadServes(s: State, cfg: Config)
    requires s.boot.spec.replicas.Some?
    ensures var w := WithWorkload(s, cfg);
            && w == s.(workloads := w.workloads)
            && LabelsServe(s.workloads, w.workloads, PodsOf(s.boot, cfg), WantedKind(s.boot))
  {
  }

  lemma UpdateServes(s: State, cfg: Config)
    requires Behind(s, cfg) && !Missing(s)
    ensures Serves(s, s.(workloads := s.workloads[Kind(s) := Checked(s, cfg).workload]), cfg)
  {
  }

  lemma LateServes(s: State, cfg: Config)
    requires DefaultsSet(s.boot.spec) && H.IsStored(s.hpa)
    ensures var next := LateStages(s, cfg).state;
            && next.services == s.services && next.workloads == s.workloads
            && next.boot.name == s.boot.name && next.boot.bootType == s.boot.bootType
            && WantedKind(next.boot) == WantedKind(s.boot)
  {
    LateShape(s, cfg);
  }

  lemma AppServes(s: State, cfg: Config, alloc: S.Allocator)
    requires ServicesReady(s, cfg)
    ensures forall name :: name in AppUpdated(s, cfg, alloc) ==>
              name in s.services && AppUpdated(s, cfg, alloc)[name].selector == s.services[name].selector
  {
  }

  lemma ServiceStagesServe(s: State, cfg: Config, alloc: S.Allocator)
    requires Behind(s, cfg) && !Missing(s) && ServicesReady(s, cfg)
    ensures Serves(s, ServiceStages(s, cfg, alloc).state, cfg)
  {
    var app := AppFixed(s, cfg, alloc);
    AppServes(s, cfg, alloc);
    AppStep(s, cfg, alloc);
    ServicesAreReady(app, cfg);
    ExpectedServe(s, cfg, s.workloads[Kind(s)]);
    PassServes(app.services, s.boot, cfg, Wanted(s, cfg), alloc, PodsOf(s.boot, cfg));
    LateServes(app, cfg);
  }

  lemma ConvergeServes(s: State, cfg: Config, alloc: S.Allocator)
    requires Behind(s, cfg)
    ensures WellFormedState(s) && OwnNames(s, cfg)
    ensures Serves(s, Converge(s, cfg, alloc).state, cfg)
  {
    WorkableIsWellFormed(s, cfg);
    if Missing(s) {
      CreateServes(s, cfg, alloc);
    } else {
      ReadyForServices(s, cfg);
      UpdateStagesServe(s, cfg, alloc);
    }
  }

  lemma UpdateStagesServe(s: State, cfg: Config, alloc: S.Allocator)
    requires Behind(s, cfg) && !Missing(s) && ServicesReady(s, cfg)
    ensures Serves(s, UpdateStages(s, cfg, alloc).state, cfg)
  {
    if Checked(s, cfg).failed || Checked(s, cfg).written { UpdateServes(s, cfg); }
    else { ServiceStagesServe(s, cfg, alloc); }
  }

  lemma DefaultsServe(s: State, cfg: Config)
    ensures Serves(s, s.(boot := Written(s.boot, cfg)), cfg)
  {
    OutcomeHolds(s.boot, cfg);
    DefaultsKeepKind(s.boot, cfg, SetDefaults(s.boot, cfg));
  }

  lemma DefaultsKeepKind(boot: Boot, cfg: Config, once: Boot)
    requires Outcome(boot, cfg, once)
    ensures once.name == boot.name && once.bootType == boot.bootType && WantedKind(once) == WantedKind(boot)
  {
  }

  lemma CallServes(s: State, cfg: Config, alloc: S.Allocator)
    requires Workable(s, cfg)
    ensures WellFormedState(s) && ConfigComplete(cfg) && OwnNames(s, cfg)
    ensures Serves(s, Reconcile(s, cfg, alloc).state, cfg)
  {
    WorkableIsWellFormed(s, cfg);
    if NeedsDefaults(s.boot, cfg) {
      DefaultsServe(s, cfg);
    } else {
      NoDefaultsNeeded(s.boot, cfg);
      ConvergeServes(s, cfg, alloc);
    }
  }

  lemma ServesOn(a: State, b: State, c: State, cfg: Config)
    requires Serves(a, b, cfg) && Serves(b, c, cfg)
    ensures Serves(a, c, cfg)
  {
    SamePods(a.boot, b.boot, cfg);
  }

  // --------------------------------------------------------------------------
  // Runs.

  /** Main result: over any run a service keeps its selector or finds the pods of the boot, and a workload
      keeps its pod labels or has those of the boot. */
  lemma {:induction false} RunServes(s: State, cfg: Config, allocs: seq<S.Allocator>)
    requires Workable(s, cfg)
    ensures Serves(s, After(s, cfg, allocs), cfg)
    decreases |allocs|
  {
    if allocs != [] {
      var next := Reconcile(s, cfg, allocs[0]).state;
      FirstCall(s, cfg, allocs);
      CallServes(s, cfg, allocs[0]);
      RunServes(next, cfg, allocs[1..]);
      ServesOn(s, next, After(s, cfg, allocs), cfg);
    }
  }

  /** A service the loop creates finds the pods, and does after any number of later calls; so does one
      that found them before. */
  lemma EndpointsStay(s: State, cfg: Config, allocs: seq<S.Allocator>, name: string)
    requires Workable(s, cfg) && name in After(s, cfg, allocs).services
    requires name !in s.services || Finds(s.services[name].selector, PodsOf(s.boot, cfg))
    ensures Finds(After(s, cfg, allocs).services[name].selector, PodsOf(s.boot, cfg))
  {
    RunServes(s, cfg, allocs);
  }

  /** In a namespace without workloads the loop builds none but of the wanted kind. */
  lemma OnlyTheWantedKind(s: State, cfg: Config, allocs: seq<S.Allocator>, kind: Workload)
    requires Workable(s, cfg) && s.workloads == map[] && kind in After(s, cfg, allocs).workloads
    ensures kind == if s.boot.spec.workload == StatefulSet then StatefulSet else Deployment
  {
    RunServes(s, cfg, allocs);
  }

  /** Main result: in a namespace that starts empty, after any run every service finds the pods of the
      workload the loop has built. */
  lemma EveryServiceHasEndpoints(s: State, cfg: Config, allocs: seq<S.Allocator>, name: string, kind: Workload)
    requires Workable(s, cfg) && s.services == map[] && s.workloads == map[]
    requires name in After(s, cfg, allocs).services && kind in After(s, cfg, allocs).workloads
    ensures var after := After(s, cfg, allocs);
            Finds(after.services[name].selector, after.workloads[kind].template.labels)
  {
    RunServes(s, cfg, allocs);
  }
}
