/** What a settled boot reports of itself, in its status and its annotations. */
module Reports {
  import opened Wrappers
  import opened Strconv
  import opened EnvList
  import opened Types
  import opened BootOps
  import opened Defaulter
  import opened DefaulterLaws
  import opened Workloads
  import S = Services
  import opened ServiceNames
  import opened RevisionLog
  import H = Autoscaler
  import opened Cluster
  import opened StageLaws
  import opened LateLaws
  import opened Convergence
  import opened Phases
  import opened Endpoints

  // --------------------------------------------------------------------------
  // Counts, names and numbers.

  predicate Fits(n: int) {
    -MAX_INT <= n <= MAX_INT
  }

  /** The annotation is there and reads as this number. */
  predicate Tells(annotations: Annotations, key: AnnotationKey, n: int) {
    key in annotations && annotations[key].Plain? && ParseInt(annotations[key].text) == Parsed(n)
  }

  lemma QuietStages(s: State, cfg: Config, alloc: S.Allocator)
    requires WellFormedState(s) && ConfigComplete(cfg) && OwnNames(s, cfg) && DefaultsSet(s.boot.spec)
    requires var call := Converge(s, cfg, alloc); !call.written && !call.failed
    ensures s.boot.status == StatusOf(s, cfg) && MetaAnnotations(s, cfg) == s.boot.annotations
  {
    ReadyForServices(s, cfg);
    assert s.(services := AppUpdated(s, cfg, alloc)) == s;
    QuietLate(s, cfg);
  }

  lemma QuietLate(s: State, cfg: Config)
    requires DefaultsSet(s.boot.spec) && !LateStages(s, cfg).written
    ensures s.boot.status == StatusOf(s, cfg) && MetaAnnotations(s, cfg) == s.boot.annotations
  {
  }

  /** Main result: when a call finds nothing to write, the status holds the wanted, current and ready pods,
      and the annotations read as the ready and the wanted ones. */
  lemma QuietCountsTell(s: State, cfg: Config, alloc: S.Allocator)
    requires WellFormedState(s) && ConfigComplete(cfg) && OwnNames(s, cfg)
    requires var call := Reconcile(s, cfg, alloc); !call.written && !call.failed
    requires Fits(s.ready)
    ensures var status, spec := s.boot.status, s.boot.spec;
            && spec.replicas == Some(status.replicas) && spec.replicas == Some(status.hpaReplicas)
            && status.currentReplicas == s.current && status.readyReplicas == s.ready
            && Tells(s.boot.annotations, StatusAvailable, s.ready)
            && (Fits(status.replicas) ==> Tells(s.boot.annotations, StatusDesired, status.replicas))
  {
    NoDefaultsNeeded(s.boot, cfg);
    QuietStages(s, cfg, alloc);
    CountsTell(s, cfg);
    AnnotationsTell(s, cfg);
  }

  lemma AnnotationsTell(s: State, cfg: Config)
    requires s.boot.spec.replicas.Some? && MetaAnnotations(s, cfg) == s.boot.annotations && Fits(s.ready)
    ensures Tells(s.boot.annotations, StatusAvailable, s.ready)
    ensures var wanted := s.boot.spec.replicas.value;
            Fits(wanted) ==> Tells(s.boot.annotations, StatusDesired, wanted)
  {
    NumberTells(s, cfg, StatusAvailable, s.ready);
    if Fits(s.boot.spec.replicas.value) { NumberTells(s, cfg, StatusDesired, s.boot.spec.replicas.value); }
  }

  lemma CountsTell(s: State, cfg: Config)
    requires s.boot.spec.replicas.Some? && s.boot.status == StatusOf(s, cfg)
    ensures var status, spec := s.boot.status, s.boot.spec;
            && spec.replicas == Some(status.replicas) && spec.replicas == Some(status.hpaReplicas)
            && status.currentReplicas == s.current && status.readyReplicas == s.ready
  {
  }

  lemma NumberTells(s: State, cfg: Config, key: AnnotationKey, n: int)
    requires s.boot.spec.replicas.Some? && MetaAnnotations(s, cfg) == s.boot.annotations && key in MetaUpdates(s, cfg)
    requires Fits(n) && MetaUpdates(s, cfg)[key] == Plain(Itoa(n))
    ensures Tells(s.boot.annotations, key, n)
  {
    UpdatesAreThere(s, cfg, key);
    ParseItoa(n);
  }

  lemma UpdatesAreThere(s: State, cfg: Config, key: AnnotationKey)
    requires s.boot.spec.replicas.Some? && MetaAnnotations(s, cfg) == s.boot.annotations && key in MetaUpdates(s, cfg)
    ensures key in s.boot.annotations && s.boot.annotations[key] == MetaUpdates(s, cfg)[key]
  {
    assert (s.boot.annotations + MetaUpdates(s, cfg))[key] == MetaUpdates(s, cfg)[key];
  }

  /** The number of the newest revision is in status and annotation, where there is one. */
  lemma QuietRevisionTells(s: State, cfg: Config, alloc: S.Allocator, at: nat)
    requires WellFormedState(s) && ConfigComplete(cfg) && OwnNames(s, cfg)
    requires var call := Reconcile(s, cfg, alloc); !call.written && !call.failed
    requires IsNewest(s.revisions, at) && Fits(GetRevisionId(s.revisions[at]))
    ensures ParseInt(s.boot.status.revision) == Parsed(GetRevisionId(s.revisions[at]))
    ensures Tells(s.boot.annotations, RevisionKey, GetRevisionId(s.revisions[at]))
  {
    NoDefaultsNeeded(s.boot, cfg);
    QuietStages(s, cfg, alloc);
    NewestIsLatest(s.revisions, at);
    NumberTells(s, cfg, RevisionKey, GetRevisionId(s.revisions[at]));
    ParseItoa(GetRevisionId(s.revisions[at]));
  }

  /** The names of the services with the labels of the boot. */
  function OwnServices(s: State, cfg: Config): set<string> {
    set name | name in s.services && S.Selected(s.services[name], s.boot, cfg)
  }

  /** The names of the boot's services, sorted, are in status and annotation. */
  lemma QuietNamesTell(s: State, cfg: Config, alloc: S.Allocator, listed: seq<string>)
    requires WellFormedState(s) && ConfigComplete(cfg) && OwnNames(s, cfg)
    requires var call := Reconcile(s, cfg, alloc); !call.written && !call.failed
    requires multiset(listed) == multiset(OwnServices(s, cfg))
    ensures s.boot.status.services == TransferServiceNames(listed)
    ensures Read'(s.boot.annotations, ServicesKey) == Some(Plain(TransferServiceNames(listed)))
    ensures Read'(s.boot.annotations, DeployKey) == Some(Plain(s.boot.name))
    ensures Read'(s.boot.annotations, AppTypeKey) == Some(Plain("deploy"))
  {
    NoDefaultsNeeded(s.boot, cfg);
    QuietStages(s, cfg, alloc);
    ListedInAnyOrder(OwnServices(s, cfg), listed);
    NamesTell(s, cfg);
  }

  lemma NamesTell(s: State, cfg: Config)
    requires s.boot.spec.replicas.Some?
    requires s.boot.status == StatusOf(s, cfg) && MetaAnnotations(s, cfg) == s.boot.annotations
    ensures s.boot.status.services == NamesText(OwnServices(s, cfg))
    ensures Read'(s.boot.annotations, ServicesKey) == Some(Plain(NamesText(OwnServices(s, cfg))))
    ensures Read'(s.boot.annotations, DeployKey) == Some(Plain(s.boot.name))
    ensures Read'(s.boot.annotations, AppTypeKey) == Some(Plain("deploy"))
  {
    UpdatesAreThere(s, cfg, AppTypeKey);
    UpdatesAreThere(s, cfg, ServicesKey);
    UpdatesAreThere(s, cfg, DeployKey);
  }

  /** The selector of the status is the text of the pod labels. */
  lemma SelectorTells(s: State, cfg: Config)
    requires s.boot.spec.replicas.Some?
    ensures var pods := PodsOf(s.boot, cfg);
            && pods.Keys == {"app", "bootName", "bootType"}
            && StatusOf(s, cfg).selector
               == "app=" + pods["app"] + ",bootName=" + pods["bootName"] + ",bootType=" + pods["bootType"]
  {
    PodsAreLabelled(s.boot, cfg);
    LabelsAsText(s.boot.name, TypeText(s.boot.bootType));
  }

  lemma LabelsAsText(name: string, kind: string)
    ensures "app=" + "havok" + ",bootName=" + name + ",bootType=" + kind
            == "app=havok,bootName=" + name + ",bootType=" + kind
  {
    assert "app=" + "havok" + ",bootName=" == "app=havok,bootName=";
  }

  // --------------------------------------------------------------------------
  // The kind of the workload.

  /** The kind the status ends up with: the one of the spec or, where that is open, the one the status
      named first. */
  function ToldKind(boot: Boot): Workload {
    match boot.spec.workload
    case StatefulSet => StatefulSet
    case Deployment => Deployment
    case OtherWorkload(_) => Deployment
    case Unset => if boot.status.workload == Unset then Deployment else boot.status.workload
  }

  lemma StatusTellsKind(s: State, cfg: Config)
    requires s.boot.spec.replicas.Some? && !s.boot.spec.workload.OtherWorkload?
    ensures StatusOf(s, cfg).workload == ToldKind(s.boot)
  {
  }

  lemma LateKeepsTold(s: State, cfg: Config)
    requires DefaultsSet(s.boot.spec) && H.IsStored(s.hpa) && !s.boot.spec.workload.OtherWorkload?
    ensures ToldKind(LateStages(s, cfg).state.boot) == ToldKind(s.boot)
  {
    if !H.Reconciled(s.hpa, s.boot.spec).written {
      if StatusOf(s, cfg) != s.boot.status {
        StatusKeepsTold(s, cfg);
      } else {
        MetaKeepsTold(s, cfg);
      }
    }
  }

  lemma StatusKeepsTold(s: State, cfg: Config)
    requires s.boot.spec.replicas.Some? && !s.boot.spec.workload.OtherWorkload?
    ensures ToldKind(s.boot.(status := StatusOf(s, cfg))) == ToldKind(s.boot)
  {
    StatusTellsKind(s, cfg);
  }

  lemma MetaKeepsTold(s: State, cfg: Config)
    requires s.boot.spec.replicas.Some?
    ensures ToldKind(MetaStage(s, cfg).state.boot) == ToldKind(s.boot)
  {
    MetaWrites(s, cfg);
    MetaBoot(s, cfg);
  }

  lemma ServicesKeepTold(s: State, cfg: Config, alloc: S.Allocator)
    requires Behind(s, cfg) && !Missing(s) && ServicesReady(s, cfg) && !s.boot.spec.workload.OtherWorkload?
    ensures ToldKind(ServiceStages(s, cfg, alloc).state.boot) == ToldKind(s.boot)
  {
    LateKeepsTold(AppFixed(s, cfg, alloc), cfg);
  }

  lemma ConvergeKeepsTold(s: State, cfg: Config, alloc: S.Allocator)
    requires Behind(s, cfg) && !s.boot.spec.workload.OtherWorkload?
    ensures WellFormedState(s) && OwnNames(s, cfg)
    ensures ToldKind(Converge(s, cfg, alloc).state.boot) == ToldKind(s.boot)
  {
    WorkableIsWellFormed(s, cfg);
    if !Missing(s) {
      ReadyForServices(s, cfg);
      ServicesKeepTold(s, cfg, alloc);
    }
  }

  lemma DefaultsKeepTold(boot: Boot, cfg: Config, once: Boot)
    requires Outcome(boot, cfg, once)
    ensures ToldKind(Stored(once)) == ToldKind(boot)
    ensures once.spec.workload == Unset <==> boot.spec.workload == Unset
  {
  }

  lemma CallKeepsTold(s: State, cfg: Config, alloc: S.Allocator)
    requires Workable(s, cfg)
    ensures WellFormedState(s) && ConfigComplete(cfg) && OwnNames(s, cfg)
    ensures ToldKind(Reconcile(s, cfg, alloc).state.boot) == ToldKind(s.boot)
  {
    WorkableIsWellFormed(s, cfg);
    if NeedsDefaults(s.boot, cfg) {
      OutcomeHolds(s.boot, cfg);
      DefaultsKeepTold(s.boot, cfg, SetDefaults(s.boot, cfg));
    } else {
      NoDefaultsNeeded(s.boot, cfg);
      ConvergeKeepsTold(s, cfg, alloc);
    }
  }

  lemma {:induction false} RunKeepsTold(s: State, cfg: Config, allocs: seq<S.Allocator>)
    requires Workable(s, cfg)
    ensures ToldKind(After(s, cfg, allocs).boot) == ToldKind(s.boot)
    decreases |allocs|
  {
    if allocs != [] {
      FirstCall(s, cfg, allocs);
      CallKeepsTold(s, cfg, allocs[0]);
      RunKeepsTold(Reconcile(s, cfg, allocs[0]).state, cfg, allocs[1..]);
    }
  }

  /** Main result: once the loop has settled, the status names the kind of the workload exactly when the
      request names one or the status did not name another before. A StatefulSet whose kind is removed
      from the request is reported for good, beside the Deployment that is there. */
  lemma StatusNamesKindExactly(s: State, cfg: Config, allocs: seq<S.Allocator>)
    requires Sane(s, cfg) && |allocs| >= 9
    ensures var settled := After(s, cfg, allocs).boot;
            && WantedKind(settled) == WantedKind(s.boot)
            && (settled.status.workload == WantedKind(s.boot)
                <==> s.boot.spec.workload != Unset || s.boot.status.workload in {Unset, Deployment})
  {
    var settled := After(s, cfg, allocs);
    RunServes(s, cfg, allocs);
    RunKeepsTold(s, cfg, allocs);
    NineCallsSettle(s, cfg, allocs);
    RankZeroTellsKind(settled, cfg, allocs[0]);
  }

  lemma RankZeroTellsKind(s: State, cfg: Config, alloc: S.Allocator)
    requires Sane(s, cfg) && Rank(s, cfg) == 0
    ensures s.boot.status.workload == ToldKind(s.boot)
  {
    ReconcileLowersRank(s, cfg, alloc);
    NoDefaultsNeeded(s.boot, cfg);
    QuietStages(s, cfg, alloc);
    StatusTellsKind(s, cfg);
  }
}
