/** The controller as it runs: the stages of pkg/controller/javaboot/javaboot_controller.go on live
    objects, each proved to be the step that the convergence results are about. */
module Controller {
  import opened Wrappers
  import opened Strconv
  import opened EnvList
  import opened Types
  import opened BootOps
  import opened Defaulter
  import opened DefaulterLaws
  import opened Workloads
  import S = Services
  import L = ServiceLaws
  import opened ServiceNames
  import opened RevisionLog
  import H = Autoscaler
  import opened Cluster

  class Reconciler {
    const cfg: Config
    const claims: Claims
    const alloc: S.Allocator
    const store: S.ServiceStore
    const autoscaler: H.HpaStore
    var boot: Boot
    var workloads: map<Workload, WorkloadObject>
    var revisions: seq<Revision>
    var ready: int
    var current: int

    constructor (s: State, cfg: Config, alloc: S.Allocator)
      ensures fresh(store) && fresh(autoscaler)
      ensures this.cfg == cfg && this.alloc == alloc && Snapshot() == s
    {
      this.cfg, this.alloc, claims := cfg, alloc, s.claims;
      boot, workloads, revisions, ready, current := s.boot, s.workloads, s.revisions, s.ready, s.current;
      store := new S.ServiceStore(s.services);
      autoscaler := new H.HpaStore(s.hpa);
    }

    ghost function Snapshot(): State
      reads this, store, autoscaler
    {
      State(boot, workloads, store.services, autoscaler.hpa, claims, revisions, ready, current)
    }

    /** Sets the defaults and writes the boot back when there was something to set. */
    method ReconcileDefaults() returns (changed: bool)
      modifies this`boot
      ensures changed == NeedsDefaults(old(boot), cfg)
      ensures Snapshot() == if changed then WriteBoot(old(Snapshot()), SetDefaults(old(boot), cfg)) else old(Snapshot())
    {
      var handler := new BootHandler(boot, cfg);
      changed := handler.SetDefaults();
      if changed {
        boot := boot.(spec := StoredSpec(handler.spec), annotations := handler.annotations);
      }
    }

    /** Creates the workload and, when the app service is missing, all services. */
    method ReconcileCreate() returns (requeue: bool)
      requires boot.spec.replicas.Some? && S.ScrapeKnown(boot.spec, cfg)
      requires forall k :: k in workloads ==> |workloads[k].template.containers| > 0
      modifies this`workloads, store
      ensures requeue == Missing(old(Snapshot()))
      ensures Snapshot() == if requeue then Created(old(Snapshot()), cfg, alloc) else old(Snapshot())
    {
      requeue := false;
      var kind := EffectiveWorkload(boot.spec.workload);
      if kind !in workloads {
        workloads := workloads[kind := StoredWorkload(NewWorkload(boot, cfg))];
        requeue := true;
      }
      if boot.name !in store.services {
        var expected := S.NewServices(boot, cfg, workloads[kind].template.containers[1..]);
        var _ := store.CreateServices(expected, alloc);
        requeue := true;
      }
    }

    method ReconcileWorkload() returns (written: bool, failed: bool)
      requires boot.spec.replicas.Some? && EffectiveWorkload(boot.spec.workload) in workloads
      requires |workloads[EffectiveWorkload(boot.spec.workload)].template.containers| > 0
      modifies this`workloads
      ensures var s := old(Snapshot());
              var updated := UpdatedWorkload(s.workloads[Kind(s)], s.boot, cfg, claims);
              && written == updated.written && failed == updated.failed
              && Snapshot() == if written then s.(workloads := s.workloads[Kind(s) := updated.workload]) else s
    {
      var kind := EffectiveWorkload(boot.spec.workload);
      var handler := new WorkloadHandler(boot, cfg, claims, workloads[kind]);
      var stored;
      stored, written, failed := handler.Update();
      if written {
        workloads := workloads[kind := stored];
      }
    }

    /** The app service, which is written without ending the call. */
    method ReconcileAppService() returns (updated: bool)
      requires ServicesReady(Snapshot(), cfg)
      modifies store
      ensures updated == AppDiffers(old(Snapshot()), cfg)
      ensures Snapshot() == old(Snapshot()).(services := AppUpdated(old(Snapshot()), cfg, alloc))
    {
      var svc := new S.ServiceObject(store.services[boot.name]);
      updated := svc.AlignApp(boot, cfg);
      if updated {
        var value := svc.Read();
        store.services := store.services[boot.name := S.StoredService(value, alloc)];
      }
    }

    /** The names of the services with the labels of the boot, in the order they come. */
    method ListServices() returns (names: seq<string>)
      ensures TransferServiceNames(names) == ServicesText(Snapshot(), cfg)
    {
      var todo := set name | name in store.services && S.Selected(store.services[name], boot, cfg);
      ghost var all := todo;
      names := [];
      while todo != {}
        invariant todo <= all && multiset(names) == multiset(all - todo)
      {
        var name :| name in todo;
        assert all - (todo - {name}) == (all - todo) + {name};
        names := names + [name];
        todo := todo - {name};
      }
      assert all - todo == all;
      ListedInAnyOrder(all, names);
    }

    /** The pod counts of the status. */
    method AlignCounts(was: BootStatus) returns (status: BootStatus, changed: bool)
      requires boot.spec.replicas.Some?
      ensures var n := boot.spec.replicas.value;
              status == was.(replicas := n, hpaReplicas := n, readyReplicas := ready, currentReplicas := current)
      ensures changed == (status != was)
    {
      var replicas := boot.spec.replicas.value;
      status, changed := was, false;
      if status.replicas != replicas {
        status := status.(replicas := replicas);
        changed := true;
      }
      if status.hpaReplicas != replicas {
        status := status.(hpaReplicas := replicas);
        changed := true;
      }
      if status.readyReplicas != ready {
        status := status.(readyReplicas := ready);
        changed := true;
      }
      if status.currentReplicas != current {
        status := status.(currentReplicas := current);
        changed := true;
      }
    }

    /** The kind of workload in the status; an open one is a Deployment. */
    method AlignKind(was: BootStatus) returns (status: BootStatus, changed: bool)
      ensures status == was.(workload := if boot.spec.workload != Unset then boot.spec.workload
                                         else if was.workload == Unset then Deployment else was.workload)
      ensures changed == (status != was)
    {
      status, changed := was, false;
      if boot.spec.workload != Unset {
        if status.workload != boot.spec.workload {
          status := status.(workload := boot.spec.workload);
          changed := true;
        }
      }
      if status.workload == Unset {
        status := status.(workload := Deployment);
        changed := true;
      }
    }

    /** The listing of services and the number of the newest revision in the status. */
    method AlignTexts(was: BootStatus) returns (status: BootStatus, changed: bool)
      ensures status == was.(services := ServicesText(Snapshot(), cfg),
                             revision := if RevisionText(revisions).Some? then RevisionText(revisions).value
                                         else was.revision)
      ensures changed == (status != was)
    {
      status, changed := was, false;
      var names := ListServices();
      var text := TransferServiceNames(names);
      if status.services != text {
        status := status.(services := text);
        changed := true;
      }
      var latest := SelectLatestRevision(revisions);
      if latest.Some? {
        var id := Itoa(GetRevisionId(revisions[latest.value]));
        if status.revision != id {
          status := status.(revision := id);
          changed := true;
        }
      }
    }

    /** The status, field by field. */
    method StatusFields() returns (status: BootStatus, changed: bool)
      requires boot.spec.replicas.Some?
      ensures status == StatusOf(Snapshot(), cfg) && changed == (status != boot.status)
    {
      var counts, kind, texts;
      status, counts := AlignCounts(boot.status);
      var selector := SelectorText(boot);
      var selects := status.selector == "" || status.selector != selector;
      if selects {
        status := status.(selector := selector);
      }
      status, kind := AlignKind(status);
      status, texts := AlignTexts(status);
      changed := counts || selects || kind || texts;
    }

    method ReconcileStatus() returns (changed: bool)
      requires boot.spec.replicas.Some?
      modifies this`boot
      ensures changed == (StatusOf(old(Snapshot()), cfg) != old(boot.status))
      ensures Snapshot() == old(Snapshot()).(boot := old(boot).(status := StatusOf(old(Snapshot()), cfg)))
    {
      var status;
      status, changed := StatusFields();
      boot := boot.(status := status);
    }

    /** The phase of the newest revision. */
    method ReconcileRevision() returns (latest: Option<nat>, written: bool)
      requires boot.spec.replicas.Some?
      modifies this`revisions
      ensures Snapshot() == old(Snapshot()).(revisions := PhasedRevisions(old(Snapshot())))
      ensures written == (PhasedRevisions(old(Snapshot())) != old(revisions))
      ensures latest == if revisions == [] then None else Some(LatestIndex(old(revisions)))
    {
      var phase := if ready == boot.spec.replicas.value && ready == current then Active else Running;
      latest := SelectLatestRevision(revisions);
      written := false;
      if latest.Some? {
        var revision := revisions[latest.value];
        if revision.phase != phase {
          revisions := revisions[latest.value := revision.(phase := phase)];
          assert revisions[latest.value] != old(revisions)[latest.value];
          written := true;
        }
      }
    }

    /** The meta annotations of the boot, after the phase of its newest revision. */
    method ReconcileMeta() returns (written: bool)
      requires boot.spec.replicas.Some?
      modifies this`boot, this`revisions
      ensures Call(Snapshot(), written, false) == MetaStage(old(Snapshot()), cfg)
    {
      var latest, phased := ReconcileRevision();
      var names := ListServices();
      var updates := map[
        DeployKey := Plain(boot.name),
        AppTypeKey := Plain("deploy"),
        ServicesKey := Plain(TransferServiceNames(names)),
        StatusAvailable := Plain(Itoa(ready)),
        StatusDesired := Plain(Itoa(boot.spec.replicas.value))];
      if latest.Some? {
        updates := updates[RevisionKey := Plain(Itoa(GetRevisionId(revisions[latest.value])))];
      }
      var handler := new BootHandler(boot, cfg);
      var updated := handler.UpdateAnnotation(updates);
      if updated {
        boot := boot.(spec := StoredSpec(boot.spec), annotations := handler.annotations);
      }
      written := updated || phased;
    }

    /** Autoscaler, status and meta, each ending the call when it writes. */
    method ReconcileLate() returns (written: bool)
      requires DefaultsSet(boot.spec)
      modifies this`boot, this`revisions, autoscaler
      ensures Call(Snapshot(), written, false) == LateStages(old(Snapshot()), cfg)
    {
      ghost var s := Snapshot();
      written := autoscaler.ReconcileHpa(boot.spec);
      if written {
        return;
      }
      assert Snapshot() == s;
      written := ReconcileStatus();
      if written {
        return;
      }
      assert Snapshot() == s;
      written := ReconcileMeta();
    }

    /** The other services of the workload that is there. */
    method ReconcileOthers() returns (updated: bool, failed: bool)
      requires ServicesReady(Snapshot(), cfg)
      modifies store
      ensures var s := old(Snapshot());
              var expected := Expected(s.boot, cfg, s.workloads[Kind(s)]);
              && failed == !S.NoForeignHolder(s.services, s.boot, cfg, expected)
              && updated == (if failed then S.FailedPassWrites(s.services, s.boot, cfg, expected)
                             else S.PassWrites(s.services, s.boot, cfg, expected))
              && Snapshot() == s.(services := if failed then S.FailedPass(s.services, s.boot, cfg, expected, alloc)
                                              else S.Pass(s.services, s.boot, cfg, expected, alloc))
    {
      var template := workloads[EffectiveWorkload(boot.spec.workload)].template;
      var expected := S.NewServices(boot, cfg, template.containers[1..]);
      updated, failed := store.ReconcileOther(boot, cfg, expected, alloc);
    }

    /** The services and what follows. */
    method ReconcileServices() returns (written: bool, failed: bool)
      requires DefaultsSet(boot.spec) && ServicesReady(Snapshot(), cfg)
      requires L.AllExpected(Expected(boot, cfg, workloads[EffectiveWorkload(boot.spec.workload)]), boot, cfg)
      modifies this`boot, this`revisions, store, autoscaler
      ensures Call(Snapshot(), written, failed) == ServiceStages(old(Snapshot()), cfg, alloc)
    {
      ghost var s := Snapshot();
      AppUpdatedIsReady(s, cfg, alloc);
      var app := ReconcileAppService();
      ghost var fixed := Snapshot();
      var others;
      others, failed := ReconcileOthers();
      if failed || others {
        return app || others, failed;
      }
      NothingPassed(fixed, cfg, alloc);
      assert Snapshot() == fixed;
      var late := ReconcileLate();
      written := app || late;
    }

    /** One call. */
    method Reconcile() returns (written: bool, failed: bool)
      requires WellFormedState(Snapshot()) && ConfigComplete(cfg) && OwnNames(Snapshot(), cfg)
      modifies this`boot, this`workloads, this`revisions, store, autoscaler
      ensures Call(Snapshot(), written, failed) == Cluster.Reconcile(old(Snapshot()), cfg, alloc)
    {
      failed := false;
      written := ReconcileDefaults();
      if written {
        return;
      }
      NoDefaultsNeeded(boot, cfg);
      written, failed := ReconcileObjects();
    }

    /** The stages behind defaulting. */
    method ReconcileObjects() returns (written: bool, failed: bool)
      requires WellFormedState(Snapshot()) && ConfigComplete(cfg) && OwnNames(Snapshot(), cfg)
      requires DefaultsSet(boot.spec)
      modifies this`boot, this`workloads, this`revisions, store, autoscaler
      ensures Call(Snapshot(), written, failed) == Converge(old(Snapshot()), cfg, alloc)
    {
      ghost var s := Snapshot();
      written := ReconcileCreate();
      if written {
        return true, false;
      }
      ReadyForServices(s, cfg);
      L.NewServicesExpected(boot, cfg, workloads[EffectiveWorkload(boot.spec.workload)].template.containers[1..]);
      written, failed := ReconcileWorkload();
      if written || failed {
        return;
      }
      written, failed := ReconcileServices();
    }
  }

  lemma AppUpdatedIsReady(s: State, cfg: Config, alloc: S.Allocator)
    requires ServicesReady(s, cfg)
    ensures ServicesReady(s.(services := AppUpdated(s, cfg, alloc)), cfg)
  {
  }

  lemma NothingPassed(s: State, cfg: Config, alloc: S.Allocator)
    requires ServicesReady(s, cfg)
    requires var expected := Expected(s.boot, cfg, s.workloads[Kind(s)]);
             && L.AllExpected(expected, s.boot, cfg)
             && S.NoForeignHolder(s.services, s.boot, cfg, expected) && !S.PassWrites(s.services, s.boot, cfg, expected)
    ensures S.Pass(s.services, s.boot, cfg, Expected(s.boot, cfg, s.workloads[Kind(s)]), alloc) == s.services
  {
  }
}
