/** The stages behind the services (autoscaler, status, revision phase, meta): each writes at most
    once, and what they write is nothing the earlier stages look at. */
module LateLaws {
  import opened Wrappers
  import opened Strconv
  import opened EnvList
  import opened Types
  import opened BootOps
  import opened Defaulter
  import opened DefaulterLaws
  import opened Workloads
  import W = WorkloadLaws
  import S = Services
  import opened ServiceNames
  import opened RevisionLog
  import H = Autoscaler
  import opened Cluster
  import opened StageLaws

  // --------------------------------------------------------------------------
  // What meta writes may change.

  predicate MetaKey(k: AnnotationKey) {
    || k == DeployKey || k == AppTypeKey || k == ServicesKey
    || k == StatusAvailable || k == StatusDesired || k == RevisionKey
  }

  /** The boots differ in status and meta annotations only. */
  ghost predicate MetaSame(a: Boot, b: Boot) {
    && b == a.(status := b.status, annotations := b.annotations)
    && forall k :: !MetaKey(k) ==> Read'(a.annotations, k) == Read'(b.annotations, k)
  }

  /** The second boot is the first, as it was or as the API server returns it after a write, with other
      status and meta annotations. */
  ghost predicate MetaOnly(a: Boot, b: Boot) {
    MetaSame(a, b) || MetaSame(Stored(a), b)
  }

  lemma StoredTwice(boot: Boot)
    ensures Stored(Stored(boot)) == Stored(boot)
  {
  }

  lemma MetaKeepsReading(a: Boot, b: Boot, k: AnnotationKey)
    requires MetaSame(a, b) && !MetaKey(k)
    ensures Read(a.annotations, k) == Read(b.annotations, k)
  {
  }

  lemma MetaKeepsUpdates(a: Boot, b: Boot, updates: Annotations)
    requires MetaSame(a, b) && forall k :: k in updates ==> !MetaKey(k)
    ensures a.annotations + updates == a.annotations <==> b.annotations + updates == b.annotations
  {
  }

  /** Defaulting does not look at them. */
  lemma MetaKeepsDefaults(a: Boot, b: Boot, cfg: Config)
    requires MetaSame(a, b)
    ensures Quiet(a, cfg) <==> Quiet(b, cfg)
  {
    MetaKeepsReading(a, b, BootEnvs);
    MetaKeepsReading(a, b, BootImages);
    MetaKeepsReading(a, b, BootPvcs);
    assert EnvKept(a.spec, a.annotations, cfg) == EnvKept(b.spec, b.annotations, cfg);
    MetaKeepsUpdates(a, b, PvcUpdates(BootValues(a, cfg), a.spec.pvc, cfg));
    MetaKeepsUpdates(a, b, WorkloadUpdates(a.spec.workload));
  }

  /** The defaults are set, and still set as the API server returns the boot. */
  ghost predicate Lasting(boot: Boot, cfg: Config) {
    Quiet(boot, cfg) && Quiet(Stored(boot), cfg)
  }

  lemma MetaKeepsLasting(a: Boot, b: Boot, cfg: Config)
    requires MetaOnly(a, b) && Lasting(a, cfg)
    ensures Lasting(b, cfg)
  {
    StoredTwice(a);
    if MetaSame(a, b) { MetaKeepsDefaults(a, b, cfg); }
    var c := if MetaSame(a, b) then Stored(b) else b;
    assert MetaSame(Stored(a), c);
    MetaKeepsDefaults(Stored(a), c, cfg);
  }

  /** The inspection of a template does not look at them. */
  lemma MetaKeepsVerdict(t: PodTemplate, a: Boot, b: Boot, cfg: Config, claims: Claims)
    requires MetaSame(a, b) && |t.containers| > 0
    ensures TemplateVerdict(t, a, cfg, claims) == TemplateVerdict(t, b, cfg, claims)
  {
    MetaKeepsReading(a, b, BootDeployPvcs);
    assert Read'(a.annotations, RestartedAt) == Read'(b.annotations, RestartedAt);
    assert forall m :: MountsOwnClaim(m, a, claims) == MountsOwnClaim(m, b, claims);
  }

  lemma MetaKeepsCheckable(a: Boot, b: Boot, cfg: Config, claims: Claims)
    requires MetaSame(a, b)
    ensures W.Checkable(a, cfg, claims) <==> W.Checkable(b, cfg, claims)
  {
    MetaKeepsReading(a, b, BootDeployPvcs);
    W.BuiltMounts(a, cfg);
    W.BuiltMounts(b, cfg);
    assert forall m :: MountsOwnClaim(m, a, claims) == MountsOwnClaim(m, b, claims);
  }

  /** Nor does it see whether an empty claim list is explicit. */
  lemma StoringKeepsVerdict(t: PodTemplate, boot: Boot, cfg: Config, claims: Claims)
    requires W.FieldsNormal(boot.spec) && |t.containers| > 0
    ensures TemplateVerdict(t, boot, cfg, claims) == TemplateVerdict(t, Stored(boot), cfg, claims)
  {
    assert Stored(boot) == boot.(spec := boot.spec.(pvc := DropEmptyList(boot.spec.pvc)));
    assert forall m :: MountsOwnClaim(m, boot, claims) == MountsOwnClaim(m, Stored(boot), claims);
  }

  lemma StoringKeepsCheckable(boot: Boot, cfg: Config, claims: Claims)
    requires W.Checkable(boot, cfg, claims)
    ensures W.Checkable(Stored(boot), cfg, claims)
  {
    W.BuiltMounts(boot, cfg);
    W.BuiltMounts(Stored(boot), cfg);
    assert RawMounts(Stored(boot).spec.pvc, cfg) == RawMounts(boot.spec.pvc, cfg);
    assert forall m :: MountsOwnClaim(m, boot, claims) == MountsOwnClaim(m, Stored(boot), claims);
  }

  /** Together: whatever the late stages write of a checkable boot, the inspection does not see it. */
  lemma LateKeepsVerdict(t: PodTemplate, a: Boot, b: Boot, cfg: Config, claims: Claims)
    requires MetaOnly(a, b) && W.Checkable(a, cfg, claims) && |t.containers| > 0
    ensures TemplateVerdict(t, a, cfg, claims) == TemplateVerdict(t, b, cfg, claims)
    ensures W.Checkable(b, cfg, claims)
  {
    StoringKeepsVerdict(t, a, cfg, claims);
    StoringKeepsCheckable(a, cfg, claims);
    var c := if MetaSame(a, b) then a else Stored(a);
    MetaKeepsVerdict(t, c, b, cfg, claims);
    MetaKeepsCheckable(c, b, cfg, claims);
  }

  lemma {:induction false} MetaKeepsPortServices(a: Boot, b: Boot, cfg: Config, ports: seq<ContainerPort>)
    requires MetaOnly(a, b)
    ensures S.PortServices(a, cfg, ports) == S.PortServices(b, cfg, ports)
  {
    if ports != [] { MetaKeepsPortServices(a, b, cfg, ports[1..]); }
  }

  lemma {:induction false} MetaKeepsSidecarServices(a: Boot, b: Boot, cfg: Config, sidecars: seq<Container>)
    requires MetaOnly(a, b)
    ensures S.SidecarServices(a, cfg, sidecars) == S.SidecarServices(b, cfg, sidecars)
  {
    if sidecars != [] {
      MetaKeepsPortServices(a, b, cfg, sidecars[0].ports);
      MetaKeepsSidecarServices(a, b, cfg, sidecars[1..]);
    }
  }

  lemma MetaKeepsServices(a: Boot, b: Boot, cfg: Config, sidecars: seq<Container>)
    requires MetaOnly(a, b) && S.ScrapeKnown(a.spec, cfg)
    ensures S.ScrapeKnown(b.spec, cfg) && S.NewServices(a, cfg, sidecars) == S.NewServices(b, cfg, sidecars)
  {
    MetaKeepsSidecarServices(a, b, cfg, sidecars);
  }

  // --------------------------------------------------------------------------
  // Status and meta settle.

  /** The phase of a revision does not decide which one is the latest. */
  lemma {:induction false} SameIds(a: seq<Revision>, b: seq<Revision>)
    requires |a| == |b| && forall i :: 0 <= i < |a| ==> GetRevisionId(a[i]) == GetRevisionId(b[i])
    ensures BestId(a) == BestId(b) && LatestIndex(a) == LatestIndex(b)
  {
    if a != [] { SameIds(a[..|a| - 1], b[..|b| - 1]); }
  }

  lemma PhasesSettle(s: State)
    requires s.boot.spec.replicas.Some?
    ensures RevisionText(PhasedRevisions(s)) == RevisionText(s.revisions)
    ensures PhasedRevisions(s.(revisions := PhasedRevisions(s))) == PhasedRevisions(s)
  {
    if s.revisions != [] { SameIds(s.revisions, PhasedRevisions(s)); }
  }

  /** The state the meta stage leaves. */
  ghost function MetaDone(s: State, cfg: Config): State
    requires s.boot.spec.replicas.Some?
  {
    var annotations := MetaAnnotations(s, cfg);
    s.(revisions := PhasedRevisions(s),
       boot := if annotations != s.boot.annotations then Stored(s.boot.(annotations := annotations)) else s.boot)
  }

  /** The listing of services depends on the services and the name of the boot. */
  lemma SameServicesText(a: State, b: State, cfg: Config)
    requires a.services == b.services && a.boot.name == b.boot.name
    ensures ServicesText(a, cfg) == ServicesText(b, cfg)
  {
    assert (set name | name in a.services && S.Selected(a.services[name], a.boot, cfg))
        == (set name | name in b.services && S.Selected(b.services[name], b.boot, cfg));
  }

  /** On a revision log, listed in any order, the phase update of the controller is the one of the log. */
  lemma PhasesFollowLog(s: State, log: Log, base: string)
    requires s.boot.spec.replicas.Some?
    requires IsLog(log, base) && multiset(s.revisions) == multiset(log)
    ensures multiset(PhasedRevisions(s)) == multiset(WithPhase(log, PhaseOf(s)))
  {
    ListedIds(log, base, s.revisions);
    if s.revisions != [] {
      assert GetRevisionId(s.revisions[0]) >= 1;
      LatestMeans(s.revisions);
      var i := LatestIndex(s.revisions);
      LatestIsLast(log, base, s.revisions, i);
      PhaseIsUpdate(log, PhaseOf(s));
      Replaced(s.revisions, i, s.revisions[i].(phase := PhaseOf(s)));
      Replaced(log, |log| - 1, Last(log).(phase := PhaseOf(s)));
    }
  }

  lemma StatusSettles(s: State, cfg: Config)
    requires s.boot.spec.replicas.Some?
    ensures var next := s.(boot := s.boot.(status := StatusOf(s, cfg)));
            StatusOf(next, cfg) == next.boot.status && ServicesText(next, cfg) == ServicesText(s, cfg)
  {
    SameServicesText(s, s.(boot := s.boot.(status := StatusOf(s, cfg))), cfg);
  }

  lemma MetaUpdatesAgree(a: State, b: State, cfg: Config)
    requires a.boot.spec.replicas.Some? && a.boot.spec.replicas == b.boot.spec.replicas
    requires a.boot.name == b.boot.name && a.ready == b.ready
    requires ServicesText(a, cfg) == ServicesText(b, cfg) && RevisionText(a.revisions) == RevisionText(b.revisions)
    ensures MetaUpdates(a, cfg) == MetaUpdates(b, cfg)
  {
  }

  lemma MetaUpdatesKeys(s: State, cfg: Config)
    requires s.boot.spec.replicas.Some?
    ensures forall k :: k in MetaUpdates(s, cfg) ==> MetaKey(k)
  {
  }

  lemma UpdatedTwice(annotations: Annotations, updates: Annotations)
    ensures annotations + updates + updates == annotations + updates
  {
  }

  lemma OnlyUpdated(boot: Boot, updates: Annotations)
    requires forall k :: k in updates ==> MetaKey(k)
    ensures MetaSame(boot, boot.(annotations := boot.annotations + updates))
  {
  }

  /** What the meta stage does to the boot. */
  lemma MetaBoot(s: State, cfg: Config)
    requires s.boot.spec.replicas.Some?
    ensures var next := MetaDone(s, cfg).boot;
            && next.annotations == MetaAnnotations(s, cfg) && next.name == s.boot.name && next.status == s.boot.status
            && (next.spec == s.boot.spec || next.spec == StoredSpec(s.boot.spec))
            && MetaOnly(s.boot, next)
  {
    MetaUpdatesKeys(s, cfg);
    OnlyUpdated(s.boot, MetaUpdates(s, cfg));
    OnlyUpdated(Stored(s.boot), MetaUpdates(s, cfg));
  }

  lemma MetaSettles(s: State, cfg: Config)
    requires s.boot.spec.replicas.Some?
    ensures var next := MetaDone(s, cfg);
            && PhasedRevisions(next) == next.revisions
            && MetaAnnotations(next, cfg) == next.boot.annotations
            && StatusOf(next, cfg) == StatusOf(s, cfg)
            && MetaOnly(s.boot, next.boot)
  {
    var next := MetaDone(s, cfg);
    MetaBoot(s, cfg);
    PhasesSettle(s);
    SameServicesText(s, next, cfg);
    MetaUpdatesAgree(s, next, cfg);
    UpdatedTwice(s.boot.annotations, MetaUpdates(s, cfg));
    SameStatus(s, next, cfg);
  }

  lemma SameStatus(a: State, b: State, cfg: Config)
    requires a.boot.spec.replicas.Some? && a.boot.spec.replicas == b.boot.spec.replicas
    requires a.boot.name == b.boot.name && a.boot.bootType == b.boot.bootType && a.boot.status == b.boot.status
    requires a.boot.spec.workload == b.boot.spec.workload && a.ready == b.ready && a.current == b.current
    requires ServicesText(a, cfg) == ServicesText(b, cfg) && RevisionText(a.revisions) == RevisionText(b.revisions)
    ensures StatusOf(a, cfg) == StatusOf(b, cfg)
  {
  }

  /** How many of the late stages still have something to write, the later ones counting less. */
  ghost function LateRank(s: State, cfg: Config): (rank: nat)
    requires DefaultsSet(s.boot.spec)
    ensures rank <= 3
  {
    if H.Reconciled(s.hpa, s.boot.spec).written then 3
    else if StatusOf(s, cfg) != s.boot.status then 2
    else if PhasedRevisions(s) != s.revisions || MetaAnnotations(s, cfg) != s.boot.annotations then 1
    else 0
  }

  /** Nothing but autoscaler, revisions, status and meta annotations differs. */
  ghost predicate LateOnly(s: State, next: State) {
    && next == s.(boot := next.boot, hpa := next.hpa, revisions := next.revisions)
    && MetaOnly(s.boot, next.boot)
    && H.IsStored(next.hpa)
  }

  /** The late stages change nothing else, whatever the metrics. */
  lemma LateShape(s: State, cfg: Config)
    requires DefaultsSet(s.boot.spec) && H.IsStored(s.hpa)
    ensures !LateStages(s, cfg).failed && LateOnly(s, LateStages(s, cfg).state)
  {
    if !H.Reconciled(s.hpa, s.boot.spec).written && StatusOf(s, cfg) == s.boot.status {
      MetaSettles(s, cfg);
      MetaWrites(s, cfg);
    }
  }

  lemma LateStage(s: State, cfg: Config)
    requires DefaultsSet(s.boot.spec) && MetricsSettle(s.boot.spec) && H.IsStored(s.hpa)
    ensures var late := LateStages(s, cfg);
            && !late.failed && LateOnly(s, late.state) && DefaultsSet(late.state.boot.spec)
            && (late.written ==> LateRank(late.state, cfg) < LateRank(s, cfg))
            && (!late.written ==> late.state == s && LateRank(s, cfg) == 0)
  {
    LateShape(s, cfg);
    LateFalls(s, cfg);
  }

  lemma LateFalls(s: State, cfg: Config)
    requires DefaultsSet(s.boot.spec) && MetricsSettle(s.boot.spec) && H.IsStored(s.hpa)
    ensures var late := LateStages(s, cfg);
            && DefaultsSet(late.state.boot.spec)
            && (late.written ==> LateRank(late.state, cfg) < LateRank(s, cfg))
            && (!late.written ==> late.state == s && LateRank(s, cfg) == 0)
  {
    if H.Reconciled(s.hpa, s.boot.spec).written {
      H.SecondCallIsQuiet(s.hpa, s.boot.spec);
    } else if StatusOf(s, cfg) != s.boot.status {
      StatusSettles(s, cfg);
    } else {
      MetaFalls(s, cfg);
      MetaWrites(s, cfg);
    }
  }

  lemma MetaFalls(s: State, cfg: Config)
    requires DefaultsSet(s.boot.spec) && !H.Reconciled(s.hpa, s.boot.spec).written && StatusOf(s, cfg) == s.boot.status
    ensures DefaultsSet(MetaDone(s, cfg).boot.spec) && LateRank(MetaDone(s, cfg), cfg) == 0
  {
    MetaBoot(s, cfg);
    MetaSettles(s, cfg);
  }

  lemma MetaWrites(s: State, cfg: Config)
    requires s.boot.spec.replicas.Some?
    ensures MetaStage(s, cfg)
            == Call(MetaDone(s, cfg),
                    MetaAnnotations(s, cfg) != s.boot.annotations || PhasedRevisions(s) != s.revisions, false)
    ensures MetaAnnotations(s, cfg) == s.boot.annotations && PhasedRevisions(s) == s.revisions ==> MetaDone(s, cfg) == s
  {
  }
}
