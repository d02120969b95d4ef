/** Where the loop may start: conditions on a request and the configuration that make a boot sane. */
module Starting {
  import opened Wrappers
  import opened Placeholder
  import opened EnvList
  import opened Types
  import opened BootOps
  import opened Defaulter
  import opened DefaulterLaws
  import opened Workloads
  import W = WorkloadLaws
  import S = Services
  import opened RevisionLog
  import opened Cluster
  import opened StageLaws
  import opened LateLaws
  import opened Convergence

  predicate RecordIsCurrent(boot: Boot, cfg: Config) {
    Read(boot.annotations, BootDeployPvcs) == DeployPvcAnnotation(BootValues(boot, cfg), boot.spec.pvc, cfg)
  }

  /** A mount record that defaulting will not rewrite is the one it would write. */
  predicate MountsTrusted(boot: Boot, cfg: Config) {
    PvcKept(boot.spec, boot.annotations) ==> RecordIsCurrent(boot, cfg)
  }

  /** What keeps built and recorded mounts equal, and metrics consistent. */
  ghost predicate MountsKept(boot: Boot, cfg: Config) {
    && SafeNames(boot, cfg) && PortSettled(boot, cfg) && MountsTrusted(boot, cfg)
    && (Elements(boot.spec.pvc) != [] || !MountsMention(ConfigMounts(cfg)))
    && MetricsSettle(boot.spec)
  }

  lemma DefaultedKeepsMounts(boot: Boot, cfg: Config, once: Boot)
    requires MountsKept(boot, cfg) && Outcome(boot, cfg, once)
    ensures MountsKept(once, cfg) && RecordIsCurrent(once, cfg)
  {
    PvcRecord(boot, cfg, once, DefaultEnvStage(boot, DefaultPlain(boot.spec, cfg), boot.annotations, cfg));
    PortSettledDecoding(boot, cfg, once);
  }

  lemma StoredKeepsMounts(boot: Boot, cfg: Config)
    requires MountsKept(boot, cfg) && RecordIsCurrent(boot, cfg)
    ensures MountsKept(Stored(boot), cfg) && JsonNormal(Stored(boot).spec)
  {
    assert RawMounts(Stored(boot).spec.pvc, cfg) == RawMounts(boot.spec.pvc, cfg);
  }

  lemma WrittenKeepsMounts(boot: Boot, cfg: Config)
    requires MountsKept(boot, cfg)
    ensures MountsKept(Written(boot, cfg), cfg) && JsonNormal(Written(boot, cfg).spec)
  {
    OutcomeHolds(boot, cfg);
    DefaultedKeepsMounts(boot, cfg, SetDefaults(boot, cfg));
    StoredKeepsMounts(SetDefaults(boot, cfg), cfg);
  }

  lemma MountsAreCurrent(boot: Boot, cfg: Config)
    requires MountsTrusted(boot, cfg) && Quiet(boot, cfg)
    ensures RecordIsCurrent(boot, cfg)
  {
  }

  lemma QuietIsSettleable(boot: Boot, cfg: Config, claims: Claims)
    requires MountsKept(boot, cfg) && JsonNormal(boot.spec) && !NeedsDefaults(boot, cfg)
    ensures Settleable(boot, cfg, claims)
  {
    QuietExactly(boot, cfg);
    MountsAreCurrent(boot, cfg);
    W.CurrentMountsAreQuiet(boot, cfg, claims);
    assert Stored(boot) == boot;
  }

  /** From an API server's boot one write sets all defaults, unless the port of the mounts was open. */
  lemma WrittenNeedsNone(boot: Boot, cfg: Config)
    requires DefaultsWellFormed(cfg) && JsonNormal(boot.spec) && PassSettled(boot, cfg)
    ensures !NeedsDefaults(Written(boot, cfg), cfg) && Written(boot, cfg) == SetDefaults(boot, cfg)
  {
    StaysJsonNormal(boot, cfg);
    DefaultingIsFixpoint(boot, cfg);
    assert Stored(SetDefaults(boot, cfg)) == SetDefaults(boot, cfg);
  }

  /** Two writes always do. */
  lemma DefaultsEnd(boot: Boot, cfg: Config)
    requires DefaultsWellFormed(cfg) && NeedsDefaults(boot, cfg)
    ensures !NeedsDefaults(Final(boot, cfg), cfg) && JsonNormal(Final(boot, cfg).spec)
  {
    OutcomeHolds(boot, cfg);
    PortIsSet(boot, cfg, SetDefaults(boot, cfg));
    StoredPort(SetDefaults(boot, cfg), cfg);
    if NeedsDefaults(Written(boot, cfg), cfg) { WrittenNeedsNone(Written(boot, cfg), cfg); }
  }

  lemma StoredPort(boot: Boot, cfg: Config)
    requires PortSettled(boot, cfg)
    ensures PortSettled(Stored(boot), cfg) && JsonNormal(Stored(boot).spec)
  {
    assert RawMounts(Stored(boot).spec.pvc, cfg) == RawMounts(boot.spec.pvc, cfg);
  }

  /** Main result: under a well-formed configuration a boot is sane if its names are safe, its port is
      settled, its mount record can be trusted and its mount names are; the claims do not matter. */
  lemma KeptMountsAreSane(boot: Boot, cfg: Config, claims: Claims)
    requires DefaultsWellFormed(cfg) && MountsKept(boot, cfg)
    requires NeedsDefaults(boot, cfg) || JsonNormal(boot.spec)
    ensures SaneBoot(boot, cfg, claims)
  {
    if NeedsDefaults(boot, cfg) {
      DefaultsEnd(boot, cfg);
      WrittenKeepsMounts(boot, cfg);
      if NeedsDefaults(Written(boot, cfg), cfg) { WrittenKeepsMounts(Written(boot, cfg), cfg); }
    }
    QuietIsSettleable(Final(boot, cfg), cfg, claims);
  }

  lemma UnrecordedNeedsDefaults(boot: Boot, cfg: Config)
    requires Read(boot.annotations, BootEnvs) == NO_TEXT
    ensures NeedsDefaults(boot, cfg)
  {
    QuietExactly(boot, cfg);
  }

  /** A boot just created, with nothing in the cluster yet, is a sane start; all conditions are about the
      request and the configuration. */
  lemma FreshBootIsSane(boot: Boot, cfg: Config, claims: Claims, revisions: seq<Revision>)
    requires WellFormedConfig(cfg) && SafeNames(boot, cfg)
    requires Read(boot.annotations, BootEnvs) == NO_TEXT && Read(boot.annotations, BootPvcs) == NO_TEXT
    requires PortSettled(boot, cfg) && MetricsSettle(boot.spec)
    requires Elements(boot.spec.pvc) != [] || !MountsMention(ConfigMounts(cfg))
    requires S.DistinctNames(S.NewServices(boot, cfg, cfg.sidecars))
    ensures Sane(State(boot, map[], map[], None, claims, revisions, 0, 0), cfg)
  {
    FreshBootIsSettleable(boot, cfg, claims);
    EmptyClusterIsWorkable(boot, cfg, claims, revisions);
  }

  lemma FreshBootIsSettleable(boot: Boot, cfg: Config, claims: Claims)
    requires DefaultsWellFormed(cfg) && SafeNames(boot, cfg)
    requires Read(boot.annotations, BootEnvs) == NO_TEXT && Read(boot.annotations, BootPvcs) == NO_TEXT
    requires PortSettled(boot, cfg) && MetricsSettle(boot.spec)
    requires Elements(boot.spec.pvc) != [] || !MountsMention(ConfigMounts(cfg))
    ensures SaneBoot(boot, cfg, claims)
  {
    UnrecordedNeedsDefaults(boot, cfg);
    KeptMountsAreSane(boot, cfg, claims);
  }

  lemma EmptyClusterIsWorkable(boot: Boot, cfg: Config, claims: Claims, revisions: seq<Revision>)
    requires OverridesWellFormed(cfg) && ConfigComplete(cfg)
    requires S.DistinctNames(S.NewServices(boot, cfg, cfg.sidecars))
    ensures Workable(State(boot, map[], map[], None, claims, revisions, 0, 0), cfg)
  {
  }

  lemma PlainBootIsSane(boot: Boot, cfg: Config)
    requires WellFormedConfig(cfg) && SafeNames(boot, cfg) && cfg.container.None? && cfg.sidecars == []
    requires boot.annotations == map[] && boot.spec.pvc.None? && boot.spec.hpa.None? && boot.spec.nodePort == ""
    ensures exists s: State, c: Config :: Sane(s, c)
  {
    PlainMountsAreKept(boot, cfg);
    FreshBootIsSane(boot, cfg, map[], []);
  }

  lemma PlainMountsAreKept(boot: Boot, cfg: Config)
    requires SafeNames(boot, cfg) && cfg.container.None? && cfg.sidecars == []
    requires boot.annotations == map[] && boot.spec.pvc.None? && boot.spec.hpa.None? && boot.spec.nodePort == ""
    ensures MountsKept(boot, cfg)
    ensures cfg.prometheusScrape.Some? ==> S.DistinctNames(S.NewServices(boot, cfg, cfg.sidecars))
  {
    assert ConfigMounts(cfg) == [] && RawMounts(boot.spec.pvc, cfg) == [];
  }

  predicate EmptyClaimsRecorded(boot: Boot) {
    boot.spec.pvc == Some([]) && Read(boot.annotations, BootPvcs) == PvcJson(Some([]))
  }

  /** The defaults of a boot are there to stay, unless it has an explicitly empty claim list that is
      recorded as one: the first write drops the list, and the record does not fit any more. */
  lemma LastingExactly(boot: Boot, cfg: Config)
    requires !NeedsDefaults(boot, cfg) && W.FieldsNormal(boot.spec)
    ensures Lasting(boot, cfg) <==> !EmptyClaimsRecorded(boot)
  {
    QuietExactly(boot, cfg);
    StoringLeavesQuiet(boot, cfg);
  }

  lemma StoringLeavesQuiet(boot: Boot, cfg: Config)
    requires Quiet(boot, cfg) && W.FieldsNormal(boot.spec)
    ensures Quiet(Stored(boot), cfg) <==> !EmptyClaimsRecorded(boot)
  {
    var stored := Stored(boot);
    assert stored == boot.(spec := boot.spec.(pvc := DropEmptyList(boot.spec.pvc)));
    assert RawMounts(stored.spec.pvc, cfg) == RawMounts(boot.spec.pvc, cfg);
    UpdatesShow(boot.annotations, PvcUpdates(BootValues(boot, cfg), boot.spec.pvc, cfg));
    assert BootPvcs in PvcUpdates(BootValues(boot, cfg), boot.spec.pvc, cfg);
  }

  /** The assumptions can be met. */
  lemma SomeStateIsSane()
    ensures exists s: State, cfg: Config :: Sane(s, cfg)
  {
    var cfg := PlainConfig();
    assert Safe(BlankBoot().name) && Safe(cfg.operEnv);
    PlainBootIsSane(BlankBoot(), cfg);
  }
}
