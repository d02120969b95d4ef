/** What defaulting means: it reports exactly its changes, it is a fixpoint after one pass exactly
    for well-formed configurations, and it keeps the environment and mount records in step. */
module DefaulterLaws {
  import opened Wrappers
  import opened Strconv
  import opened Placeholder
  import opened EnvList
  import opened Difference
  import opened Types
  import opened BootOps
  import opened Defaulter

  /** The boot with its defaults set. */
  function SetDefaults(boot: Boot, cfg: Config): Boot {
    var d := DefaultValue(boot, cfg);
    boot.(spec := d.spec, annotations := d.annotations)
  }

  predicate NeedsDefaults(boot: Boot, cfg: Config) {
    DefaultValue(boot, cfg).changed
  }

  /** A pass that reports no change has made none, whatever the configuration. */
  lemma FalseMeansUnchanged(boot: Boot, cfg: Config)
    requires !NeedsDefaults(boot, cfg)
    ensures SetDefaults(boot, cfg) == boot
  {
    PlainUnchanged(boot.spec, cfg);
  }

  lemma PlainUnchanged(spec: BootSpec, cfg: Config)
    requires !PlainChanged(spec, cfg)
    ensures DefaultPlain(spec, cfg) == spec
  {
    if !IsEmptyMap(spec.nodeSelector) {
      assert forall key :: key in cfg.nodeSelector ==> !SelectorDiffers(spec.nodeSelector.value, cfg.nodeSelector, key);
      assert spec.nodeSelector.value + cfg.nodeSelector == spec.nodeSelector.value;
    }
  }

  /** Whatever happened, a non-zero limit bounds its request afterwards. */
  lemma LimitsBoundRequests(boot: Boot, cfg: Config, name: ResourceName)
    requires name == Cpu || name == Memory
    ensures var spec := DefaultValue(boot, cfg).spec;
            Quantity(spec.limits, name) != 0 ==> Quantity(spec.requests, name) <= Quantity(spec.limits, name)
  {
    var filled := FillResources(boot.spec.requests, cfg.requests);
    CapBounds(filled, DefaultLimits(boot.spec, cfg), name);
    OutcomeHolds(boot, cfg);
    OutcomeResources(boot, cfg, SetDefaults(boot, cfg));
  }

  lemma CapBounds(filled: Option<Quantities>, limits: Option<Quantities>, name: ResourceName)
    requires name == Cpu || name == Memory
    ensures !Exceeds(Cap(Cap(filled, limits, Cpu), limits, Memory), limits, name)
  {
  }

  lemma OutcomeResources(boot: Boot, cfg: Config, once: Boot)
    requires Outcome(boot, cfg, once)
    ensures once.spec.limits == DefaultLimits(boot.spec, cfg) && once.spec.requests == DefaultRequests(boot.spec, cfg)
  {
  }

  // --------------------------------------------------------------------------
  // The fixpoint.

  /** What one pass leaves behind, field by field. */
  ghost predicate Outcome(boot: Boot, cfg: Config, once: Boot) {
    var plain := DefaultPlain(boot.spec, cfg);
    var env := DefaultEnvStage(boot, plain, boot.annotations, cfg);
    && once.name == boot.name && once.namespace == boot.namespace && once.bootType == boot.bootType
    && once.status == boot.status
    && once.spec == plain.(env := env.spec.env,
                           workload := if plain.workload.OtherWorkload? then Deployment else plain.workload,
                           hpa := DefaultHpa(plain.hpa, cfg))
    && once.annotations == DefaultPvcAnnotations(BootValues(boot, cfg), env.spec, env.annotations, cfg)
                           + WorkloadUpdates(plain.workload)
  }

  lemma OutcomeHolds(boot: Boot, cfg: Config)
    ensures Outcome(boot, cfg, SetDefaults(boot, cfg))
  {
  }

  /** The conditions under which a pass reports no change. */
  ghost predicate Quiet(boot: Boot, cfg: Config) {
    && !PlainChanged(boot.spec, cfg)
    && EnvKept(boot.spec, boot.annotations, cfg)
    && DefaultPvcAnnotations(BootValues(boot, cfg), boot.spec, boot.annotations, cfg) == boot.annotations
    && !boot.spec.workload.OtherWorkload?
    && boot.annotations + WorkloadUpdates(boot.spec.workload) == boot.annotations
    && !HpaChanged(boot.spec.hpa)
  }

  lemma QuietExactly(boot: Boot, cfg: Config)
    ensures Quiet(boot, cfg) <==> !NeedsDefaults(boot, cfg)
  {
  }

  lemma ScalarsSettle(spec: BootSpec, cfg: Config)
    ensures !ScalarsChanged(DefaultScalars(spec, cfg), cfg)
  {
  }

  lemma FilledIsComplete(list: Option<Quantities>, from: Quantities)
    requires CompleteOrEmpty(from)
    ensures !ResourcesChanged(FillResources(list, from), from)
  {
  }

  lemma UnchangedIsFilled(list: Option<Quantities>, from: Quantities)
    requires !ResourcesChanged(list, from)
    ensures FillResources(list, from) == list
  {
  }

  lemma CappedSettles(filled: Option<Quantities>, limits: Option<Quantities>, from: Quantities)
    requires !ResourcesChanged(filled, from)
    ensures var capped := Cap(Cap(filled, limits, Cpu), limits, Memory);
            !ResourcesChanged(capped, from) && !Exceeds(capped, limits, Cpu) && !Exceeds(capped, limits, Memory)
  {
  }

  lemma SelectorSettles(selector: Option<Labels>, from: Labels)
    requires forall k :: k in from ==> from[k] != ""
    ensures !NodeSelectorChanged(DefaultNodeSelector(selector, from), from)
  {
  }

  lemma PlainSettles(boot: Boot, cfg: Config, once: Boot)
    requires DefaultsWellFormed(cfg)
    requires Outcome(boot, cfg, once)
    ensures !PlainChanged(once.spec, cfg)
  {
    ScalarsSettle(boot.spec, cfg);
    FilledIsComplete(boot.spec.limits, cfg.limits);
    UnchangedIsFilled(once.spec.limits, cfg.limits);
    FilledIsComplete(boot.spec.requests, cfg.requests);
    CappedSettles(FillResources(boot.spec.requests, cfg.requests), once.spec.limits, cfg.requests);
    UnchangedIsFilled(once.spec.requests, cfg.requests);
    SelectorSettles(boot.spec.nodeSelector, cfg.nodeSelector);
  }

  /** The environment stage writes its own three records only. */
  lemma EnvStageKeepsKey(boot: Boot, spec: BootSpec, annotations: Annotations, cfg: Config, k: AnnotationKey)
    requires k != EnvGenerated && k != BootImages && k != BootEnvs
    ensures Read'(DefaultEnvStage(boot, spec, annotations, cfg).annotations, k) == Read'(annotations, k)
  {
  }

  /** The stages behind it write the records of claims and workload only. */
  lemma LaterStagesKeepKey(v: Values, spec: BootSpec, annotations: Annotations, w: Workload, cfg: Config,
          k: AnnotationKey)
    requires k != BootPvcs && k != BootDeployPvcs && k != WorkloadKey
    ensures Read'(DefaultPvcAnnotations(v, spec, annotations, cfg) + WorkloadUpdates(w), k) == Read'(annotations, k)
  {
  }

  lemma EnvStageSettles(boot: Boot, spec: BootSpec, annotations: Annotations, cfg: Config)
    ensures var env := DefaultEnvStage(boot, spec, annotations, cfg);
            EnvKept(env.spec, env.annotations, cfg) && env.spec == spec.(env := env.spec.env)
  {
  }

  lemma EnvKeptAlike(a: BootSpec, one: Annotations, b: BootSpec, two: Annotations, cfg: Config)
    requires a.env == b.env && a.image == b.image && a.version == b.version
    requires Read'(one, BootEnvs) == Read'(two, BootEnvs) && Read'(one, BootImages) == Read'(two, BootImages)
    ensures EnvKept(a, one, cfg) == EnvKept(b, two, cfg)
  {
  }

  lemma EnvSettles(boot: Boot, cfg: Config, once: Boot)
    requires Outcome(boot, cfg, once)
    ensures EnvKept(once.spec, once.annotations, cfg)
  {
    var plain := DefaultPlain(boot.spec, cfg);
    var env := DefaultEnvStage(boot, plain, boot.annotations, cfg);
    EnvStageSettles(boot, plain, boot.annotations, cfg);
    LaterStagesKeepKey(BootValues(boot, cfg), env.spec, env.annotations, plain.workload, cfg, BootEnvs);
    LaterStagesKeepKey(BootValues(boot, cfg), env.spec, env.annotations, plain.workload, cfg, BootImages);
    EnvKeptAlike(env.spec, env.annotations, once.spec, once.annotations, cfg);
  }

  /** The port that decoded the mounts of this pass is the port of the next one, or does not matter. */
  ghost predicate PortSettled(boot: Boot, cfg: Config) {
    boot.spec.port > 0 || cfg.port <= 0 || PortFree(RawMounts(boot.spec.pvc, cfg))
  }

  /** The next pass does not look at the mounts again, or sees the same ones. */
  ghost predicate PassSettled(boot: Boot, cfg: Config) {
    Elements(boot.spec.pvc) != [] || PortSettled(boot, cfg)
  }

  lemma PortSettledDecoding(boot: Boot, cfg: Config, once: Boot)
    requires Outcome(boot, cfg, once)
    requires PortSettled(boot, cfg)
    ensures DeployPvcAnnotation(BootValues(once, cfg), once.spec.pvc, cfg)
            == DeployPvcAnnotation(BootValues(boot, cfg), boot.spec.pvc, cfg)
  {
    if boot.spec.port <= 0 && cfg.port > 0 {
      PortFreeDecoding(BootValues(boot, cfg), once.spec.port, RawMounts(boot.spec.pvc, cfg));
    }
  }

  lemma PvcSettles(boot: Boot, cfg: Config, once: Boot)
    requires Outcome(boot, cfg, once)
    requires PassSettled(boot, cfg)
    ensures DefaultPvcAnnotations(BootValues(once, cfg), once.spec, once.annotations, cfg) == once.annotations
  {
    var env := DefaultEnvStage(boot, DefaultPlain(boot.spec, cfg), boot.annotations, cfg);
    PvcRecord(boot, cfg, once, env);
    if PvcKept(env.spec, env.annotations) || Elements(boot.spec.pvc) != [] {
    } else {
      PortSettledDecoding(boot, cfg, once);
      Overlaid(env.annotations, PvcUpdates(BootValues(boot, cfg), env.spec.pvc, cfg),
          WorkloadUpdates(once.spec.workload));
    }
  }

  /** Environment defaulting leaves the claims and their records alone. */
  lemma EnvStageLeavesPvc(boot: Boot, spec: BootSpec, cfg: Config, env: Defaulted)
    requires env == DefaultEnvStage(boot, spec, boot.annotations, cfg)
    ensures env.spec.pvc == spec.pvc && env.spec.workload == spec.workload
    ensures Read(env.annotations, BootPvcs) == Read(boot.annotations, BootPvcs)
    ensures Read(env.annotations, BootDeployPvcs) == Read(boot.annotations, BootDeployPvcs)
  {
  }

  lemma PvcStageRecords(v: Values, spec: BootSpec, annotations: Annotations, w: Annotations, cfg: Config)
    requires w.Keys == {WorkloadKey}
    ensures var after := DefaultPvcAnnotations(v, spec, annotations, cfg) + w;
            && Read(after, BootPvcs)
               == (if PvcKept(spec, annotations) then Read(annotations, BootPvcs) else PvcAnnotation(spec.pvc))
            && Read(after, BootDeployPvcs)
               == (if PvcKept(spec, annotations) then Read(annotations, BootDeployPvcs)
                   else DeployPvcAnnotation(v, spec.pvc, cfg))
  {
  }

  /** Whether the recorded claims are kept, before and after a pass. */
  lemma PvcRecord(boot: Boot, cfg: Config, once: Boot, env: Defaulted)
    requires Outcome(boot, cfg, once)
    requires env == DefaultEnvStage(boot, DefaultPlain(boot.spec, cfg), boot.annotations, cfg)
    ensures once.spec.pvc == env.spec.pvc == boot.spec.pvc
    ensures WorkloadUpdates(once.spec.workload) == WorkloadUpdates(env.spec.workload)
    ensures PvcKept(env.spec, env.annotations) == PvcKept(boot.spec, boot.annotations)
    ensures PvcKept(once.spec, once.annotations)
            <==> PvcKept(env.spec, env.annotations) || Elements(boot.spec.pvc) != []
    ensures Read(once.annotations, BootDeployPvcs)
            == if PvcKept(boot.spec, boot.annotations) then Read(boot.annotations, BootDeployPvcs)
               else DeployPvcAnnotation(BootValues(boot, cfg), boot.spec.pvc, cfg)
  {
    EnvStageLeavesPvc(boot, DefaultPlain(boot.spec, cfg), cfg, env);
    var w := WorkloadUpdates(DefaultPlain(boot.spec, cfg).workload);
    PvcStageRecords(BootValues(boot, cfg), env.spec, env.annotations, w, cfg);
    WorkloadUpdatesAfter(boot.spec.workload);
  }

  lemma WorkloadUpdatesAfter(w: Workload)
    ensures WorkloadUpdates(if w.OtherWorkload? then Deployment else w) == WorkloadUpdates(w)
  {
  }

  lemma Overlaid(annotations: Annotations, u: Annotations, w: Annotations)
    requires u.Keys !! w.Keys
    ensures annotations + u + w + u == annotations + u + w
  {
  }

  /** Main result: under a well-formed configuration a second pass reports no change. */
  lemma DefaultingIsFixpoint(boot: Boot, cfg: Config)
    requires DefaultsWellFormed(cfg)
    requires PassSettled(boot, cfg)
    ensures !NeedsDefaults(SetDefaults(boot, cfg), cfg)
    ensures SetDefaults(SetDefaults(boot, cfg), cfg) == SetDefaults(boot, cfg)
  {
    OutcomeHolds(boot, cfg);
    FixpointOf(boot, cfg, SetDefaults(boot, cfg));
  }

  lemma FixpointOf(boot: Boot, cfg: Config, once: Boot)
    requires DefaultsWellFormed(cfg)
    requires PassSettled(boot, cfg)
    requires Outcome(boot, cfg, once)
    ensures !NeedsDefaults(once, cfg)
    ensures SetDefaults(once, cfg) == once
  {
    PlainSettles(boot, cfg, once);
    EnvSettles(boot, cfg, once);
    PvcSettles(boot, cfg, once);
    RestSettles(boot, cfg, once);
    QuietExactly(once, cfg);
    FalseMeansUnchanged(once, cfg);
  }

  lemma RestSettles(boot: Boot, cfg: Config, once: Boot)
    requires cfg.replicas >= 1
    requires Outcome(boot, cfg, once)
    ensures !once.spec.workload.OtherWorkload? && !HpaChanged(once.spec.hpa)
    ensures once.annotations + WorkloadUpdates(once.spec.workload) == once.annotations
  {
    HpaSettles(boot.spec.hpa, cfg);
    WorkloadUpdatesAfter(boot.spec.workload);
    var env := DefaultEnvStage(boot, DefaultPlain(boot.spec, cfg), boot.annotations, cfg);
    var base := DefaultPvcAnnotations(BootValues(boot, cfg), env.spec, env.annotations, cfg);
    OverlaidTwice(once.annotations, base, WorkloadUpdates(once.spec.workload));
  }

  lemma HpaSettles(hpa: Option<Hpa>, cfg: Config)
    requires cfg.replicas >= 1
    ensures !HpaChanged(DefaultHpa(hpa, cfg))
  {
  }

  lemma OverlaidTwice(annotations: Annotations, base: Annotations, w: Annotations)
    requires annotations == base + w
    ensures annotations + w == annotations
  {
  }

  /** Under a well-formed configuration a pass reports a change exactly when it makes one. */
  lemma ReportsExactly(boot: Boot, cfg: Config)
    requires DefaultsWellFormed(cfg)
    ensures NeedsDefaults(boot, cfg) <==> SetDefaults(boot, cfg) != boot
  {
    if !NeedsDefaults(boot, cfg) {
      FalseMeansUnchanged(boot, cfg);
    } else if SetDefaults(boot, cfg) == boot {
      OutcomeHolds(boot, cfg);
      PortIsSet(boot, cfg, boot);
      DefaultingIsFixpoint(boot, cfg);
    }
  }

  /** After a pass the port is settled. */
  lemma PortIsSet(boot: Boot, cfg: Config, once: Boot)
    requires Outcome(boot, cfg, once)
    ensures PortSettled(once, cfg)
  {
  }

  // --------------------------------------------------------------------------
  // Which configurations settle: for every boot, exactly the well-formed ones.

  /** A second pass reports no change, whatever boot is given. */
  ghost predicate SettlesEveryBoot(cfg: Config) {
    forall boot :: SafeNames(boot, cfg) ==> !NeedsDefaults(SetDefaults(boot, cfg), cfg)
  }

  /** A boot that leaves everything to the configuration. */
  function BlankBoot(): Boot {
    Boot("boot", "ns", Java,
         BootSpec("image", "v1", Some(1), None, 0, "", None, None, "", None, None, None, None, "", "", None, "",
             Unset, None),
         map[], BootStatus("", Unset, 0, "", 0, 0, 0, ""))
  }

  /** A configuration that sets nothing but what it has to. */
  function PlainConfig(): Config {
    Config(8080, 1, "/health", [], map[], map[], map[], "", None, None, "", 0, Some(true), [], "test")
  }

  /** Main result: every boot settles in one pass exactly when the configuration is well formed and,
      unless it leaves the port open, its mounts do not depend on the port. */
  lemma SettlesExactly(cfg: Config)
    requires Safe(cfg.operEnv)
    ensures SettlesEveryBoot(cfg) <==> DefaultsWellFormed(cfg) && (cfg.port <= 0 || PortFree(ConfigMounts(cfg)))
  {
    if DefaultsWellFormed(cfg) && (cfg.port <= 0 || PortFree(ConfigMounts(cfg))) {
      forall boot | SafeNames(boot, cfg)
        ensures !NeedsDefaults(SetDefaults(boot, cfg), cfg)
      {
        assert Elements(boot.spec.pvc) == [] ==> RawMounts(boot.spec.pvc, cfg) == ConfigMounts(cfg);
        DefaultingIsFixpoint(boot, cfg);
      }
    }
    if SettlesEveryBoot(cfg) {
      CompleteIfSettling(cfg);
      SelectorIfSettling(cfg);
      ReplicasIfSettling(cfg);
      MountsIfSettling(cfg);
    }
  }

  lemma CompleteIfSettling(cfg: Config)
    requires Safe(cfg.operEnv) && SettlesEveryBoot(cfg)
    ensures CompleteOrEmpty(cfg.limits) && CompleteOrEmpty(cfg.requests)
  {
    var blank := BlankBoot();
    assert SafeNames(blank, cfg);
    if !CompleteOrEmpty(cfg.limits) || !CompleteOrEmpty(cfg.requests) { IncompleteResources(blank, cfg); }
  }

  lemma SelectorIfSettling(cfg: Config)
    requires Safe(cfg.operEnv) && SettlesEveryBoot(cfg)
    ensures forall k :: k in cfg.nodeSelector ==> cfg.nodeSelector[k] != ""
  {
    var blank := BlankBoot().(spec := BlankBoot().spec.(nodeSelector := Some(map["k" := "v"])));
    assert SafeNames(blank, cfg);
    assert "k" in blank.spec.nodeSelector.value;
    if exists k :: k in cfg.nodeSelector && cfg.nodeSelector[k] == "" { EmptySelectorValue(blank, cfg); }
  }

  lemma ReplicasIfSettling(cfg: Config)
    requires Safe(cfg.operEnv) && SettlesEveryBoot(cfg)
    ensures cfg.replicas >= 1
  {
    var blank := BlankBoot().(spec := BlankBoot().spec.(hpa := Some(Hpa(true, None, None, []))));
    assert SafeNames(blank, cfg);
    if cfg.replicas < 1 { NoReplicas(blank, cfg); }
  }

  lemma MountsIfSettling(cfg: Config)
    requires Safe(cfg.operEnv) && SettlesEveryBoot(cfg)
    ensures cfg.port <= 0 || PortFree(ConfigMounts(cfg))
  {
    var blank := BlankBoot();
    assert SafeNames(blank, cfg);
    if cfg.port > 0 && !PortFree(ConfigMounts(cfg)) { PortInMounts(blank, cfg); }
  }

  lemma IncompleteResources(boot: Boot, cfg: Config)
    requires boot.spec.limits.None? && boot.spec.requests.None?
    requires !CompleteOrEmpty(cfg.limits) || !CompleteOrEmpty(cfg.requests)
    ensures NeedsDefaults(SetDefaults(boot, cfg), cfg)
  {
    var once := SetDefaults(boot, cfg);
    OutcomeHolds(boot, cfg);
    OutcomeResources(boot, cfg, once);
    StillIncomplete(boot.spec, cfg);
    QuietExactly(once, cfg);
  }

  lemma StillIncomplete(spec: BootSpec, cfg: Config)
    requires spec.limits.None? && spec.requests.None?
    requires !CompleteOrEmpty(cfg.limits) || !CompleteOrEmpty(cfg.requests)
    ensures ResourcesChanged(DefaultLimits(spec, cfg), cfg.limits)
            || ResourcesChanged(DefaultRequests(spec, cfg), cfg.requests)
  {
  }

  lemma EmptySelectorValue(boot: Boot, cfg: Config)
    requires !IsEmptyMap(boot.spec.nodeSelector)
    requires exists k :: k in cfg.nodeSelector && cfg.nodeSelector[k] == ""
    ensures NeedsDefaults(SetDefaults(boot, cfg), cfg)
  {
  }

  lemma NoReplicas(boot: Boot, cfg: Config)
    requires boot.spec.hpa.Some? && boot.spec.hpa.value.enable && boot.spec.hpa.value.minReplicas.None?
    requires cfg.replicas < 1
    ensures NeedsDefaults(SetDefaults(boot, cfg), cfg)
  {
  }

  lemma PortInMounts(boot: Boot, cfg: Config)
    requires SafeNames(boot, cfg)
    requires boot.spec.port <= 0 < cfg.port && boot.spec.pvc.None? && !PvcKept(boot.spec, boot.annotations)
    requires !PortFree(ConfigMounts(cfg))
    ensures NeedsDefaults(SetDefaults(boot, cfg), cfg)
  {
    var once := SetDefaults(boot, cfg);
    OutcomeHolds(boot, cfg);
    assert RawMounts(boot.spec.pvc, cfg) == ConfigMounts(cfg);
    DecodedWithOldPort(boot, cfg, once);
    OutdatedMountsNeedDefaults(once, cfg);
  }

  lemma OutdatedMountsNeedDefaults(boot: Boot, cfg: Config)
    requires !PvcKept(boot.spec, boot.annotations)
    requires Read(boot.annotations, BootDeployPvcs) != DeployPvcAnnotation(BootValues(boot, cfg), boot.spec.pvc, cfg)
    ensures NeedsDefaults(boot, cfg)
  {
  }

  lemma DecodedWithOldPort(boot: Boot, cfg: Config, once: Boot)
    requires Outcome(boot, cfg, once)
    requires SafeNames(boot, cfg)
    requires !PvcKept(boot.spec, boot.annotations)
    requires !PortSettled(boot, cfg)
    ensures Read(once.annotations, BootDeployPvcs) != DeployPvcAnnotation(BootValues(once, cfg), once.spec.pvc, cfg)
    ensures Elements(boot.spec.pvc) == [] ==> !PvcKept(once.spec, once.annotations)
  {
    var env := DefaultEnvStage(boot, DefaultPlain(boot.spec, cfg), boot.annotations, cfg);
    PvcRecord(boot, cfg, once, env);
    var mounts := RawMounts(boot.spec.pvc, cfg);
    var before, after := BootValues(boot, cfg), BootValues(once, cfg);
    var i :| 0 <= i < |mounts| && Contains(mounts[i].name, Text(Port));
    ItoaOfPositive(boot.spec.port, cfg.port);
    PortShows(before, cfg.port, mounts[i].name);
    assert after == before.(port := cfg.port);
    assert DecodeMounts(before, mounts)[i] != DecodeMounts(after, mounts)[i];
  }

  /** Unless the pass keeps the recorded claims, the mount annotation it writes is the one of its
      own result exactly when the port is settled. Otherwise the annotation holds mount names of a
      port the boot no longer has; with claims, no later pass repairs it. */
  lemma MountAnnotationIsCurrent(boot: Boot, cfg: Config)
    requires SafeNames(boot, cfg)
    requires !PvcKept(boot.spec, boot.annotations)
    ensures var once := SetDefaults(boot, cfg);
            Read(once.annotations, BootDeployPvcs) == DeployPvcAnnotation(BootValues(once, cfg), once.spec.pvc, cfg)
            <==> PortSettled(boot, cfg)
  {
    var once := SetDefaults(boot, cfg);
    OutcomeHolds(boot, cfg);
    PvcRecord(boot, cfg, once, DefaultEnvStage(boot, DefaultPlain(boot.spec, cfg), boot.annotations, cfg));
    if PortSettled(boot, cfg) {
      PortSettledDecoding(boot, cfg, once);
    } else {
      DecodedWithOldPort(boot, cfg, once);
    }
  }

  // --------------------------------------------------------------------------
  // What defaulting does to the environment.

  /** The names the configuration sets. */
  function ConfigNames(cfg: Config): set<string> {
    set i | 0 <= i < |cfg.env| :: cfg.env[i].name
  }

  /** The boot's own variables, in order. */
  function OwnVariables(list: Envs, cfg: Config): Envs {
    Clean(list, ConfigNames(cfg))
  }

  lemma {:induction false} CleanAll(list: Envs, names: set<string>)
    requires forall i :: 0 <= i < |list| ==> list[i].name in names
    ensures Clean(list, names) == []
  {
    if list != [] {
      CleanAll(list[..|list| - 1], names);
    }
  }

  /** Main result: when the environment is defaulted, every variable of the configuration is in the
      spec with its decoded value, the boot's own variables keep their order with decoded values, and
      the record holds exactly the environment of the spec. */
  lemma EnvContract(v: Values, env: Option<Envs>, cfg: Config)
    requires SafeValues(v)
    requires UniqueNames(cfg.env)
    ensures var list := Elements(DefaultEnvs(v, env, cfg));
            && (forall i :: 0 <= i < |cfg.env| ==>
                  var c := cfg.env[i];
                  Has(list, c.name) && list[FirstIndex(list, c.name)] == DecodeVar(v, c))
            && OwnVariables(list, cfg) == DecodeAll(v, OwnVariables(Elements(env), cfg))
  {
    var dst, src := Elements(env), DecodeAll(v, cfg.env);
    var merged := Merge(dst, src, true);
    var list := Elements(DefaultEnvs(v, env, cfg));
    assert list == DecodeAll(v, merged);
    DecodeCommutesWithMerge(v, dst, src);
    DecodeAllEliminates(v, v, cfg.env);
    forall i | 0 <= i < |cfg.env|
      ensures Has(list, cfg.env[i].name) && list[FirstIndex(list, cfg.env[i].name)] == DecodeVar(v, cfg.env[i])
    {
      MergedVariable(DecodeAll(v, dst), src, i);
    }
    CleanCommutesWithMerge(DecodeAll(v, dst), src, ConfigNames(cfg), true);
    CleanAll(src, ConfigNames(cfg));
    DecodeCommutesWithClean(v, dst, ConfigNames(cfg));
  }

  lemma MergedVariable(dst: Envs, src: Envs, i: nat)
    requires i < |src| && UniqueNames(src)
    ensures var m := Merge(dst, src, true);
            Has(m, src[i].name) && m[FirstIndex(m, src[i].name)] == src[i]
  {
    var m, name := Merge(dst, src, true), src[i].name;
    MergeNames(dst, src, true);
    assert Names(src)[i] == name;
    HasIsIn(m, name);
    HasIsIn(src, name);
    MergeMeaning(dst, src, FirstIndex(m, name));
    var last := LastPosition(src, name);
    assert last == i;
  }

  /** After any pass the record holds the environment of the spec, unless the text found there
      does not decode. */
  lemma EnvRecorded(boot: Boot, cfg: Config)
    ensures var once := SetDefaults(boot, cfg);
            var recorded := Read(boot.annotations, BootEnvs);
            recorded == NO_TEXT || recorded.EnvJson? ==> Read(once.annotations, BootEnvs) == EnvJson(once.spec.env)
  {
    OutcomeHolds(boot, cfg);
    RecordedIn(boot, cfg, SetDefaults(boot, cfg));
  }

  lemma RecordedIn(boot: Boot, cfg: Config, once: Boot)
    requires Outcome(boot, cfg, once)
    ensures var recorded := Read(boot.annotations, BootEnvs);
            recorded == NO_TEXT || recorded.EnvJson? ==> Read(once.annotations, BootEnvs) == EnvJson(once.spec.env)
  {
    var env := DefaultEnvStage(boot, DefaultPlain(boot.spec, cfg), boot.annotations, cfg);
    var plain := DefaultPlain(boot.spec, cfg);
    LaterStagesKeepKey(BootValues(boot, cfg), env.spec, env.annotations, plain.workload, cfg, BootEnvs);
    EnvStageRecords(boot, plain, boot.annotations, cfg);
    assert Read'(once.annotations, BootEnvs) == Read'(env.annotations, BootEnvs);
  }

  lemma EnvStageRecords(boot: Boot, spec: BootSpec, annotations: Annotations, cfg: Config)
    ensures var env := DefaultEnvStage(boot, spec, annotations, cfg);
            var recorded := Read(annotations, BootEnvs);
            recorded == NO_TEXT || recorded.EnvJson? ==> Read'(env.annotations, BootEnvs) == Some(EnvJson(env.spec.env))
  {
  }

  // --------------------------------------------------------------------------
  // What the API server keeps of a defaulted boot.

  /** Defaulting introduces no explicitly empty list or map. */
  lemma StaysJsonNormal(boot: Boot, cfg: Config)
    requires JsonNormal(boot.spec)
    ensures JsonNormal(SetDefaults(boot, cfg).spec)
  {
    OutcomeHolds(boot, cfg);
    NormalOutcome(boot, cfg, SetDefaults(boot, cfg));
  }

  lemma NormalOutcome(boot: Boot, cfg: Config, once: Boot)
    requires Outcome(boot, cfg, once)
    requires JsonNormal(boot.spec)
    ensures JsonNormal(once.spec)
  {
    var spec := boot.spec;
    assert spec.env == DropEmptyList(spec.env) && spec.limits == DropEmptyMap(spec.limits)
        && spec.requests == DropEmptyMap(spec.requests) && spec.nodeSelector == DropEmptyMap(spec.nodeSelector)
        && spec.command == DropEmptyList(spec.command) && spec.pvc == DropEmptyList(spec.pvc);
    FilledIsNormal(spec.limits, cfg.limits);
    FilledIsNormal(spec.requests, cfg.requests);
    CappedIsNormal(FillResources(spec.requests, cfg.requests), DefaultLimits(spec, cfg));
    SelectorIsNormal(spec.nodeSelector, cfg.nodeSelector);
    var plain := DefaultPlain(spec, cfg);
    EnvIsNormal(BootValues(boot.(spec := plain), cfg), spec.env, cfg);
  }

  lemma FilledIsNormal(list: Option<Quantities>, from: Quantities)
    requires list == DropEmptyMap(list)
    ensures FillResources(list, from) == DropEmptyMap(FillResources(list, from))
  {
  }

  lemma CappedIsNormal(list: Option<Quantities>, limits: Option<Quantities>)
    requires list == DropEmptyMap(list)
    ensures var capped := Cap(Cap(list, limits, Cpu), limits, Memory); capped == DropEmptyMap(capped)
  {
  }

  lemma SelectorIsNormal(selector: Option<Labels>, from: Labels)
    requires selector == DropEmptyMap(selector)
    ensures DefaultNodeSelector(selector, from) == DropEmptyMap(DefaultNodeSelector(selector, from))
  {
  }

  lemma EnvIsNormal(v: Values, env: Option<Envs>, cfg: Config)
    requires env == DropEmptyList(env)
    ensures DefaultEnvs(v, env, cfg) == DropEmptyList(DefaultEnvs(v, env, cfg))
  {
  }
}
