/** What defaulting fills in, said of the request and the configuration alone: what the request sets
    stays, what it leaves open comes from the configuration. */
module Filling {
  import opened Wrappers
  import opened Placeholder
  import opened EnvList
  import opened Difference
  import opened Types
  import opened BootOps
  import opened Defaulter
  import opened DefaulterLaws

  // --------------------------------------------------------------------------
  // Resources.

  /** The own quantity of that name where there is one, else the configured one of the same name. */
  function OwnElse(own: Option<Quantities>, configured: Quantities, name: ResourceName): nat {
    if Quantity(own, name) != 0 then Quantity(own, name) else Quantity(Some(configured), name)
  }

  predicate NoEntries(list: Option<Quantities>) {
    list == None || list == Some(map[])
  }

  lemma Filled(own: Option<Quantities>, configured: Quantities, name: ResourceName)
    ensures name == Cpu || name == Memory ==>
              Quantity(FillResources(own, configured), name) == OwnElse(own, configured, name)
    ensures name.OtherResource? && !NoEntries(own) ==>
              Quantity(FillResources(own, configured), name) == Quantity(own, name)
    ensures NoEntries(own) && configured != map[] ==> FillResources(own, configured) == Some(configured)
    ensures configured == map[] ==> FillResources(own, configured) == own
  {
  }

  /** Main result: after a pass each limit of cpu and memory is the boot's own or else the configured
      one of the same name; empty limits become the configured ones, and other names are not touched. */
  lemma LimitsAreFilled(boot: Boot, cfg: Config, name: ResourceName)
    ensures var own, limits := boot.spec.limits, SetDefaults(boot, cfg).spec.limits;
            && (name == Cpu || name == Memory ==> Quantity(limits, name) == OwnElse(own, cfg.limits, name))
            && (name.OtherResource? && !NoEntries(own) ==> Quantity(limits, name) == Quantity(own, name))
            && (NoEntries(own) && cfg.limits != map[] ==> limits == Some(cfg.limits))
            && (cfg.limits == map[] ==> limits == own)
  {
    OutcomeHolds(boot, cfg);
    OutcomeResources(boot, cfg, SetDefaults(boot, cfg));
    Filled(boot.spec.limits, cfg.limits, name);
  }

  /** The smaller one, where a limit of zero does not limit. */
  function Limited(request: nat, limit: nat): nat {
    if limit != 0 && limit < request then limit else request
  }

  lemma Capped(filled: Option<Quantities>, limits: Option<Quantities>, name: ResourceName)
    ensures var capped := Cap(Cap(filled, limits, Cpu), limits, Memory);
            Quantity(capped, name)
            == if name == Cpu || name == Memory then Limited(Quantity(filled, name), Quantity(limits, name))
               else Quantity(filled, name)
  {
  }

  /** Main result: each request of cpu and memory is filled in the same way and then held below the
      limit of the same name. */
  lemma RequestsAreFilled(boot: Boot, cfg: Config, name: ResourceName)
    ensures var own, spec := boot.spec.requests, SetDefaults(boot, cfg).spec;
            && (name == Cpu || name == Memory ==>
                  Quantity(spec.requests, name)
                  == Limited(OwnElse(own, cfg.requests, name), OwnElse(boot.spec.limits, cfg.limits, name)))
            && (name.OtherResource? && !NoEntries(own) ==> Quantity(spec.requests, name) == Quantity(own, name))
            && (name.OtherResource? && NoEntries(own) ==>
                  Quantity(spec.requests, name) == Quantity(Some(cfg.requests), name))
  {
    OutcomeHolds(boot, cfg);
    OutcomeResources(boot, cfg, SetDefaults(boot, cfg));
    Filled(boot.spec.limits, cfg.limits, name);
    Filled(boot.spec.requests, cfg.requests, name);
    Capped(FillResources(boot.spec.requests, cfg.requests), DefaultLimits(boot.spec, cfg), name);
  }

  // --------------------------------------------------------------------------
  // Everything else.

  /** The fields that defaulting leaves to the user alone. */
  ghost predicate SameUserFields(a: BootSpec, b: BootSpec) {
    && a.image == b.image && a.version == b.version && a.readiness == b.readiness && a.command == b.command
    && a.sessionAffinity == b.sessionAffinity && a.nodePort == b.nodePort && a.pvc == b.pvc
    && a.priority == b.priority
  }

  lemma UserFieldsStay(boot: Boot, cfg: Config)
    ensures var once := SetDefaults(boot, cfg);
            && SameUserFields(once.spec, boot.spec)
            && once.name == boot.name && once.namespace == boot.namespace && once.bootType == boot.bootType
            && once.status == boot.status
  {
  }

  /** What a request sets is still set to it after a pass. */
  lemma OwnSettingsStay(boot: Boot, cfg: Config)
    ensures var own, spec := boot.spec, SetDefaults(boot, cfg).spec;
            && (own.port > 0 ==> spec.port == own.port)
            && (own.replicas.Some? && own.replicas.value >= 0 ==> spec.replicas == own.replicas)
            && (own.health.Some? ==> spec.health == own.health)
            && (own.prometheus != "" ==> spec.prometheus == own.prometheus)
            && (own.subDomain != "" ==> spec.subDomain == own.subDomain)
            && (!own.workload.OtherWorkload? ==> spec.workload == own.workload)
            && (own.hpa.None? || !own.hpa.value.enable ==> spec.hpa == own.hpa)
  {
  }

  /** What a request leaves open is what the configuration says, or one replica and a Deployment. */
  lemma OpenSettingsAreFilled(boot: Boot, cfg: Config)
    ensures var own, spec := boot.spec, SetDefaults(boot, cfg).spec;
            && (own.port <= 0 && cfg.port > 0 ==> spec.port == cfg.port)
            && (own.replicas.None? || own.replicas.value < 0 ==>
                  spec.replicas == Some(if cfg.replicas >= 1 then cfg.replicas else 1))
            && (own.health.None? ==> spec.health == if cfg.health == "" then None else Some(cfg.health))
            && (own.subDomain == "" ==> spec.subDomain == cfg.subDomain)
            && (own.workload.OtherWorkload? ==> spec.workload == Deployment)
  {
  }

  /** Prometheus scrapes as the request says or else the configuration. */
  lemma ScrapeIsFilled(boot: Boot, cfg: Config)
    requires boot.spec.prometheus == "" && cfg.prometheusScrape.Some?
    ensures var spec := SetDefaults(boot, cfg).spec;
            spec.prometheus != "" && AllowScrape(spec, cfg) == cfg.prometheusScrape.value
  {
    OutcomeHolds(boot, cfg);
    ScrapeOutcome(boot, cfg, SetDefaults(boot, cfg));
  }

  lemma ScrapeOutcome(boot: Boot, cfg: Config, once: Boot)
    requires Outcome(boot, cfg, once)
    requires boot.spec.prometheus == "" && cfg.prometheusScrape.Some?
    ensures once.spec.prometheus == FormatBool(cfg.prometheusScrape.value)
  {
  }

  /** Configured selector entries win, the others stay. */
  lemma SelectorIsOverlaid(boot: Boot, cfg: Config, key: string)
    ensures var own, selector := boot.spec.nodeSelector, SetDefaults(boot, cfg).spec.nodeSelector;
            && (key in cfg.nodeSelector ==>
                  selector.Some? && key in selector.value && selector.value[key] == cfg.nodeSelector[key])
            && (key !in cfg.nodeSelector ==>
                  (selector.Some? && key in selector.value <==> own.Some? && key in own.value)
                  && (own.Some? && key in own.value ==> selector.value[key] == own.value[key]))
  {
    OutcomeHolds(boot, cfg);
    SelectorOutcome(boot, cfg, SetDefaults(boot, cfg));
  }

  lemma SelectorOutcome(boot: Boot, cfg: Config, once: Boot)
    requires Outcome(boot, cfg, once)
    ensures once.spec.nodeSelector == DefaultNodeSelector(boot.spec.nodeSelector, cfg.nodeSelector)
  {
  }

  /** An enabled autoscaler keeps its usable bounds and its metrics; an unusable lower bound becomes the
      configured replicas, an unusable upper bound five, and without metrics cpu is held at 80 percent. */
  lemma AutoscalerIsFilled(boot: Boot, cfg: Config)
    requires boot.spec.hpa.Some? && boot.spec.hpa.value.enable
    ensures var own, hpa := boot.spec.hpa.value, SetDefaults(boot, cfg).spec.hpa;
            && hpa.Some? && hpa.value.enable && hpa.value.minReplicas.Some? && hpa.value.maxReplicas.Some?
            && (own.minReplicas.Some? && own.minReplicas.value >= 1 ==> hpa.value.minReplicas == own.minReplicas)
            && (own.minReplicas.None? || own.minReplicas.value < 1 ==> hpa.value.minReplicas == Some(cfg.replicas))
            && (own.maxReplicas.Some? && own.maxReplicas.value >= 2 ==> hpa.value.maxReplicas == own.maxReplicas)
            && (own.maxReplicas.None? || own.maxReplicas.value < 2 ==> hpa.value.maxReplicas == Some(5))
            && (own.metrics != [] ==> hpa.value.metrics == own.metrics)
            && (own.metrics == [] ==>
                  |hpa.value.metrics| == 1 && hpa.value.metrics[0].name == "cpu"
                  && hpa.value.metrics[0].kind == ResourceMetric
                  && hpa.value.metrics[0].target.averageUtilization == Some(80))
  {
    OutcomeHolds(boot, cfg);
    AutoscalerOutcome(boot, cfg, SetDefaults(boot, cfg));
  }

  lemma AutoscalerOutcome(boot: Boot, cfg: Config, once: Boot)
    requires Outcome(boot, cfg, once)
    ensures once.spec.hpa == DefaultHpa(boot.spec.hpa, cfg)
  {
  }

  // --------------------------------------------------------------------------
  // Environment and claims.

  /** The environment is as recorded, and the image is the recorded one. */
  predicate EnvIsCurrent(boot: Boot, cfg: Config) {
    && Read(boot.annotations, BootEnvs) == EnvJson(boot.spec.env)
    && Read(boot.annotations, BootImages) == Plain(ImageName(boot.spec, cfg))
  }

  /** There is a record, and it is no environment. */
  predicate EnvIsUnreadable(boot: Boot) {
    Read(boot.annotations, BootEnvs) != NO_TEXT && !Read(boot.annotations, BootEnvs).EnvJson?
  }

  lemma EnvStageFills(boot: Boot, cfg: Config, once: Boot)
    requires Outcome(boot, cfg, once)
    ensures once.spec.env == if EnvIsCurrent(boot, cfg) || EnvIsUnreadable(boot) then boot.spec.env
                             else DefaultEnvs(BootValues(once, cfg), boot.spec.env, cfg)
  {
    var plain := DefaultPlain(boot.spec, cfg);
    CurrentIsKept(boot, plain, cfg);
    assert BootValues(boot.(spec := plain), cfg) == BootValues(once, cfg);
  }

  lemma CurrentIsKept(boot: Boot, plain: BootSpec, cfg: Config)
    requires plain.env == boot.spec.env && plain.image == boot.spec.image && plain.version == boot.spec.version
    ensures EnvKept(plain, boot.annotations, cfg) <==> EnvIsCurrent(boot, cfg) || EnvIsUnreadable(boot)
  {
    assert ImageName(boot.spec, cfg) != "" && ImageName(plain, cfg) == ImageName(boot.spec, cfg);
  }

  /** Where the environment was filled, it is recorded together with the image. */
  lemma EnvStageStamps(boot: Boot, cfg: Config, once: Boot)
    requires Outcome(boot, cfg, once) && !EnvIsCurrent(boot, cfg) && !EnvIsUnreadable(boot)
    ensures Read'(once.annotations, BootEnvs) == Some(EnvJson(once.spec.env))
    ensures Read'(once.annotations, BootImages) == Some(Plain(ImageName(boot.spec, cfg)))
    ensures Read'(once.annotations, EnvGenerated) == Some(Plain("generated"))
  {
    var plain := DefaultPlain(boot.spec, cfg);
    var env := DefaultEnvStage(boot, plain, boot.annotations, cfg);
    CurrentIsKept(boot, plain, cfg);
    StampsAreThere(boot.annotations, env.spec.env, ImageName(plain, cfg));
    LaterStagesKeepKey(BootValues(boot, cfg), env.spec, env.annotations, plain.workload, cfg, BootEnvs);
    LaterStagesKeepKey(BootValues(boot, cfg), env.spec, env.annotations, plain.workload, cfg, BootImages);
    LaterStagesKeepKey(BootValues(boot, cfg), env.spec, env.annotations, plain.workload, cfg, EnvGenerated);
  }

  lemma StampsAreThere(annotations: Annotations, env: Option<Envs>, image: string)
    ensures var stamped := EnvAnnotations(annotations, env, image);
            && Read'(stamped, BootEnvs) == Some(EnvJson(env)) && Read'(stamped, BootImages) == Some(Plain(image))
            && Read'(stamped, EnvGenerated) == Some(Plain("generated"))
  {
  }

  /** Main result: a new image or an edited environment brings the configured variables in, with their
      decoded values, and keeps the own ones in order; a current environment is left alone. */
  lemma EnvironmentIsFilled(boot: Boot, cfg: Config, i: nat)
    requires SafeNames(boot, cfg) && UniqueNames(cfg.env) && i < |cfg.env|
    ensures var once := SetDefaults(boot, cfg);
            var v, list := BootValues(once, cfg), Elements(once.spec.env);
            if EnvIsCurrent(boot, cfg) || EnvIsUnreadable(boot) then once.spec.env == boot.spec.env
            else
              && Has(list, cfg.env[i].name) && list[FirstIndex(list, cfg.env[i].name)] == DecodeVar(v, cfg.env[i])
              && OwnVariables(list, cfg) == DecodeAll(v, OwnVariables(Elements(boot.spec.env), cfg))
  {
    var once := SetDefaults(boot, cfg);
    OutcomeHolds(boot, cfg);
    EnvStageFills(boot, cfg, once);
    EnvContract(BootValues(once, cfg), boot.spec.env, cfg);
  }

  /** What was filled in is on record, with the image. */
  lemma EnvironmentIsRecorded(boot: Boot, cfg: Config)
    requires !EnvIsCurrent(boot, cfg) && !EnvIsUnreadable(boot)
    ensures var once := SetDefaults(boot, cfg);
            && Read'(once.annotations, BootEnvs) == Some(EnvJson(once.spec.env))
            && Read'(once.annotations, BootImages) == Some(Plain(ImageName(boot.spec, cfg)))
            && Read'(once.annotations, EnvGenerated) == Some(Plain("generated"))
  {
    OutcomeHolds(boot, cfg);
    EnvStageStamps(boot, cfg, SetDefaults(boot, cfg));
  }

  /** The claim record is readable and not the one of these claims, or there is none. */
  predicate ClaimsAreNews(boot: Boot) {
    var recorded := Read(boot.annotations, BootPvcs);
    recorded == NO_TEXT || (recorded.PvcJson? && recorded.pvcs != boot.spec.pvc)
  }

  /** Claims and mounts are recorded anew exactly when the claims are news; with no claim the record of
      the claims is empty, and with no mount that of the mounts. */
  lemma ClaimsAreRecorded(boot: Boot, cfg: Config)
    ensures var once := SetDefaults(boot, cfg);
            var mounts := ConfigMounts(cfg) + ConvertVolumeMount(boot.spec.pvc);
            if !ClaimsAreNews(boot)
            then Read'(once.annotations, BootPvcs) == Read'(boot.annotations, BootPvcs)
                 && Read'(once.annotations, BootDeployPvcs) == Read'(boot.annotations, BootDeployPvcs)
            else Read'(once.annotations, BootPvcs)
                 == Some(if Elements(boot.spec.pvc) == [] then Plain("") else PvcJson(boot.spec.pvc))
                 && Read'(once.annotations, BootDeployPvcs)
                    == Some(if mounts == [] then Plain("")
                            else MountJson(Some(DecodeMounts(BootValues(boot, cfg), mounts))))
  {
    OutcomeHolds(boot, cfg);
    PvcStageFills(boot, cfg, SetDefaults(boot, cfg));
  }

  lemma PvcStageFills(boot: Boot, cfg: Config, once: Boot)
    requires Outcome(boot, cfg, once)
    ensures if !ClaimsAreNews(boot)
            then Read'(once.annotations, BootPvcs) == Read'(boot.annotations, BootPvcs)
                 && Read'(once.annotations, BootDeployPvcs) == Read'(boot.annotations, BootDeployPvcs)
            else Read'(once.annotations, BootPvcs) == Some(PvcAnnotation(boot.spec.pvc))
                 && Read'(once.annotations, BootDeployPvcs)
                    == Some(DeployPvcAnnotation(BootValues(boot, cfg), boot.spec.pvc, cfg))
  {
    var plain := DefaultPlain(boot.spec, cfg);
    var env := DefaultEnvStage(boot, plain, boot.annotations, cfg);
    EnvStageKeepsKey(boot, plain, boot.annotations, cfg, BootPvcs);
    EnvStageKeepsKey(boot, plain, boot.annotations, cfg, BootDeployPvcs);
    ClaimRecords(BootValues(boot, cfg), env.spec, env.annotations, plain.workload, cfg);
  }

  lemma ClaimRecords(v: Values, spec: BootSpec, annotations: Annotations, w: Workload, cfg: Config)
    ensures var after := DefaultPvcAnnotations(v, spec, annotations, cfg) + WorkloadUpdates(w);
            if PvcKept(spec, annotations)
            then Read'(after, BootPvcs) == Read'(annotations, BootPvcs)
                 && Read'(after, BootDeployPvcs) == Read'(annotations, BootDeployPvcs)
            else Read'(after, BootPvcs) == Some(PvcAnnotation(spec.pvc))
                 && Read'(after, BootDeployPvcs) == Some(DeployPvcAnnotation(v, spec.pvc, cfg))
  {
  }

  /** The workload annotation names the kind of the workload. */
  lemma KindIsRecorded(boot: Boot, cfg: Config)
    ensures Read'(SetDefaults(boot, cfg).annotations, WorkloadKey)
            == Some(Plain(if boot.spec.workload == StatefulSet then "StatefulSet" else "Deployment"))
  {
  }
}
