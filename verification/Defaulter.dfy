/** The defaulting of a boot: pkg/logan/operator/boot_handler_defaulter.go. Specification
    functions first, then the handler that works on the live object, then what defaulting means. */
module Defaulter {
  import opened Wrappers
  import opened Strconv
  import opened Placeholder
  import opened EnvList
  import opened Difference
  import opened Types
  import opened BootOps

  // --------------------------------------------------------------------------
  // The plain fields.

  function DefaultReplicas(cfg: Config): int {
    if cfg.replicas <= 0 then 1 else cfg.replicas
  }

  predicate ReplicasUnset(spec: BootSpec) {
    spec.replicas.None? || spec.replicas.value < 0
  }

  function DefaultScalars(spec: BootSpec, cfg: Config): BootSpec {
    spec.(port := if spec.port <= 0 && cfg.port > 0 then cfg.port else spec.port,
          replicas := if ReplicasUnset(spec) then Some(DefaultReplicas(cfg)) else spec.replicas,
          health := if spec.health.None? && cfg.health != "" then Some(cfg.health) else spec.health,
          prometheus := if spec.prometheus == "" && cfg.prometheusScrape.Some?
                        then FormatBool(cfg.prometheusScrape.value) else spec.prometheus,
          subDomain := if spec.subDomain == "" && cfg.subDomain != "" then cfg.subDomain else spec.subDomain)
  }

  predicate ScalarsChanged(spec: BootSpec, cfg: Config) {
    || (spec.port <= 0 && cfg.port > 0)
    || ReplicasUnset(spec)
    || (spec.health.None? && cfg.health != "")
    || (spec.prometheus == "" && cfg.prometheusScrape.Some?)
    || (spec.subDomain == "" && cfg.subDomain != "")
  }

  function Fill(list: Quantities, from: Quantities, name: ResourceName): Quantities {
    if Quantity(Some(list), name) == 0 then list[name := Quantity(Some(from), name)] else list
  }

  /** Limits or requests filled from the configuration: whole when empty, else memory and cpu
      one by one when they are zero. */
  function FillResources(list: Option<Quantities>, from: Quantities): Option<Quantities> {
    if |from| == 0 then list
    else if IsEmptyMap(list) then Some(from)
    else Some(Fill(Fill(list.value, from, Memory), from, Cpu))
  }

  predicate ResourcesChanged(list: Option<Quantities>, from: Quantities) {
    |from| > 0 && (IsEmptyMap(list) || Quantity(list, Memory) == 0 || Quantity(list, Cpu) == 0)
  }

  predicate Exceeds(requests: Option<Quantities>, limits: Option<Quantities>, name: ResourceName) {
    Quantity(limits, name) != 0 && Quantity(requests, name) > Quantity(limits, name)
  }

  function Cap(requests: Option<Quantities>, limits: Option<Quantities>, name: ResourceName): Option<Quantities> {
    if Exceeds(requests, limits, name) then Some(requests.value[name := Quantity(limits, name)]) else requests
  }

  function DefaultLimits(spec: BootSpec, cfg: Config): Option<Quantities> {
    FillResources(spec.limits, cfg.limits)
  }

  function DefaultRequests(spec: BootSpec, cfg: Config): Option<Quantities> {
    var limits, filled := DefaultLimits(spec, cfg), FillResources(spec.requests, cfg.requests);
    Cap(Cap(filled, limits, Cpu), limits, Memory)
  }

  predicate RequestsChanged(spec: BootSpec, cfg: Config) {
    var limits, filled := DefaultLimits(spec, cfg), FillResources(spec.requests, cfg.requests);
    || ResourcesChanged(spec.requests, cfg.requests)
    || Exceeds(filled, limits, Cpu)
    || Exceeds(Cap(filled, limits, Cpu), limits, Memory)
  }

  function DefaultNodeSelector(selector: Option<Labels>, from: Labels): Option<Labels> {
    if IsEmptyMap(selector) then (if |from| > 0 then Some(from) else selector)
    else Some(selector.value + from)
  }

  /** The entry of `key` is written: it is missing, empty or different. */
  predicate SelectorDiffers(selector: Labels, from: Labels, key: string)
    requires key in from
  {
    key !in selector || selector[key] == "" || selector[key] != from[key]
  }

  predicate NodeSelectorChanged(selector: Option<Labels>, from: Labels) {
    if IsEmptyMap(selector) then |from| > 0
    else exists key :: key in from && SelectorDiffers(selector.value, from, key)
  }

  function DefaultPlain(spec: BootSpec, cfg: Config): BootSpec {
    DefaultScalars(spec, cfg).(
      limits := DefaultLimits(spec, cfg),
      requests := DefaultRequests(spec, cfg),
      nodeSelector := DefaultNodeSelector(spec.nodeSelector, cfg.nodeSelector))
  }

  predicate PlainChanged(spec: BootSpec, cfg: Config) {
    || ScalarsChanged(spec, cfg)
    || ResourcesChanged(spec.limits, cfg.limits)
    || RequestsChanged(spec, cfg)
    || NodeSelectorChanged(spec.nodeSelector, cfg.nodeSelector)
  }

  // --------------------------------------------------------------------------
  // Environment.

  predicate ImageChanged(spec: BootSpec, annotations: Annotations, cfg: Config) {
    || Read(annotations, BootImages) == NO_TEXT
    || Read(annotations, BootImages) != Plain(ImageName(spec, cfg))
  }

  /** Environment defaulting is left out: the recorded list does not decode, or it is the list of
      the spec and the image is unchanged. */
  predicate EnvKept(spec: BootSpec, annotations: Annotations, cfg: Config) {
    var recorded := Read(annotations, BootEnvs);
    recorded != NO_TEXT
    && (!recorded.EnvJson? || (recorded.envs == spec.env && !ImageChanged(spec, annotations, cfg)))
  }

  function MergeInto(dst: Option<Envs>, src: Envs): Option<Envs> {
    if src == [] then dst else Some(Merge(Elements(dst), src, true))
  }

  function DecodeOptional(v: Values, list: Option<Envs>): Option<Envs> {
    if list.None? then None else Some(DecodeAll(v, list.value))
  }

  function DefaultEnvs(v: Values, env: Option<Envs>, cfg: Config): Option<Envs> {
    DecodeOptional(v, MergeInto(env, DecodeAll(v, cfg.env)))
  }

  function EnvAnnotations(annotations: Annotations, env: Option<Envs>, image: string): Annotations {
    annotations[EnvGenerated := Plain("generated")][BootImages := Plain(image)][BootEnvs := EnvJson(env)]
  }

  // --------------------------------------------------------------------------
  // Persistent volume claims.

  predicate PvcKept(spec: BootSpec, annotations: Annotations) {
    var recorded := Read(annotations, BootPvcs);
    recorded != NO_TEXT && (!recorded.PvcJson? || recorded.pvcs == spec.pvc)
  }

  function RawMounts(pvc: Option<seq<PvcMount>>, cfg: Config): seq<VolumeMount> {
    ConfigMounts(cfg) + ConvertVolumeMount(pvc)
  }

  function PvcAnnotation(pvc: Option<seq<PvcMount>>): Annotation {
    if Elements(pvc) == [] then NO_TEXT else PvcJson(pvc)
  }

  function DeployPvcAnnotation(v: Values, pvc: Option<seq<PvcMount>>, cfg: Config): Annotation {
    var mounts := RawMounts(pvc, cfg);
    if mounts == [] then NO_TEXT else MountJson(Some(DecodeMounts(v, mounts)))
  }

  function PvcUpdates(v: Values, pvc: Option<seq<PvcMount>>, cfg: Config): Annotations {
    map[BootPvcs := PvcAnnotation(pvc), BootDeployPvcs := DeployPvcAnnotation(v, pvc, cfg)]
  }

  function DefaultPvcAnnotations(v: Values, spec: BootSpec, annotations: Annotations, cfg: Config): Annotations {
    if PvcKept(spec, annotations) then annotations else annotations + PvcUpdates(v, spec.pvc, cfg)
  }

  // --------------------------------------------------------------------------
  // Workload and autoscaler.

  function EffectiveWorkload(w: Workload): Workload {
    if w.StatefulSet? then StatefulSet else Deployment
  }

  function WorkloadText(w: Workload): string {
    if w.StatefulSet? then "StatefulSet" else "Deployment"
  }

  function WorkloadUpdates(w: Workload): Annotations {
    map[WorkloadKey := Plain(WorkloadText(w))]
  }

  const DEFAULT_MAX_REPLICAS := 5
  const DEFAULT_TARGET_UTILIZATION := 80

  const CPU_METRIC: MetricSpec :=
    MetricSpec(ResourceMetric, "cpu", MetricTarget(Some(DEFAULT_TARGET_UTILIZATION), None, None, ""))

  function DefaultHpa(hpa: Option<Hpa>, cfg: Config): Option<Hpa> {
    if hpa.None? || !hpa.value.enable then hpa
    else
      var h := hpa.value;
      var noMin := h.minReplicas.None? || h.minReplicas.value < 1;
      var noMax := h.maxReplicas.None? || h.maxReplicas.value < 2;
      Some(h.(minReplicas := if noMin then Some(cfg.replicas) else h.minReplicas,
              maxReplicas := if noMax then Some(DEFAULT_MAX_REPLICAS) else h.maxReplicas,
              metrics := if h.metrics == [] then [CPU_METRIC] else h.metrics))
  }

  predicate HpaChanged(hpa: Option<Hpa>) {
    hpa.Some? && hpa.value.enable
    && (hpa.value.minReplicas.None? || hpa.value.minReplicas.value < 1
        || hpa.value.maxReplicas.None? || hpa.value.maxReplicas.value < 2
        || hpa.value.metrics == [])
  }

  // --------------------------------------------------------------------------
  // The whole pass.

  datatype Defaulted = Defaulted(spec: BootSpec, annotations: Annotations, changed: bool)

  function DefaultEnvStage(boot: Boot, spec: BootSpec, annotations: Annotations, cfg: Config): Defaulted {
    if EnvKept(spec, annotations, cfg) then Defaulted(spec, annotations, false)
    else
      var env := DefaultEnvs(BootValues(boot.(spec := spec), cfg), spec.env, cfg);
      Defaulted(spec.(env := env), EnvAnnotations(annotations, env, ImageName(spec, cfg)), true)
  }

  function DefaultPvcStage(boot: Boot, spec: BootSpec, annotations: Annotations, cfg: Config): Defaulted {
    var updated := DefaultPvcAnnotations(BootValues(boot, cfg), spec, annotations, cfg);
    Defaulted(spec, updated, updated != annotations)
  }

  function DefaultWorkloadStage(spec: BootSpec, annotations: Annotations): Defaulted {
    var updated := annotations + WorkloadUpdates(spec.workload);
    Defaulted(if spec.workload.OtherWorkload? then spec.(workload := Deployment) else spec,
              updated, spec.workload.OtherWorkload? || updated != annotations)
  }

  function DefaultValue(boot: Boot, cfg: Config): Defaulted {
    var plain := DefaultPlain(boot.spec, cfg);
    var env := DefaultEnvStage(boot, plain, boot.annotations, cfg);
    var pvc := DefaultPvcStage(boot, env.spec, env.annotations, cfg);
    var workload := DefaultWorkloadStage(pvc.spec, pvc.annotations);
    Defaulted(workload.spec.(hpa := DefaultHpa(workload.spec.hpa, cfg)), workload.annotations,
              PlainChanged(boot.spec, cfg) || env.changed || pvc.changed || workload.changed
              || HpaChanged(workload.spec.hpa))
  }

  // --------------------------------------------------------------------------
  // The handler.

  class BootHandler {
    /** A copy of the boot, made before anything is changed. */
    const boot: Boot
    const cfg: Config
    /** Spec and annotations of the live object. */
    var spec: BootSpec
    var annotations: Annotations

    constructor (boot: Boot, cfg: Config)
      ensures this.boot == boot && this.cfg == cfg
      ensures spec == boot.spec && annotations == boot.annotations
    {
      this.boot, this.cfg := boot, cfg;
      spec, annotations := boot.spec, boot.annotations;
    }

    method UpdateAnnotation(updates: Annotations) returns (updated: bool)
      modifies this`annotations
      ensures annotations == old(annotations) + updates
      ensures updated <==> annotations != old(annotations)
    {
      updated := false;
      var todo := updates.Keys;
      ghost var done: Annotations := map[];
      while todo != {}
        invariant todo <= updates.Keys
        invariant done == map k | k in updates && k !in todo :: updates[k]
        invariant annotations == old(annotations) + done
        invariant updated <==> exists k :: k in done && Read'(old(annotations), k) != Some(done[k])
      {
        var k :| k in todo;
        ghost var next := done[k := updates[k]];
        assert old(annotations) + next == (old(annotations) + done)[k := updates[k]];
        assert Read'(annotations, k) == Read'(old(annotations), k);
        if k in annotations {
          if annotations[k] != updates[k] {
            annotations := annotations[k := updates[k]];
            updated := true;
          }
        } else {
          annotations := annotations[k := updates[k]];
          updated := true;
        }
        todo := todo - {k};
        done := next;
      }
      assert done == updates;
      UpdatesShow(old(annotations), updates);
    }

    method DefaultScalarFields() returns (changed: bool)
      modifies this`spec
      ensures spec == DefaultScalars(old(spec), cfg)
      ensures changed == ScalarsChanged(old(spec), cfg)
    {
      changed := false;
      if spec.port <= 0 && cfg.port > 0 {
        spec := spec.(port := cfg.port);
        changed := true;
      }
      if spec.replicas.None? || spec.replicas.value < 0 {
        var replicas := cfg.replicas;
        if replicas <= 0 {
          replicas := 1;
        }
        spec := spec.(replicas := Some(replicas));
        changed := true;
      }
      if spec.health.None? && cfg.health != "" {
        spec := spec.(health := Some(cfg.health));
        changed := true;
      }
      if spec.prometheus == "" && cfg.prometheusScrape.Some? {
        spec := spec.(prometheus := FormatBool(cfg.prometheusScrape.value));
        changed := true;
      }
      if spec.subDomain == "" && cfg.subDomain != "" {
        spec := spec.(subDomain := cfg.subDomain);
        changed := true;
      }
    }

    /** Fills limits or requests from the configuration. */
    method FillFrom(list: Option<Quantities>, from: Quantities) returns (filled: Option<Quantities>, changed: bool)
      ensures filled == FillResources(list, from)
      ensures changed == ResourcesChanged(list, from)
    {
      filled, changed := list, false;
      if |from| > 0 {
        if IsEmptyMap(list) {
          filled, changed := Some(from), true;
        } else {
          var m := list.value;
          if Quantity(Some(m), Memory) == 0 {
            m := m[Memory := Quantity(Some(from), Memory)];
            changed := true;
          }
          if Quantity(Some(m), Cpu) == 0 {
            m := m[Cpu := Quantity(Some(from), Cpu)];
            changed := true;
          }
          filled := Some(m);
        }
      }
    }

    method DefaultResourceFields() returns (changed: bool)
      modifies this`spec
      ensures spec == old(spec).(limits := DefaultLimits(old(spec), cfg), requests := DefaultRequests(old(spec), cfg))
      ensures changed == (ResourcesChanged(old(spec).limits, cfg.limits) || RequestsChanged(old(spec), cfg))
    {
      var limits, limitsChanged := FillFrom(spec.limits, cfg.limits);
      var requests, requestsChanged := FillFrom(spec.requests, cfg.requests);
      changed := limitsChanged || requestsChanged;
      if Quantity(limits, Cpu) != 0 && Quantity(requests, Cpu) > Quantity(limits, Cpu) {
        requests := Some(requests.value[Cpu := Quantity(limits, Cpu)]);
        changed := true;
      }
      if Quantity(limits, Memory) != 0 && Quantity(requests, Memory) > Quantity(limits, Memory) {
        requests := Some(requests.value[Memory := Quantity(limits, Memory)]);
        changed := true;
      }
      spec := spec.(limits := limits, requests := requests);
    }

    method DefaultNodeSelectorField() returns (changed: bool)
      modifies this`spec
      ensures spec == old(spec).(nodeSelector := DefaultNodeSelector(old(spec).nodeSelector, cfg.nodeSelector))
      ensures changed == NodeSelectorChanged(old(spec).nodeSelector, cfg.nodeSelector)
    {
      changed := false;
      if IsEmptyMap(spec.nodeSelector) {
        if |cfg.nodeSelector| > 0 {
          spec := spec.(nodeSelector := Some(cfg.nodeSelector));
          changed := true;
        }
      } else {
        var selector;
        selector, changed := FillSelector(spec.nodeSelector.value);
        spec := spec.(nodeSelector := Some(selector));
      }
    }

    /** Writes each configured entry that is missing, empty or different. */
    method FillSelector(was: Labels) returns (selector: Labels, changed: bool)
      ensures selector == was + cfg.nodeSelector
      ensures changed <==> exists k :: k in cfg.nodeSelector && SelectorDiffers(was, cfg.nodeSelector, k)
    {
      selector, changed := was, false;
      var todo := cfg.nodeSelector.Keys;
      ghost var done: Labels := map[];
      while todo != {}
        invariant todo <= cfg.nodeSelector.Keys
        invariant done == map k | k in cfg.nodeSelector && k !in todo :: cfg.nodeSelector[k]
        invariant selector == was + done
        invariant changed <==> SomeDiffers(was, cfg.nodeSelector, done.Keys)
      {
        var key :| key in todo;
        var value := cfg.nodeSelector[key];
        var bootValue := if key in selector then selector[key] else "";
        OneMoreEntry(was, cfg.nodeSelector, done, key);
        if bootValue != "" {
          if bootValue != value {
            selector := selector[key := value];
            changed := true;
          }
        } else {
          selector := selector[key := value];
          changed := true;
        }
        todo := todo - {key};
        done := done[key := value];
      }
      assert done == cfg.nodeSelector;
    }

    method DefaultEnvValue() returns (changed: bool)
      modifies this`spec, this`annotations
      ensures Defaulted(spec, annotations, changed) == DefaultEnvStage(boot, old(spec), old(annotations), cfg)
    {
      var recorded := Read(annotations, BootEnvs);
      if recorded == NO_TEXT {
        annotations := annotations[EnvGenerated := NO_TEXT];
      } else if !recorded.EnvJson? {
        return false;
      } else if recorded.envs == spec.env {
        if ImageChanged(spec, annotations, cfg) {
          annotations := annotations[EnvGenerated := NO_TEXT];
        } else {
          return false;
        }
      } else {
        annotations := annotations[EnvGenerated := NO_TEXT];
      }
      // The annotation was just cleared, so the test of lines 377-381 never returns.
      ClearingIsForgotten(old(annotations));
      changed := RedoEnv();
    }

    /** The part behind the two early returns. */
    method RedoEnv() returns (changed: bool)
      requires Read(annotations, EnvGenerated) == NO_TEXT
      modifies this`spec, this`annotations
      ensures changed
      ensures var env := DefaultEnvs(BootValues(boot.(spec := old(spec)), cfg), old(spec).env, cfg);
              spec == old(spec).(env := env)
              && annotations == EnvAnnotations(old(annotations), env, ImageName(old(spec), cfg))
    {
      var values := Values(boot.name, cfg.operEnv, spec.port);
      var image := ImageName(spec, cfg);
      StampsShow(annotations, image);
      var updated := UpdateAnnotation(map[EnvGenerated := Plain("generated"), BootImages := Plain(image)]);
      // For the same reason the update always shows and lines 414-419 are never taken.
      assert updated;
      MergeConfigEnv(values);
      var _ := DecodeSpecEnv(values);
      changed := true;
      annotations := annotations[BootEnvs := EnvJson(spec.env)];
    }

    /** Merges the decoded variables of the configuration over those of the spec. */
    method MergeConfigEnv(values: Values)
      modifies this`spec
      ensures spec == old(spec).(env := MergeInto(old(spec).env, DecodeAll(values, cfg.env)))
    {
      var additions := new EnvVar[|cfg.env|](i requires 0 <= i < |cfg.env| => cfg.env[i]);
      assert additions[..] == cfg.env;
      var _ := EnvList.DecodeEnvs(values, additions);
      if |cfg.env| > 0 {
        var merged := MergeSlice(Elements(spec.env), additions[..], true);
        spec := spec.(env := Some(merged));
      }
    }

    /** Decodes the environment of the spec in place. */
    method DecodeSpecEnv(values: Values) returns (updated: bool)
      modifies this`spec
      ensures spec == old(spec).(env := DecodeOptional(values, old(spec).env))
      ensures updated == AnyMentions(Elements(old(spec).env))
    {
      if spec.env.None? {
        return false;
      }
      var list := spec.env.value;
      var envVars := new EnvVar[|list|](i requires 0 <= i < |list| => list[i]);
      assert envVars[..] == list;
      updated := EnvList.DecodeEnvs(values, envVars);
      spec := spec.(env := Some(envVars[..]));
    }

    method DefaultPvcValue() returns (changed: bool)
      modifies this`annotations
      ensures Defaulted(spec, annotations, changed) == DefaultPvcStage(boot, spec, old(annotations), cfg)
    {
      var recorded := Read(annotations, BootPvcs);
      if recorded != NO_TEXT {
        if !recorded.PvcJson? {
          return false;
        }
        if recorded.pvcs == spec.pvc {
          return false;
        }
      }
      var pvcText := if Elements(spec.pvc) == [] then NO_TEXT else PvcJson(spec.pvc);
      var raw := ConfigMounts(cfg);
      if Elements(spec.pvc) != [] {
        raw := raw + ConvertVolumeMount(spec.pvc);
      }
      assert raw == RawMounts(spec.pvc, cfg);
      var deployText := NO_TEXT;
      if |raw| > 0 {
        var mounts := new VolumeMount[|raw|](i requires 0 <= i < |raw| => raw[i]);
        assert mounts[..] == raw;
        var _ := DecodeVolumeMounts(BootValues(boot, cfg), mounts);
        deployText := MountJson(Some(mounts[..]));
      }
      changed := UpdateAnnotation(map[BootPvcs := pvcText, BootDeployPvcs := deployText]);
    }

    method DefaultWorkload() returns (changed: bool)
      modifies this`spec, this`annotations
      ensures Defaulted(spec, annotations, changed) == DefaultWorkloadStage(old(spec), old(annotations))
    {
      var workload := spec.workload;
      changed := false;
      if workload == Unset {
        workload := Deployment;
      } else if workload != Deployment && workload != StatefulSet {
        spec := spec.(workload := Deployment);
        workload := Deployment;
        changed := true;
      }
      var updated := UpdateAnnotation(map[WorkloadKey := Plain(WorkloadText(workload))]);
      changed := changed || updated;
    }

    method DefaultAutoscaler() returns (changed: bool)
      modifies this`spec
      ensures spec == old(spec).(hpa := DefaultHpa(old(spec).hpa, cfg))
      ensures changed == HpaChanged(old(spec).hpa)
    {
      changed := false;
      if spec.hpa.Some? && spec.hpa.value.enable {
        var h := spec.hpa.value;
        if h.minReplicas.None? || h.minReplicas.value < 1 {
          h := h.(minReplicas := Some(cfg.replicas));
          changed := true;
        }
        if h.maxReplicas.None? || h.maxReplicas.value < 2 {
          h := h.(maxReplicas := Some(DEFAULT_MAX_REPLICAS));
          changed := true;
        }
        if |h.metrics| == 0 {
          h := h.(metrics := [CPU_METRIC]);
          changed := true;
        }
        spec := spec.(hpa := Some(h));
      }
    }

    /** Sets what the boot leaves open; true when the boot should be written back. */
    method SetDefaults() returns (changed: bool)
      requires spec == boot.spec && annotations == boot.annotations
      modifies this
      ensures Defaulted(spec, annotations, changed) == DefaultValue(boot, cfg)
    {
      var scalars := DefaultScalarFields();
      var resources := DefaultResourceFields();
      var selector := DefaultNodeSelectorField();
      assert spec == DefaultPlain(boot.spec, cfg);
      var env := DefaultEnvValue();
      var pvc := DefaultPvcValue();
      var workload := DefaultWorkload();
      var hpa := DefaultAutoscaler();
      changed := scalars || resources || selector || env || pvc || workload || hpa;
    }
  }

  function Read'(annotations: Annotations, key: AnnotationKey): Option<Annotation> {
    if key in annotations then Some(annotations[key]) else None
  }

  /** One of the entries called by `keys` is written. */
  ghost predicate SomeDiffers(selector: Labels, from: Labels, keys: set<string>)
    requires keys <= from.Keys
  {
    exists k :: k in keys && SelectorDiffers(selector, from, k)
  }

  lemma OneMoreEntry(was: Labels, from: Labels, done: Labels, key: string)
    requires done.Keys <= from.Keys && key in from && key !in done
    ensures key in was + done <==> key in was
    ensures key in was ==> (was + done)[key] == was[key]
    ensures (was + done)[key := from[key]] == was + done[key := from[key]]
    ensures !SelectorDiffers(was, from, key) ==> was + done == was + done[key := from[key]]
    ensures SomeDiffers(was, from, done.Keys + {key})
            <==> SomeDiffers(was, from, done.Keys) || SelectorDiffers(was, from, key)
  {
    if k :| k in done.Keys && SelectorDiffers(was, from, k) {
      assert k in done.Keys + {key};
    } else if SelectorDiffers(was, from, key) {
      assert key in done.Keys + {key};
    }
  }

  /** The cleared `EnvGenerated` annotation is set again before the pass ends. */
  lemma ClearingIsForgotten(annotations: Annotations)
    ensures forall env, image :: EnvAnnotations(annotations[EnvGenerated := NO_TEXT], env, image)
                                 == EnvAnnotations(annotations, env, image)
  {
  }

  lemma StampsShow(annotations: Annotations, image: string)
    requires Read(annotations, EnvGenerated) == NO_TEXT
    ensures var updated := annotations + map[EnvGenerated := Plain("generated"), BootImages := Plain(image)];
            updated != annotations
            && forall env :: updated[BootEnvs := EnvJson(env)] == EnvAnnotations(annotations, env, image)
  {
  }

  lemma UpdatesShow(annotations: Annotations, updates: Annotations)
    ensures annotations + updates != annotations
            <==> exists k :: k in updates && Read'(annotations, k) != Some(updates[k])
  {
  }
}
