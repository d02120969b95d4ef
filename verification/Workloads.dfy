/** The workload of a boot: what the operator builds (pkg/logan/operator/boot_handler.go), what it
    inspects later (pkg/logan/operator/boot_handler_workload.go and the volume check of
    boot_handler_controller.go), and what the API server keeps in between. */
module Workloads {
  import opened Wrappers
  import opened Placeholder
  import opened EnvList
  import opened Difference
  import opened Types
  import opened BootOps
  import opened Defaulter

  // --------------------------------------------------------------------------
  // Building.

  function HealthOf(spec: BootSpec): string {
    if spec.health.Some? then spec.health.value else ""
  }

  function ReadinessOf(spec: BootSpec): string {
    if spec.readiness.Some? && spec.readiness.value != "" && HealthOf(spec) != "" then spec.readiness.value
    else HealthOf(spec)
  }

  function FailureThreshold(boot: Boot): int {
    if boot.bootType == Python then 15 else 10
  }

  function LivenessProbe(boot: Boot, cfg: Config): Probe {
    Probe(HealthOf(boot.spec), HealthPort(boot.spec, cfg), FailureThreshold(boot), 120)
  }

  function ReadinessProbe(boot: Boot, cfg: Config): Probe {
    Probe(ReadinessOf(boot.spec), HealthPort(boot.spec, cfg), FailureThreshold(boot), 60)
  }

  function MergeMap<K, V>(dst: Option<map<K, V>>, src: map<K, V>): Option<map<K, V>> {
    if |src| == 0 then dst
    else if dst.None? then Some(src)
    else Some(dst.value + src)
  }

  /** The overriding merge of the configured container: what it sets replaces what was built. */
  function MergeContainer(c: Container, from: ContainerConfig): Container {
    c.(image := if from.image != "" then from.image else c.image,
       env := MergeInto(c.env, from.env),
       ports := if from.ports != [] then from.ports else c.ports,
       limits := MergeMap(c.limits, from.limits),
       requests := MergeMap(c.requests, from.requests),
       liveness := if from.liveness.Some? then from.liveness else c.liveness,
       readiness := if from.readiness.Some? then from.readiness else c.readiness,
       command := if from.command != [] then Some(from.command) else c.command,
       mounts := if from.mounts != [] then from.mounts else c.mounts)
  }

  function NewAppContainer(boot: Boot, cfg: Config): Container {
    var spec := boot.spec;
    var checked := HealthOf(spec) != "";
    var plain := Container(
      "app", ImageName(spec, cfg), spec.env, [ContainerPort("http", spec.port, "")], spec.limits, spec.requests,
      if checked then Some(LivenessProbe(boot, cfg)) else None,
      if checked then Some(ReadinessProbe(boot, cfg)) else None,
      if Elements(spec.command) != [] then spec.command else None, []);
    var merged := if cfg.container.Some? then MergeContainer(plain, cfg.container.value) else plain;
    if Elements(spec.pvc) == [] then merged
    else merged.(mounts := DecodeMounts(BootValues(boot, cfg), merged.mounts + ConvertVolumeMount(spec.pvc)))
  }

  function NewSidecar(boot: Boot, cfg: Config, c: Container): Container {
    c.(env := DecodeOptional(BootValues(boot, cfg), c.env))
  }

  function NewSidecars(boot: Boot, cfg: Config): (r: seq<Container>)
    ensures |r| == |cfg.sidecars|
  {
    seq(|cfg.sidecars|, i requires 0 <= i < |cfg.sidecars| => NewSidecar(boot, cfg, cfg.sidecars[i]))
  }

  /** Only a restart stamp is handed on to the pods. */
  function NewPodAnnotations(boot: Boot): Annotations {
    if RestartedAt in boot.annotations then map[RestartedAt := boot.annotations[RestartedAt]] else map[]
  }

  /** The template shared by NewDeployment and NewStatefulSet, after rebuildPodSpec. */
  function NewTemplate(boot: Boot, cfg: Config): (t: PodTemplate)
    ensures |t.containers| > 0
  {
    var containers := [NewAppContainer(boot, cfg)] + NewSidecars(boot, cfg);
    var plain := PodTemplate(PodLabels(boot), containers, boot.spec.nodeSelector, boot.spec.priority,
                             NewPodAnnotations(boot), []);
    var merged :=
      if cfg.podSpec.None? then plain
      else
        var p := cfg.podSpec.value;
        plain.(containers := if p.containers != [] then p.containers else containers,
               nodeSelector := MergeMap(plain.nodeSelector, p.nodeSelector),
               priority := if p.priority != "" then p.priority else plain.priority,
               volumes := p.volumes);
    merged.(volumes := DecodeVolumes(BootValues(boot, cfg), merged.volumes + ConvertVolume(boot.spec.pvc)))
  }

  datatype WorkloadObject = WorkloadObject(owned: bool, replicas: int, template: PodTemplate)

  function NewWorkload(boot: Boot, cfg: Config): WorkloadObject
    requires boot.spec.replicas.Some?
  {
    WorkloadObject(true, boot.spec.replicas.value, NewTemplate(boot, cfg))
  }

  // --------------------------------------------------------------------------
  // Storing: ports get their protocol, empty lists and maps come back as nil.

  function StoredPort(p: ContainerPort): ContainerPort {
    p.(protocol := if p.protocol == "" then "TCP" else p.protocol)
  }

  function StoredPorts(ports: seq<ContainerPort>): (r: seq<ContainerPort>)
    ensures |r| == |ports|
  {
    seq(|ports|, i requires 0 <= i < |ports| => StoredPort(ports[i]))
  }

  function StoredContainer(c: Container): Container {
    c.(env := DropEmptyList(c.env), ports := StoredPorts(c.ports), limits := DropEmptyMap(c.limits),
       requests := DropEmptyMap(c.requests), command := DropEmptyList(c.command))
  }

  function StoredContainers(list: seq<Container>): (r: seq<Container>)
    ensures |r| == |list|
    ensures forall i :: 0 <= i < |list| ==> r[i] == StoredContainer(list[i])
  {
    seq(|list|, i requires 0 <= i < |list| => StoredContainer(list[i]))
  }

  function StoredTemplate(t: PodTemplate): PodTemplate {
    t.(containers := StoredContainers(t.containers), nodeSelector := DropEmptyMap(t.nodeSelector))
  }

  function StoredWorkload(w: WorkloadObject): WorkloadObject {
    w.(template := StoredTemplate(w.template))
  }

  // --------------------------------------------------------------------------
  // Checking.

  /** The persistent volume claims of the namespace, with their labels. */
  type Claims = map<string, Labels>

  predicate ProbeDiffers(probe: Option<Probe>, path: string) {
    if path == "" then probe.Some? else probe.None? || probe.value.path != path
  }

  predicate ContainerDiffers(c: Container, boot: Boot, cfg: Config) {
    || c.image != ImageName(boot.spec, cfg)
    || c.env != boot.spec.env
    || c.ports != [ContainerPort("http", boot.spec.port, "TCP")]
    || c.limits != boot.spec.limits
    || c.requests != boot.spec.requests
    || ProbeDiffers(c.liveness, HealthOf(boot.spec))
    || ProbeDiffers(c.readiness, ReadinessOf(boot.spec))
    || c.command != boot.spec.command
  }

  /** A mount of a shared claim or of a claim labelled for this boot alone. */
  predicate MountsOwnClaim(m: VolumeMount, boot: Boot, claims: Claims) {
    m.name in claims
    && (("shared" in claims[m.name] && claims[m.name]["shared"] == "true") || claims[m.name] == PodLabels(boot))
  }

  ghost predicate AnyOwnClaim(mounts: seq<VolumeMount>, boot: Boot, claims: Claims) {
    exists i :: 0 <= i < |mounts| && MountsOwnClaim(mounts[i], boot, claims)
  }

  function MountChanges(was: seq<VolumeMount>, wanted: seq<VolumeMount>): seq<VolumeMount> {
    Missing(was, wanted, MountKey) + Missing(wanted, was, MountKey) + FirstChanged(was, wanted, MountKey, SameMount)
  }

  predicate Undecodable(boot: Boot) {
    Read(boot.annotations, BootDeployPvcs) != NO_TEXT && !Read(boot.annotations, BootDeployPvcs).MountJson?
  }

  /** The recorded mounts differ from those of the container in a claim that matters. */
  ghost predicate VolumesDiffer(mounts: seq<VolumeMount>, boot: Boot, claims: Claims) {
    var recorded := Read(boot.annotations, BootDeployPvcs);
    recorded.MountJson? && Elements(recorded.mounts) != mounts
    && AnyOwnClaim(MountChanges(mounts, Elements(recorded.mounts)), boot, claims)
  }

  predicate RestartStale(t: PodTemplate, boot: Boot) {
    RestartedAt in boot.annotations
    && (RestartedAt !in t.annotations || t.annotations[RestartedAt] != boot.annotations[RestartedAt])
  }

  function Stamped(t: PodTemplate, boot: Boot): PodTemplate {
    if RestartStale(t, boot) then t.(annotations := t.annotations[RestartedAt := boot.annotations[RestartedAt]]) else t
  }

  datatype Verdict = Verdict(restart: bool, reboot: bool, failed: bool)

  const SETTLED := Verdict(false, false, false)

  ghost function TemplateVerdict(t: PodTemplate, boot: Boot, cfg: Config, claims: Claims): Verdict
    requires |t.containers| > 0
  {
    if Undecodable(boot) then Verdict(true, true, true)
    else
      Verdict(RestartStale(t, boot),
              || ContainerDiffers(t.containers[0], boot, cfg)
              || t.nodeSelector != boot.spec.nodeSelector
              || VolumesDiffer(t.containers[0].mounts, boot, claims)
              || t.priority != boot.spec.priority,
              false)
  }

  datatype Updated = Updated(workload: WorkloadObject, written: bool, failed: bool)

  /** One pass over a found workload. */
  ghost function UpdatedWorkload(w: WorkloadObject, boot: Boot, cfg: Config, claims: Claims): Updated
    requires |w.template.containers| > 0 && boot.spec.replicas.Some?
  {
    var verdict := TemplateVerdict(w.template, boot, cfg, claims);
    if verdict.failed then Updated(w, false, true)
    else
      var template := if verdict.reboot then NewTemplate(boot, cfg) else Stamped(w.template, boot);
      if !w.owned || w.replicas != boot.spec.replicas.value || verdict.reboot || verdict.restart
      then Updated(StoredWorkload(WorkloadObject(true, boot.spec.replicas.value, template)), true, false)
      else Updated(w, false, false)
  }

  // --------------------------------------------------------------------------
  // The handler of a found workload.

  class WorkloadHandler {
    const boot: Boot
    const cfg: Config
    const claims: Claims
    /** The object as it was read, changed in place before it is written. */
    var owned: bool
    var replicas: int
    var template: PodTemplate

    constructor (boot: Boot, cfg: Config, claims: Claims, found: WorkloadObject)
      ensures this.boot == boot && this.cfg == cfg && this.claims == claims
      ensures Object() == found
    {
      this.boot, this.cfg, this.claims := boot, cfg, claims;
      owned, replicas, template := found.owned, found.replicas, found.template;
    }

    ghost function Object(): WorkloadObject
      reads this
    {
      WorkloadObject(owned, replicas, template)
    }

    method CheckVolumeMountUpdate(deleted: seq<VolumeMount>, added: seq<VolumeMount>, modified: seq<VolumeMount>)
      returns (updated: bool)
      ensures updated <==> AnyOwnClaim(deleted + added + modified, boot, claims)
    {
      var all := deleted + added + modified;
      for i := 0 to |all|
        invariant forall k :: 0 <= k < i ==> !MountsOwnClaim(all[k], boot, claims)
      {
        if all[i].name in claims {
          var labels := claims[all[i].name];
          if "shared" in labels && labels["shared"] == "true" {
            assert MountsOwnClaim(all[i], boot, claims);
            return true;
          }
          if labels == PodLabels(boot) {
            assert MountsOwnClaim(all[i], boot, claims);
            return true;
          }
        }
      }
      updated := false;
    }

    /** Whether a probe has to go, to come or to change its path. */
    method CheckProbe(probe: Option<Probe>, path: string) returns (reboot: bool)
      ensures reboot == ProbeDiffers(probe, path)
    {
      reboot := false;
      if path == "" {
        if probe.Some? { reboot := true; }
      } else if probe.None? {
        reboot := true;
      } else if probe.value.path != path {
        reboot := true;
      }
    }

    /** The app container against the boot. */
    method CheckContainer(container: Container) returns (reboot: bool)
      ensures reboot == ContainerDiffers(container, boot, cfg)
    {
      reboot := false;
      if container.image != ImageName(boot.spec, cfg) { reboot := true; }
      if container.env != boot.spec.env { reboot := true; }
      if container.ports != [ContainerPort("http", boot.spec.port, "TCP")] { reboot := true; }
      if container.limits != boot.spec.limits || container.requests != boot.spec.requests { reboot := true; }
      var liveness := CheckProbe(container.liveness, HealthOf(boot.spec));
      if liveness { reboot := true; }
      var path := HealthOf(boot.spec);
      if boot.spec.readiness.Some? && boot.spec.readiness.value != "" && HealthOf(boot.spec) != "" {
        path := boot.spec.readiness.value;
      }
      var readiness := CheckProbe(container.readiness, path);
      if readiness { reboot := true; }
      if container.command != boot.spec.command { reboot := true; }
    }

    /** The mounts of the container against the recorded ones; a record that does not decode is an
        error. */
    method CheckMounts(mounts: seq<VolumeMount>) returns (reboot: bool, failed: bool)
      ensures failed == Undecodable(boot)
      ensures !failed ==> reboot == VolumesDiffer(mounts, boot, claims)
    {
      reboot, failed := false, false;
      var recorded := Read(boot.annotations, BootDeployPvcs);
      if recorded != NO_TEXT {
        if !recorded.MountJson? {
          return true, true;
        }
        if mounts != Elements(recorded.mounts) {
          var deleted, added, modified := DifferenceVol(mounts, Elements(recorded.mounts));
          reboot := CheckVolumeMountUpdate(deleted, added, modified);
        }
      }
    }

    /** Hands a restart stamp on to the template. */
    method Stamp() returns (restart: bool)
      modifies this`template
      ensures restart == RestartStale(old(template), boot) && template == Stamped(old(template), boot)
    {
      restart := false;
      if RestartedAt in boot.annotations {
        var stamp := boot.annotations[RestartedAt];
        if RestartedAt !in template.annotations || template.annotations[RestartedAt] != stamp {
          template := template.(annotations := template.annotations[RestartedAt := stamp]);
          restart := true;
        }
      }
    }

    method ReconcileTemplate() returns (restart: bool, reboot: bool, failed: bool)
      requires |template.containers| > 0
      modifies this`template
      ensures Verdict(restart, reboot, failed) == TemplateVerdict(old(template), boot, cfg, claims)
      ensures template == if failed then old(template) else Stamped(old(template), boot)
    {
      restart := false;
      reboot := CheckContainer(template.containers[0]);
      if template.nodeSelector != boot.spec.nodeSelector { reboot := true; }
      var volumes;
      volumes, failed := CheckMounts(template.containers[0].mounts);
      if failed {
        return true, true, true;
      }
      if volumes { reboot := true; }
      restart := Stamp();
      if template.priority != boot.spec.priority { reboot := true; }
    }

    /** The update of a Deployment; that of a StatefulSet takes the same steps. */
    method Update() returns (stored: WorkloadObject, written: bool, failed: bool)
      requires |template.containers| > 0 && boot.spec.replicas.Some?
      modifies this
      ensures Updated(stored, written, failed) == UpdatedWorkload(old(Object()), boot, cfg, claims)
    {
      var found := WorkloadObject(owned, replicas, template);
      var updated := false;
      if !owned {
        owned := true;
        updated := true;
      }
      if replicas != boot.spec.replicas.value {
        replicas := boot.spec.replicas.value;
        updated := true;
      }
      var restart, reboot, err := ReconcileTemplate();
      if err {
        return found, false, true;
      }
      if reboot {
        var rebuilt := NewWorkload(boot, cfg);
        replicas, template := rebuilt.replicas, rebuilt.template;
      }
      if updated || reboot || restart {
        return StoredWorkload(WorkloadObject(owned, replicas, template)), true, false;
      }
      return found, false, false;
    }
  }
}
