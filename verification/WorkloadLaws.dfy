/** The builder and the checker of a workload agree, exactly under conditions a caller can read off
    the boot; where they do not, no number of updates ends the drift. */
module WorkloadLaws {
  import opened Wrappers
  import opened Placeholder
  import opened EnvList
  import opened Difference
  import opened Types
  import opened BootOps
  import opened Defaulter
  import opened Workloads

  /** None of the fields compared with the stored template is explicitly empty. */
  predicate FieldsNormal(spec: BootSpec) {
    && spec.env == DropEmptyList(spec.env)
    && spec.limits == DropEmptyMap(spec.limits)
    && spec.requests == DropEmptyMap(spec.requests)
    && spec.nodeSelector == DropEmptyMap(spec.nodeSelector)
    && spec.command == DropEmptyList(spec.command)
  }

  /** As the API server returns it. */
  predicate IsStored(t: PodTemplate) {
    |t.containers| > 0 && t == StoredTemplate(t)
  }

  /** What the well-formed configuration leaves of the built container. */
  lemma BuiltContainer(boot: Boot, cfg: Config)
    requires OverridesWellFormed(cfg)
    ensures var c, spec := NewAppContainer(boot, cfg), boot.spec;
            && c.image == ImageName(spec, cfg) && c.env == spec.env
            && c.ports == [ContainerPort("http", spec.port, "")]
            && c.limits == spec.limits && c.requests == spec.requests
            && !ProbeDiffers(c.liveness, HealthOf(spec)) && !ProbeDiffers(c.readiness, ReadinessOf(spec))
            && c.command == (if Elements(spec.command) != [] then spec.command else None)
    ensures NewTemplate(boot, cfg).containers[0] == NewAppContainer(boot, cfg)
    ensures NewTemplate(boot, cfg).nodeSelector == boot.spec.nodeSelector
    ensures NewTemplate(boot, cfg).priority == boot.spec.priority
    ensures !RestartStale(NewTemplate(boot, cfg), boot)
  {
    BuiltTemplate(boot, cfg);
  }

  lemma BuiltTemplate(boot: Boot, cfg: Config)
    requires OverridesWellFormed(cfg)
    ensures var t := NewTemplate(boot, cfg);
            && t.containers[0] == NewAppContainer(boot, cfg)
            && t.nodeSelector == boot.spec.nodeSelector && t.priority == boot.spec.priority
            && !RestartStale(t, boot)
  {
  }

  lemma BuiltMounts(boot: Boot, cfg: Config)
    ensures NewAppContainer(boot, cfg).mounts
            == if Elements(boot.spec.pvc) == [] then ConfigMounts(cfg)
               else DecodeMounts(BootValues(boot, cfg), RawMounts(boot.spec.pvc, cfg))
  {
  }

  /** Main result: the stored form of the built template passes the check exactly when no compared
      field is explicitly empty and the recorded mounts raise no objection. */
  lemma BuilderMeetsChecker(boot: Boot, cfg: Config, claims: Claims)
    requires OverridesWellFormed(cfg)
    ensures TemplateVerdict(StoredTemplate(NewTemplate(boot, cfg)), boot, cfg, claims) == SETTLED
            <==> FieldsNormal(boot.spec) && !Undecodable(boot)
                 && !VolumesDiffer(NewAppContainer(boot, cfg).mounts, boot, claims)
  {
    BuiltContainer(boot, cfg);
    var built, stored := NewTemplate(boot, cfg), StoredTemplate(NewTemplate(boot, cfg));
    var c := stored.containers[0];
    assert c == StoredContainer(NewAppContainer(boot, cfg));
    assert c.ports == [ContainerPort("http", boot.spec.port, "TCP")];
    assert stored.annotations == built.annotations;
    assert RestartStale(stored, boot) == RestartStale(built, boot);
  }

  /** The built mounts are the recorded ones exactly when the boot has a claim or the configured
      mount names mention no placeholder. */
  lemma MountsAgreeExactly(boot: Boot, cfg: Config)
    requires SafeNames(boot, cfg)
    ensures NewAppContainer(boot, cfg).mounts == DecodeMounts(BootValues(boot, cfg), RawMounts(boot.spec.pvc, cfg))
            <==> Elements(boot.spec.pvc) != [] || !MountsMention(ConfigMounts(cfg))
  {
    BuiltMounts(boot, cfg);
    if Elements(boot.spec.pvc) == [] {
      assert RawMounts(boot.spec.pvc, cfg) == ConfigMounts(cfg);
      DecodeFixesMounts(BootValues(boot, cfg), ConfigMounts(cfg));
    }
  }

  /** With a current mount annotation the volume check never asks for a reboot of a rebuilt workload. */
  lemma CurrentMountsAreQuiet(boot: Boot, cfg: Config, claims: Claims)
    requires SafeNames(boot, cfg)
    requires Elements(boot.spec.pvc) != [] || !MountsMention(ConfigMounts(cfg))
    requires Read(boot.annotations, BootDeployPvcs) == DeployPvcAnnotation(BootValues(boot, cfg), boot.spec.pvc, cfg)
    ensures !Undecodable(boot) && !VolumesDiffer(NewAppContainer(boot, cfg).mounts, boot, claims)
  {
  }

  // --------------------------------------------------------------------------
  // Updating.

  lemma StoringTwice(t: PodTemplate)
    ensures StoredTemplate(StoredTemplate(t)) == StoredTemplate(t)
  {
    var once := StoredContainers(t.containers);
    forall i | 0 <= i < |once|
      ensures StoredContainer(once[i]) == once[i]
    {
      assert StoredPorts(once[i].ports) == once[i].ports;
    }
    assert StoredContainers(once) == once;
  }

  lemma StampedIsStored(t: PodTemplate, boot: Boot)
    requires IsStored(t)
    ensures IsStored(Stamped(t, boot))
    ensures !RestartStale(Stamped(t, boot), boot)
  {
  }

  lemma UpdateIsStored(w: WorkloadObject, boot: Boot, cfg: Config, claims: Claims)
    requires IsStored(w.template) && boot.spec.replicas.Some?
    ensures IsStored(UpdatedWorkload(w, boot, cfg, claims).workload.template)
  {
    StoringTwice(NewTemplate(boot, cfg));
    StampedIsStored(w.template, boot);
  }

  /** The boot and its records leave nothing that keeps a rebuilt workload from passing the check. */
  ghost predicate Checkable(boot: Boot, cfg: Config, claims: Claims) {
    && FieldsNormal(boot.spec)
    && !Undecodable(boot)
    && !VolumesDiffer(NewAppContainer(boot, cfg).mounts, boot, claims)
  }

  /** Main result: one update ends the drift, for every stored workload. */
  lemma OneUpdateSettles(w: WorkloadObject, boot: Boot, cfg: Config, claims: Claims)
    requires OverridesWellFormed(cfg)
    requires IsStored(w.template) && boot.spec.replicas.Some?
    requires Checkable(boot, cfg, claims)
    ensures var once := UpdatedWorkload(w, boot, cfg, claims).workload;
            IsStored(once.template)
            && UpdatedWorkload(once, boot, cfg, claims) == Updated(once, false, false)
  {
    var verdict := TemplateVerdict(w.template, boot, cfg, claims);
    var once := UpdatedWorkload(w, boot, cfg, claims).workload;
    BuilderMeetsChecker(boot, cfg, claims);
    StoringTwice(NewTemplate(boot, cfg));
    StampedIsStored(w.template, boot);
    if verdict.reboot {
      assert once.template == StoredTemplate(NewTemplate(boot, cfg));
    } else {
      assert once.template == Stamped(w.template, boot);
      assert TemplateVerdict(once.template, boot, cfg, claims) == SETTLED;
    }
  }

  /** A new workload needs no update. */
  lemma NewWorkloadIsSettled(boot: Boot, cfg: Config, claims: Claims)
    requires OverridesWellFormed(cfg) && boot.spec.replicas.Some?
    requires Checkable(boot, cfg, claims)
    ensures var w := StoredWorkload(NewWorkload(boot, cfg));
            IsStored(w.template) && UpdatedWorkload(w, boot, cfg, claims) == Updated(w, false, false)
  {
    BuilderMeetsChecker(boot, cfg, claims);
    StoringTwice(NewTemplate(boot, cfg));
  }

  /** With an explicitly empty list, say `command: []`, no stored template passes the check, so every
      update writes again: the rolling update never ends. */
  lemma ExplicitEmptyNeverSettles(w: WorkloadObject, boot: Boot, cfg: Config, claims: Claims)
    requires IsStored(w.template) && boot.spec.replicas.Some?
    requires !FieldsNormal(boot.spec) && !Undecodable(boot)
    ensures var once := UpdatedWorkload(w, boot, cfg, claims);
            once.written && IsStored(once.workload.template)
  {
    var c := w.template.containers[0];
    assert c == StoredContainer(c);
    StoringTwice(NewTemplate(boot, cfg));
    assert TemplateVerdict(w.template, boot, cfg, claims).reboot;
  }

  /** A template can pass the check at all exactly when no compared field is explicitly empty. */
  lemma SomeTemplatePasses(boot: Boot, cfg: Config, claims: Claims)
    requires OverridesWellFormed(cfg)
    requires !Undecodable(boot) && !VolumesDiffer(NewAppContainer(boot, cfg).mounts, boot, claims)
    ensures (exists t :: IsStored(t) && TemplateVerdict(t, boot, cfg, claims) == SETTLED) <==> FieldsNormal(boot.spec)
  {
    if FieldsNormal(boot.spec) {
      BuilderMeetsChecker(boot, cfg, claims);
      StoringTwice(NewTemplate(boot, cfg));
      assert IsStored(StoredTemplate(NewTemplate(boot, cfg)));
    }
    if t :| IsStored(t) && TemplateVerdict(t, boot, cfg, claims) == SETTLED {
      assert t.containers[0] == StoredContainer(t.containers[0]);
    }
  }

  /** Every claim of the boot is mounted into its container and offered by the pod under the same
      decoded name. */
  lemma ClaimsAreMountedAndOffered(boot: Boot, cfg: Config, i: nat)
    requires OverridesWellFormed(cfg)
    requires i < |Elements(boot.spec.pvc)|
    ensures var name := Decode(BootValues(boot, cfg), Elements(boot.spec.pvc)[i].name).text;
            var t := NewTemplate(boot, cfg);
            && (exists m :: m in t.containers[0].mounts && m.name == name
                            && m.mountPath == Elements(boot.spec.pvc)[i].mountPath
                            && m.readOnly == Elements(boot.spec.pvc)[i].readOnly)
            && (exists vol :: vol in t.volumes && vol.name == name && vol.claim == Some(name)
                              && vol.readOnly == Elements(boot.spec.pvc)[i].readOnly)
  {
    var v, t := BootValues(boot, cfg), NewTemplate(boot, cfg);
    BuiltContainer(boot, cfg);
    BuiltMounts(boot, cfg);
    MountOf(v, boot.spec.pvc, cfg, i);
    var configured := if cfg.podSpec.Some? then cfg.podSpec.value.volumes else [];
    assert t.volumes == DecodeVolumes(v, configured + ConvertVolume(boot.spec.pvc));
    VolumeOf(v, boot.spec.pvc, configured, i);
  }

  lemma MountOf(v: Values, pvcs: Option<seq<PvcMount>>, cfg: Config, i: nat)
    requires i < |Elements(pvcs)|
    ensures exists m :: m in DecodeMounts(v, RawMounts(pvcs, cfg))
                        && m.name == Decode(v, Elements(pvcs)[i].name).text
                        && m.mountPath == Elements(pvcs)[i].mountPath && m.readOnly == Elements(pvcs)[i].readOnly
  {
    var mounts, j := RawMounts(pvcs, cfg), |ConfigMounts(cfg)| + i;
    assert mounts[j] == ConvertVolumeMount(pvcs)[i];
    assert DecodeMounts(v, mounts)[j] == DecodeMount(v, mounts[j]);
  }

  lemma VolumeOf(v: Values, pvcs: Option<seq<PvcMount>>, configured: seq<Volume>, i: nat)
    requires i < |Elements(pvcs)|
    ensures var name := Decode(v, Elements(pvcs)[i].name).text;
            exists vol :: vol in DecodeVolumes(v, configured + ConvertVolume(pvcs)) && vol.name == name
                          && vol.claim == Some(name) && vol.readOnly == Elements(pvcs)[i].readOnly
  {
    var volumes, j := configured + ConvertVolume(pvcs), |configured| + i;
    assert volumes[j] == ConvertVolume(pvcs)[i];
    assert DecodeVolumes(v, volumes)[j] == DecodeVolume(v, volumes[j]);
  }

  // --------------------------------------------------------------------------
  // What an update replaces.

  /** Everything but owner and replicas is as the boot wants it. */
  ghost predicate OnlyScaled(w: WorkloadObject, boot: Boot, cfg: Config, claims: Claims)
    requires |w.template.containers| > 0
  {
    TemplateVerdict(w.template, boot, cfg, claims) == SETTLED
  }

  /** Scaling writes the replicas and leaves the pod template, and so the running pods, alone. */
  lemma ScalingKeepsPods(w: WorkloadObject, boot: Boot, cfg: Config, claims: Claims)
    requires IsStored(w.template) && boot.spec.replicas.Some? && OnlyScaled(w, boot, cfg, claims)
    ensures var updated := UpdatedWorkload(w, boot, cfg, claims);
            && !updated.failed && updated.workload == WorkloadObject(true, boot.spec.replicas.value, w.template)
            && (updated.written <==> !w.owned || w.replicas != boot.spec.replicas.value)
  {
  }

  /** A new restart stamp is written into the template and changes nothing else of it. */
  lemma RestartOnlyStamps(w: WorkloadObject, boot: Boot, cfg: Config, claims: Claims)
    requires IsStored(w.template) && boot.spec.replicas.Some? && RestartedAt in boot.annotations
    requires TemplateVerdict(w.template, boot, cfg, claims) == Verdict(true, false, false)
    ensures var updated := UpdatedWorkload(w, boot, cfg, claims);
            && updated.written && !updated.failed
            && updated.workload.template
               == w.template.(annotations := w.template.annotations[RestartedAt := boot.annotations[RestartedAt]])
  {
  }

  /** The update fails, and writes nothing, exactly when the mount record is there and is no mount list. */
  lemma UnreadableRecordFails(w: WorkloadObject, boot: Boot, cfg: Config, claims: Claims)
    requires |w.template.containers| > 0 && boot.spec.replicas.Some?
    ensures var updated := UpdatedWorkload(w, boot, cfg, claims);
            && (updated.failed <==> BootDeployPvcs in boot.annotations
                                    && boot.annotations[BootDeployPvcs] != Plain("")
                                    && !boot.annotations[BootDeployPvcs].MountJson?)
            && (updated.failed ==> !updated.written && updated.workload == w)
  {
  }

  // --------------------------------------------------------------------------
  // What the volume check compares.

  /** A claim that carries the pod labels of a boot matters to exactly the boots of that name and type, a
      shared one to all, and one with other labels to none. */
  lemma ClaimsMatterExactly(m: VolumeMount, boot: Boot, other: Boot, claims: Claims)
    requires m.name in claims
    ensures claims[m.name] == PodLabels(boot) ==>
              (MountsOwnClaim(m, other, claims) <==> other.name == boot.name && other.bootType == boot.bootType)
    ensures "shared" in claims[m.name] && claims[m.name]["shared"] == "true" ==> MountsOwnClaim(m, other, claims)
    ensures MountsOwnClaim(m, other, claims) ==>
              || ("shared" in claims[m.name] && claims[m.name]["shared"] == "true")
              || ("bootName" in claims[m.name] && claims[m.name]["bootName"] == other.name)
  {
    if claims[m.name] == PodLabels(boot) {
      TypesHaveNames(boot.bootType, other.bootType);
      assert PodLabels(boot)["bootName"] == boot.name && PodLabels(boot)["bootType"] == TypeText(boot.bootType);
      assert PodLabels(other)["bootName"] == other.name && PodLabels(other)["bootType"] == TypeText(other.bootType);
      assert "shared" !in PodLabels(boot);
    }
  }

  lemma TypesHaveNames(a: BootType, b: BootType)
    ensures TypeText(a) == TypeText(b) <==> a == b
  {
    assert TypeText(Java)[0] == 'j' && |TypeText(Java)| == 4;
    assert |TypeText(Php)| == 3 && TypeText(Php)[0] == 'p';
    assert |TypeText(Python)| == 6 && TypeText(Python)[0] == 'p';
    assert |TypeText(NodeJS)| == 6 && TypeText(NodeJS)[0] == 'n';
    assert |TypeText(Web)| == 3 && TypeText(Web)[0] == 'w';
  }


  /** Both lists mount the claim of that name, at one path and mode, or neither does. */
  ghost predicate MountedAlike(a: seq<VolumeMount>, b: seq<VolumeMount>, name: string) {
    var x, y := EntryOf(a, MountKey, name), EntryOf(b, MountKey, name);
    && x.Some? == y.Some?
    && (x.Some? && y.Some? ==> x.value.mountPath == y.value.mountPath && x.value.readOnly == y.value.readOnly)
  }

  lemma ChangeReported(a: seq<VolumeMount>, b: seq<VolumeMount>, name: string)
    requires UniqueKeys(a, MountKey) && UniqueKeys(b, MountKey)
    ensures HasKey(MountChanges(a, b), MountKey, name) <==> !MountedAlike(a, b, name)
  {
    FirstIsEnough(a, b, MountKey, SameMount);
    EntryIn(a, MountKey, name);
    EntryIn(b, MountKey, name);
    var gone, come, other := Missing(a, b, MountKey), Missing(b, a, MountKey), Changed(a, b, MountKey, SameMount);
    InParts(gone, come, other, name);
    if HasKey(gone, MountKey, name) {
      MissingMember(a, b, MountKey, EntryOf(gone, MountKey, name).value);
      EntryIn(gone, MountKey, name);
    } else if HasKey(come, MountKey, name) {
      MissingMember(b, a, MountKey, EntryOf(come, MountKey, name).value);
      EntryIn(come, MountKey, name);
    } else if HasKey(other, MountKey, name) {
      EntryIn(other, MountKey, name);
      ChangeIsReal(a, b, EntryOf(other, MountKey, name).value);
    } else {
      NotReported(a, b, MountKey, SameMount, name);
    }
  }

  lemma InParts(gone: seq<VolumeMount>, come: seq<VolumeMount>, other: seq<VolumeMount>, name: string)
    ensures HasKey(gone + come + other, MountKey, name)
            <==> HasKey(gone, MountKey, name) || HasKey(come, MountKey, name) || HasKey(other, MountKey, name)
  {
    var all := gone + come + other;
    assert forall i :: 0 <= i < |gone| ==> all[i] == gone[i];
    assert forall i :: 0 <= i < |come| ==> all[|gone| + i] == come[i];
    assert forall i :: 0 <= i < |other| ==> all[|gone| + |come| + i] == other[i];
  }

  lemma ChangeIsReal(a: seq<VolumeMount>, b: seq<VolumeMount>, m: VolumeMount)
    requires UniqueKeys(a, MountKey) && UniqueKeys(b, MountKey) && m in Changed(a, b, MountKey, SameMount)
    ensures !MountedAlike(a, b, m.name)
  {
    ChangedMember(a, b, MountKey, SameMount, m);
    var i :| 0 <= i < |a| && MountKey(m) == MountKey(a[i]) && !SameMount(a[i], m);
    EntryIs(a, MountKey, a[i]);
    EntryIs(b, MountKey, m);
  }

  /** The volume check objects exactly when the container and the record mount a shared claim, or one of
      this boot alone, in different ways; other mounts do not matter. */
  lemma VolumesDifferExactly(mounts: seq<VolumeMount>, boot: Boot, claims: Claims)
    requires Read(boot.annotations, BootDeployPvcs).MountJson?
    requires UniqueKeys(mounts, MountKey) && UniqueKeys(Elements(Read(boot.annotations, BootDeployPvcs).mounts),
            MountKey)
    ensures VolumesDiffer(mounts, boot, claims)
            <==> exists m: VolumeMount ::
                   MountsOwnClaim(m, boot, claims)
                   && !MountedAlike(mounts, Elements(Read(boot.annotations, BootDeployPvcs).mounts), m.name)
  {
    var recorded := Elements(Read(boot.annotations, BootDeployPvcs).mounts);
    var changes := MountChanges(mounts, recorded);
    if i :| 0 <= i < |changes| && MountsOwnClaim(changes[i], boot, claims) {
      assert MountKey(changes[i]) == changes[i].name;
      ChangeReported(mounts, recorded, changes[i].name);
    }
    if m: VolumeMount :| MountsOwnClaim(m, boot, claims) && !MountedAlike(mounts, recorded, m.name) {
      ChangeReported(mounts, recorded, m.name);
      var i :| 0 <= i < |changes| && MountKey(changes[i]) == m.name;
      assert MountsOwnClaim(changes[i], boot, claims);
    }
  }
}
