/** Names, labels, image and mount helpers of a boot (pkg/logan/operator/boot.go). */
module BootOps {
  import opened Wrappers
  import opened Strconv
  import opened Placeholder
  import opened EnvList
  import opened Difference
  import opened Types

  function TypeText(t: BootType): string {
    match t
    case Java => "java"
    case Php => "php"
    case Python => "python"
    case NodeJS => "nodejs"
    case Web => "web"
  }

  function PodLabels(boot: Boot): Labels {
    map["app" := "havok", "bootName" := boot.name, "bootType" := TypeText(boot.bootType)]
  }

  function ServiceLabels(boot: Boot, cfg: Config): Labels {
    map["app" := boot.name, "logan/env" := cfg.operEnv]
  }

  function ImageName(spec: BootSpec, cfg: Config): string {
    if cfg.registry != "" then cfg.registry + "/" + spec.image + ":" + spec.version
    else spec.image + ":" + spec.version
  }

  function HealthPort(spec: BootSpec, cfg: Config): int {
    if cfg.appHealthPort > 0 then cfg.appHealthPort else spec.port
  }

  function AllowScrape(spec: BootSpec, cfg: Config): bool
    requires spec.prometheus == "" ==> cfg.prometheusScrape.Some?
  {
    if spec.prometheus != "" then ParseBool(spec.prometheus) else cfg.prometheusScrape.value
  }

  /** strconv.ParseBool; an unparsable text gives false. */
  predicate ParseBool(s: string) {
    s in ["1", "t", "T", "TRUE", "true", "True"]
  }

  function FormatBool(b: bool): string {
    if b then "true" else "false"
  }

  function BootValues(boot: Boot, cfg: Config): Values {
    Values(boot.name, cfg.operEnv, boot.spec.port)
  }

  /** The names given to the placeholders are non-empty and hold no placeholder character. */
  predicate SafeNames(boot: Boot, cfg: Config) {
    Safe(boot.name) && Safe(cfg.operEnv)
  }

  // --------------------------------------------------------------------------
  // Mounts and volumes.

  function ConvertVolumeMount(pvcs: Option<seq<PvcMount>>): (mounts: seq<VolumeMount>)
    ensures |mounts| == |Elements(pvcs)|
    ensures forall i :: 0 <= i < |mounts| ==> mounts[i].name == Elements(pvcs)[i].name
  {
    seq(|Elements(pvcs)|, i requires 0 <= i < |Elements(pvcs)| =>
      var p := Elements(pvcs)[i]; VolumeMount(p.name, p.readOnly, p.mountPath, ""))
  }

  function ConvertVolume(pvcs: Option<seq<PvcMount>>): (volumes: seq<Volume>)
    ensures |volumes| == |Elements(pvcs)|
    ensures forall i :: 0 <= i < |volumes| ==> volumes[i].name == Elements(pvcs)[i].name
  {
    seq(|Elements(pvcs)|, i requires 0 <= i < |Elements(pvcs)| =>
      var p := Elements(pvcs)[i]; Volume(p.name, Some(p.name), p.readOnly))
  }

  function DecodeMount(v: Values, m: VolumeMount): VolumeMount {
    m.(name := Decode(v, m.name).text)
  }

  function DecodeMounts(v: Values, mounts: seq<VolumeMount>): (decoded: seq<VolumeMount>)
    ensures |decoded| == |mounts|
    ensures forall i :: 0 <= i < |mounts| ==> decoded[i] == DecodeMount(v, mounts[i])
  {
    seq(|mounts|, i requires 0 <= i < |mounts| => DecodeMount(v, mounts[i]))
  }

  function DecodeVolume(v: Values, vol: Volume): Volume {
    vol.(name := Decode(v, vol.name).text,
         claim := if vol.claim.Some? then Some(Decode(v, vol.claim.value).text) else None)
  }

  function DecodeVolumes(v: Values, volumes: seq<Volume>): (decoded: seq<Volume>)
    ensures |decoded| == |volumes|
    ensures forall i :: 0 <= i < |volumes| ==> decoded[i] == DecodeVolume(v, volumes[i])
  {
    seq(|volumes|, i requires 0 <= i < |volumes| => DecodeVolume(v, volumes[i]))
  }

  method DecodeVolumeMounts(v: Values, mounts: array<VolumeMount>) returns (updated: bool)
    modifies mounts
    ensures mounts[..] == DecodeMounts(v, old(mounts[..]))
    ensures updated == MountsMention(old(mounts[..]))
  {
    updated := false;
    ghost var was := mounts[..];
    for i := 0 to mounts.Length
      invariant forall k :: 0 <= k < i ==> mounts[k] == DecodeMount(v, was[k])
      invariant forall k :: i <= k < mounts.Length ==> mounts[k] == was[k]
      invariant updated <==> exists k :: 0 <= k < i && Mentions(was[k].name)
    {
      var result := Decode(v, mounts[i].name);
      ReplacedExactly(v, was[i].name);
      if result.replaced {
        updated := true;
      }
      mounts[i] := mounts[i].(name := result.text);
    }
  }

  ghost predicate MountsMention(mounts: seq<VolumeMount>) {
    exists i :: 0 <= i < |mounts| && Mentions(mounts[i].name)
  }

  /** Decoding leaves a mount list alone exactly when no name mentions a placeholder. */
  lemma DecodeFixesMounts(v: Values, mounts: seq<VolumeMount>)
    requires SafeValues(v)
    ensures DecodeMounts(v, mounts) == mounts <==> !MountsMention(mounts)
  {
    forall i | 0 <= i < |mounts|
      ensures DecodeMount(v, mounts[i]) == mounts[i] <==> !Mentions(mounts[i].name)
    {
      DecodeFixes(v, mounts[i].name);
    }
    if !MountsMention(mounts) {
      assert forall i :: 0 <= i < |mounts| ==> DecodeMounts(v, mounts)[i] == mounts[i];
    }
  }

  /** No name in the list contains `${PORT}`. */
  ghost predicate PortFree(mounts: seq<VolumeMount>) {
    forall i :: 0 <= i < |mounts| ==> !Contains(mounts[i].name, Text(Port))
  }

  lemma PortFreeDecoding(v: Values, port: int, mounts: seq<VolumeMount>)
    requires PortFree(mounts)
    ensures DecodeMounts(v, mounts) == DecodeMounts(v.(port := port), mounts)
  {
  }
}
