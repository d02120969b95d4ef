/** What the built objects are, said of the request and the configuration: the image that runs, where it
    is probed, and which services there are on which ports. */
module Built {
  import opened Wrappers
  import opened Strconv
  import opened Placeholder
  import opened EnvList
  import opened Types
  import opened BootOps
  import opened Defaulter
  import opened Workloads
  import W = WorkloadLaws
  import opened Services

  // --------------------------------------------------------------------------
  // The app container.

  predicate NoColon(s: string) {
    forall i :: 0 <= i < |s| ==> s[i] != ':'
  }

  lemma LastColonDecides(x: string, v: string, y: string, w: string)
    requires NoColon(v) && NoColon(w) && x + ":" + v == y + ":" + w
    ensures x == y && v == w
  {
    var s, t := x + ":" + v, y + ":" + w;
    if |v| < |w| { ColonInside(y, w, x, v); }
    if |w| < |v| { ColonInside(x, v, y, w); }
    assert s[..|x|] == x && t[..|y|] == y && s[|x| + 1..] == v && t[|y| + 1..] == w;
  }

  lemma ColonInside(y: string, w: string, x: string, v: string)
    requires NoColon(w) && |v| < |w| && |x| + |v| == |y| + |w|
    ensures x + ":" + v != y + ":" + w
  {
    assert (x + ":" + v)[|x|] == ':';
    assert (y + ":" + w)[|x|] == w[|x| - |y| - 1];
  }

  /** Image texts tell image and version apart, so a release of another version runs another image. */
  lemma ImageNamesAgreeExactly(a: BootSpec, b: BootSpec, cfg: Config)
    requires NoColon(a.version) && NoColon(b.version)
    ensures ImageName(a, cfg) == ImageName(b, cfg) <==> a.image == b.image && a.version == b.version
  {
    if ImageName(a, cfg) == ImageName(b, cfg) {
      var prefix := if cfg.registry != "" then cfg.registry + "/" else "";
      assert ImageName(a, cfg) == (prefix + a.image) + ":" + a.version;
      assert ImageName(b, cfg) == (prefix + b.image) + ":" + b.version;
      LastColonDecides(prefix + a.image, a.version, prefix + b.image, b.version);
      assert (prefix + a.image)[|prefix|..] == a.image && (prefix + b.image)[|prefix|..] == b.image;
    }
  }

  /** The image comes from the registry, if one is configured, and ends in the version. */
  lemma ImageIsFromRegistry(spec: BootSpec, cfg: Config)
    ensures var name := ImageName(spec, cfg);
            && (cfg.registry == "" ==> spec.image <= name)
            && (cfg.registry != "" ==> cfg.registry + "/" + spec.image <= name)
            && |name| >= |spec.version| && name[|name| - |spec.version|..] == spec.version
  {
  }

  predicate ProbedOn(probe: Option<Probe>, path: string, port: int, failures: int, delay: int) {
    probe == Some(Probe(path, port, failures, delay))
  }

  /** A boot with a health path is probed on it, after two minutes for liveness and after one for
      readiness, which may have a path of its own, on the health port of the configuration or else its own
      port; Python boots may fail 15 times and others 10 times. A boot without a health path is not probed. */
  lemma ProbesAreBuilt(boot: Boot, cfg: Config)
    requires OverridesWellFormed(cfg)
    ensures var c, spec := StoredTemplate(NewTemplate(boot, cfg)).containers[0], boot.spec;
            var port := if cfg.appHealthPort > 0 then cfg.appHealthPort else spec.port;
            var failures := if boot.bootType == Python then 15 else 10;
            if spec.health.None? || spec.health == Some("") then c.liveness.None? && c.readiness.None?
            else
              && ProbedOn(c.liveness, spec.health.value, port, failures, 120)
              && (spec.readiness.None? || spec.readiness == Some("") ==>
                    ProbedOn(c.readiness, spec.health.value, port, failures, 60))
              && (spec.readiness.Some? && spec.readiness != Some("") ==>
                    ProbedOn(c.readiness, spec.readiness.value, port, failures, 60))
  {
    AppProbes(boot, cfg);
    W.BuiltTemplate(boot, cfg);
  }

  lemma AppProbes(boot: Boot, cfg: Config)
    requires OverridesWellFormed(cfg)
    ensures var c, checked := NewAppContainer(boot, cfg), HealthOf(boot.spec) != "";
            && c.liveness == (if checked then Some(LivenessProbe(boot, cfg)) else None)
            && c.readiness == (if checked then Some(ReadinessProbe(boot, cfg)) else None)
  {
  }

  /** The app container is called so, and of the annotations of the boot only a restart stamp reaches the
      pods. */
  lemma PodsAreNamed(boot: Boot, cfg: Config)
    requires OverridesWellFormed(cfg)
    ensures var t := StoredTemplate(NewTemplate(boot, cfg));
            && t.containers[0].name == "app"
            && forall k :: k in t.annotations <==> k == RestartedAt && RestartedAt in boot.annotations
  {
    W.BuiltTemplate(boot, cfg);
  }

  /** What the configuration sets on the app container wins, whatever the boot says; what it leaves open is
      the boot's. */
  lemma ConfiguredContainerWins(boot: Boot, cfg: Config)
    requires cfg.container.Some?
    ensures var from, c, spec := cfg.container.value, NewAppContainer(boot, cfg), boot.spec;
            && c.image == (if from.image == "" then ImageName(spec, cfg) else from.image)
            && c.ports == (if from.ports == [] then [ContainerPort("http", spec.port, "")] else from.ports)
            && (from.command != [] ==> c.command == Some(from.command))
            && (from.command == [] ==> Elements(c.command) == Elements(spec.command))
            && (from.liveness.Some? ==> c.liveness == from.liveness)
            && (from.readiness.Some? ==> c.readiness == from.readiness)
            && Elements(c.env) == Merge(Elements(spec.env), from.env, true)
  {
  }

  lemma ConfiguredQuantitiesWin(boot: Boot, cfg: Config, name: ResourceName)
    requires cfg.container.Some?
    ensures var from, c, spec := cfg.container.value, NewAppContainer(boot, cfg), boot.spec;
            && Quantity(c.limits, name)
               == (if name in from.limits then from.limits[name] else Quantity(spec.limits, name))
            && Quantity(c.requests, name)
               == (if name in from.requests then from.requests[name] else Quantity(spec.requests, name))
  {
    MergedQuantity(boot.spec.limits, cfg.container.value.limits, name);
    MergedQuantity(boot.spec.requests, cfg.container.value.requests, name);
  }

  lemma MergedQuantity(own: Option<Quantities>, from: Quantities, name: ResourceName)
    ensures Quantity(MergeMap(own, from), name) == if name in from then from[name] else Quantity(own, name)
  {
  }

  /** The same for the pod: configured containers, priority and selector entries win, and configured volumes
      come first, with decoded names. */
  lemma ConfiguredPodWins(boot: Boot, cfg: Config, key: string, i: nat)
    requires cfg.podSpec.Some?
    ensures var from, t, spec := cfg.podSpec.value, NewTemplate(boot, cfg), boot.spec;
            && (from.containers != [] ==> t.containers == from.containers)
            && t.priority == (if from.priority == "" then spec.priority else from.priority)
            && (key in from.nodeSelector ==>
                  t.nodeSelector.Some? && key in t.nodeSelector.value
                  && t.nodeSelector.value[key] == from.nodeSelector[key])
            && |t.volumes| == |from.volumes| + |Elements(spec.pvc)|
            && (i < |from.volumes| ==> t.volumes[i] == DecodeVolume(BootValues(boot, cfg), from.volumes[i]))
  {
  }

  /** The configured sidecars follow the app container in order, with decoded environments and nothing
      else changed. */
  lemma SidecarsAreBuilt(boot: Boot, cfg: Config, i: nat)
    requires OverridesWellFormed(cfg) && i < |cfg.sidecars|
    ensures var t, was := NewTemplate(boot, cfg), cfg.sidecars[i];
            && |t.containers| == 1 + |cfg.sidecars|
            && t.containers[1 + i].(env := was.env) == was
            && Elements(t.containers[1 + i].env) == DecodeAll(BootValues(boot, cfg), Elements(was.env))
  {
    assert NewTemplate(boot, cfg).containers == [NewAppContainer(boot, cfg)] + NewSidecars(boot, cfg);
    assert NewTemplate(boot, cfg).containers[1 + i] == NewSidecar(boot, cfg, cfg.sidecars[i]);
    assert DecodeAll(BootValues(boot, cfg), []) == [];
  }

  // --------------------------------------------------------------------------
  // The services.

  /** The service called `name` forwards `port` to the same port of the pods. */
  predicate Forwards(e: Service, name: string, port: int, kind: ServiceType) {
    && e.name == name && e.kind == kind && e.owned
    && e.ports == [ServicePort("http", port, PortNumber(port), 0)]
  }

  /** Sessions stick to a pod as the boot says, or not at all. */
  predicate SticksAs(e: Service, boot: Boot) {
    e.affinity == if boot.spec.sessionAffinity == "" then "None" else boot.spec.sessionAffinity
  }

  /** Prometheus is told to scrape this port, or nothing. */
  predicate ScrapedOn(e: Service, port: int, scraped: bool) {
    if scraped then
      e.annotations == Some(map[PrometheusPath := "/prometheus", PrometheusPort := Itoa(port),
                                PrometheusScheme := "http", PrometheusScrape := "true"])
    else e.annotations.None?
  }

  predicate IsPortService(e: Service, boot: Boot, p: ContainerPort) {
    Forwards(e, boot.name + "-" + p.name, p.port, ClusterIP) && ScrapedOn(e, p.port, true) && SticksAs(e, boot)
  }

  predicate IsAppService(e: Service, boot: Boot, cfg: Config) {
    && Forwards(e, boot.name, boot.spec.port, ClusterIP) && SticksAs(e, boot)
    && ScrapedOn(e, boot.spec.port, if boot.spec.prometheus != "" then ParseBool(boot.spec.prometheus)
                                    else cfg.prometheusScrape == Some(true))
  }

  predicate IsExternalService(e: Service, boot: Boot) {
    && Forwards(e, boot.name + "-external", boot.spec.port, NodePort) && SticksAs(e, boot)
    && ScrapedOn(e, boot.spec.port, false)
  }

  /** An external service is wanted, and this is the environment for it. */
  predicate WantsExternal(boot: Boot, cfg: Config) {
    boot.spec.nodePort == "true" && cfg.operEnv == "dev"
  }

  /** The ports of all sidecars, in order. */
  function AllPorts(sidecars: seq<Container>): seq<ContainerPort> {
    if sidecars == [] then [] else sidecars[0].ports + AllPorts(sidecars[1..])
  }

  lemma {:induction false} PortsInOrder(boot: Boot, cfg: Config, ports: seq<ContainerPort>)
    ensures var services := PortServices(boot, cfg, ports);
            |services| == |ports| && forall i :: 0 <= i < |ports| ==> IsPortService(services[i], boot, ports[i])
  {
    if ports != [] { PortsInOrder(boot, cfg, ports[1..]); }
  }

  lemma {:induction false} SidecarsInOrder(boot: Boot, cfg: Config, sidecars: seq<Container>)
    ensures var services, ports := SidecarServices(boot, cfg, sidecars), AllPorts(sidecars);
            |services| == |ports| && forall i :: 0 <= i < |ports| ==> IsPortService(services[i], boot, ports[i])
  {
    if sidecars != [] {
      PortsInOrder(boot, cfg, sidecars[0].ports);
      SidecarsInOrder(boot, cfg, sidecars[1..]);
    }
  }

  /** Main result: the services are the app service, then in the dev environment the external one if the
      boot wants it, then one for each port of each sidecar, and no others. */
  lemma ServicesAreComplete(boot: Boot, cfg: Config, sidecars: seq<Container>)
    requires ScrapeKnown(boot.spec, cfg)
    ensures var services, ports := NewServices(boot, cfg, sidecars), AllPorts(sidecars);
            var own := if WantsExternal(boot, cfg) then 2 else 1;
            && |services| == own + |ports|
            && IsAppService(services[0], boot, cfg)
            && (WantsExternal(boot, cfg) ==> IsExternalService(services[1], boot))
            && forall i :: 0 <= i < |ports| ==> IsPortService(services[own + i], boot, ports[i])
  {
    var services, more := NewServices(boot, cfg, sidecars), SidecarServices(boot, cfg, sidecars);
    var own := if WantsExternal(boot, cfg) then 2 else 1;
    OwnServices(boot, cfg);
    SidecarsInOrder(boot, cfg, sidecars);
    assert services[0] == AppService(boot, cfg);
    forall i | 0 <= i < |more|
      ensures services[own + i] == more[i]
    {
    }
  }

  lemma OwnServices(boot: Boot, cfg: Config)
    requires ScrapeKnown(boot.spec, cfg)
    ensures IsAppService(AppService(boot, cfg), boot, cfg)
    ensures OtherServices(boot, cfg, [])
            == if WantsExternal(boot, cfg)
               then [NewService(boot, cfg, boot.spec.port, boot.name + "-external", false, NodePort)] else []
    ensures IsExternalService(NewService(boot, cfg, boot.spec.port, boot.name + "-external", false, NodePort), boot)
  {
  }

  /** A service is listed for a boot by two of its labels; others do not matter. */
  lemma ListedByLabels(s: Service, boot: Boot, cfg: Config)
    ensures Selected(s, boot, cfg)
            <==> && "app" in s.labels && s.labels["app"] == boot.name
                 && "logan/env" in s.labels && s.labels["logan/env"] == cfg.operEnv
  {
    assert "app" in ServiceLabels(boot, cfg) && "logan/env" in ServiceLabels(boot, cfg);
  }

  lemma {:induction false} PortServicesSelected(boot: Boot, cfg: Config, ports: seq<ContainerPort>, i: nat)
    requires i < |PortServices(boot, cfg, ports)|
    ensures PortServices(boot, cfg, ports)[i].labels == ServiceLabels(boot, cfg)
  {
    if i > 0 { PortServicesSelected(boot, cfg, ports[1..], i - 1); }
  }

  lemma {:induction false} SidecarServicesSelected(boot: Boot, cfg: Config, sidecars: seq<Container>, i: nat)
    requires i < |SidecarServices(boot, cfg, sidecars)|
    ensures SidecarServices(boot, cfg, sidecars)[i].labels == ServiceLabels(boot, cfg)
  {
    var n := |PortServices(boot, cfg, sidecars[0].ports)|;
    if i < n { PortServicesSelected(boot, cfg, sidecars[0].ports, i); }
    else { SidecarServicesSelected(boot, cfg, sidecars[1..], i - n); }
  }

  /** A built service is listed for the boots of its name in its environment, and for no others. */
  lemma ServicesAreListedExactly(boot: Boot, cfg: Config, sidecars: seq<Container>, i: nat, other: Boot, with: Config)
    requires ScrapeKnown(boot.spec, cfg) && i < |NewServices(boot, cfg, sidecars)|
    ensures Selected(NewServices(boot, cfg, sidecars)[i], other, with)
            <==> other.name == boot.name && with.operEnv == cfg.operEnv
  {
    var all, more := NewServices(boot, cfg, sidecars), SidecarServices(boot, cfg, sidecars);
    var j := i - (|all| - |more|);
    if j >= 0 {
      SidecarServicesSelected(boot, cfg, sidecars, j);
      assert all[i] == more[j];
    }
    assert all[i].labels == ServiceLabels(boot, cfg);
    ListedByLabels(all[i], boot, cfg);
    ListedByLabels(all[i], other, with);
  }
}
