/** The services of a boot: what the operator expects (pkg/logan/operator/boot_handler.go) and how
    one pass repairs what it finds (pkg/logan/operator/boot_handler_controller.go). */
module Services {
  import opened Wrappers
  import opened Strconv
  import opened Types
  import opened BootOps

  datatype TargetPort = PortNumber(number: int) | PortName(name: string)

  datatype ServicePort = ServicePort(name: string, port: int, target: TargetPort, nodePort: int)

  datatype ServiceType = ClusterIP | NodePort | OtherType(text: string)

  datatype PrometheusKey =
    | PrometheusPath | PrometheusPort | PrometheusScheme | PrometheusScrape | OtherPrometheus(text: string)

  type ServiceAnnotations = Option<map<PrometheusKey, string>>

  datatype Service = Service(
    name: string,
    labels: Labels,
    annotations: ServiceAnnotations,
    owned: bool,
    ports: seq<ServicePort>,
    kind: ServiceType,
    affinity: string,
    selector: Labels)

  // --------------------------------------------------------------------------
  // Expected services.

  function ScrapeAnnotations(scrape: bool, port: int): ServiceAnnotations {
    if scrape then
      Some(map[PrometheusPath := "/prometheus", PrometheusPort := Itoa(port),
               PrometheusScheme := "http", PrometheusScrape := "true"])
    else None
  }

  function NewService(boot: Boot, cfg: Config, port: int, name: string, scrape: bool, kind: ServiceType): Service {
    Service(name, ServiceLabels(boot, cfg), ScrapeAnnotations(scrape, port), true,
            [ServicePort("http", port, PortNumber(port), 0)], kind,
            if boot.spec.sessionAffinity != "" then boot.spec.sessionAffinity else "None", PodLabels(boot))
  }

  predicate ScrapeKnown(spec: BootSpec, cfg: Config) {
    spec.prometheus != "" || cfg.prometheusScrape.Some?
  }

  function PortServices(boot: Boot, cfg: Config, ports: seq<ContainerPort>): seq<Service> {
    if ports == [] then []
    else
      [NewService(boot, cfg, ports[0].port, boot.name + "-" + ports[0].name, true, ClusterIP)]
      + PortServices(boot, cfg, ports[1..])
  }

  function SidecarServices(boot: Boot, cfg: Config, sidecars: seq<Container>): seq<Service> {
    if sidecars == [] then []
    else PortServices(boot, cfg, sidecars[0].ports) + SidecarServices(boot, cfg, sidecars[1..])
  }

  function AppService(boot: Boot, cfg: Config): Service
    requires ScrapeKnown(boot.spec, cfg)
  {
    NewService(boot, cfg, boot.spec.port, boot.name, AllowScrape(boot.spec, cfg), ClusterIP)
  }

  /** The services next to the app service: the external one, only in the dev environment, and one
      for each port of each sidecar of the pod template. */
  function OtherServices(boot: Boot, cfg: Config, sidecars: seq<Container>): seq<Service> {
    (if boot.spec.nodePort == "true" && cfg.operEnv == "dev"
     then [NewService(boot, cfg, boot.spec.port, boot.name + "-external", false, NodePort)] else [])
    + SidecarServices(boot, cfg, sidecars)
  }

  function NewServices(boot: Boot, cfg: Config, sidecars: seq<Container>): seq<Service>
    requires ScrapeKnown(boot.spec, cfg)
  {
    [AppService(boot, cfg)] + OtherServices(boot, cfg, sidecars)
  }

  // --------------------------------------------------------------------------
  // Storing.

  type AllocatedPort = p: int | p > 0 witness 30000

  /** The node port the API server gives to a port of a service. */
  type Allocator = (string, nat) -> AllocatedPort

  function StoredServicePorts(s: Service, alloc: Allocator): (ports: seq<ServicePort>)
    ensures |ports| == |s.ports|
  {
    seq(|s.ports|, i requires 0 <= i < |s.ports| =>
      if s.kind == NodePort && s.ports[i].nodePort == 0 then s.ports[i].(nodePort := alloc(s.name, i)) else s.ports[i])
  }

  function StoredService(s: Service, alloc: Allocator): Service {
    s.(ports := StoredServicePorts(s, alloc),
       affinity := if s.affinity == "" then "None" else s.affinity,
       annotations := DropEmpty(s.annotations))
  }

  function DropEmpty(annotations: ServiceAnnotations): ServiceAnnotations {
    if annotations.Some? && annotations.value == map[] then None else annotations
  }

  /** As the API server returns it. */
  predicate IsStored(s: Service) {
    && |s.ports| > 0
    && s.affinity != ""
    && s.annotations == DropEmpty(s.annotations)
    && (s.kind == NodePort ==> forall i :: 0 <= i < |s.ports| ==> s.ports[i].nodePort != 0)
  }

  // --------------------------------------------------------------------------
  // Repairing one service.

  datatype Fixed = Fixed(service: Service, modified: bool)

  function PortText(annotations: map<PrometheusKey, string>): string {
    if PrometheusPort in annotations then annotations[PrometheusPort] else ""
  }

  function AppPorts(ports: seq<ServicePort>, port: int): seq<ServicePort>
    requires |ports| > 0
  {
    if ports[0].port != port then ports[0 := ports[0].(port := port, target := PortNumber(port))] else ports
  }

  datatype FixedAnnotations = FixedAnnotations(annotations: ServiceAnnotations, modified: bool)

  function AppAnnotations(annotations: ServiceAnnotations, port: int, scrape: bool): FixedAnnotations {
    var added := annotations.None? && scrape;
    var annotations1 := if added then ScrapeAnnotations(true, port) else annotations;
    var moved := annotations1.Some? && PortText(annotations1.value) != Itoa(port);
    var annotations2 := if moved then Some(annotations1.value[PrometheusPort := Itoa(port)]) else annotations1;
    var dropped := annotations2.Some? && !scrape;
    FixedAnnotations(if dropped then None else annotations2, added || moved || dropped)
  }

  /** An unset affinity and "None" are the same, as the API server stores the former as the latter. */
  predicate AffinityDiffers(affinity: string, wanted: string) {
    if affinity == "None" || affinity == "" then wanted != "None" && wanted != "" else affinity != wanted
  }

  /** The app service against the boot. */
  function FixApp(s: Service, boot: Boot, cfg: Config): Fixed
    requires |s.ports| > 0 && ScrapeKnown(boot.spec, cfg)
  {
    var wanted := boot.spec.sessionAffinity;
    var fixed := AppAnnotations(s.annotations, boot.spec.port, AllowScrape(boot.spec, cfg));
    var sticks := AffinityDiffers(s.affinity, wanted);
    Fixed(s.(owned := true, ports := AppPorts(s.ports, boot.spec.port), annotations := fixed.annotations,
             affinity := if sticks then wanted else s.affinity),
          !s.owned || s.ports[0].port != boot.spec.port || fixed.modified || sticks)
  }

  predicate SharesPorts(r: Service, e: Service)
    requires |r.ports| > 0 && |e.ports| > 0
  {
    r.ports[0].name != e.ports[0].name || r.ports[0].target != e.ports[0].target
  }

  predicate Exposes(r: Service)
    requires |r.ports| > 0
  {
    r.kind == NodePort && r.ports[0].nodePort != r.ports[0].port
  }

  predicate Repoints(r: Service, e: Service)
    requires |r.ports| > 0 && |e.ports| > 0
  {
    r.kind == ClusterIP && r.ports[0].port != e.ports[0].port
  }

  function FixPorts(r: Service, e: Service): seq<ServicePort>
    requires |r.ports| > 0 && |e.ports| > 0
  {
    var ports1 := if SharesPorts(r, e) then e.ports else r.ports;
    var ports2 := if Repoints(r, e) then ports1[0 := ports1[0].(port := e.ports[0].port)] else ports1;
    var np := r.ports[0].nodePort;
    if Exposes(r) then ports2[0 := ports2[0].(port := np, nodePort := np)] else ports2
  }

  /** When the port list of the expected service replaces that of the runtime service, both objects
      share it; a node port written afterwards is then also the port the annotation is compared with. */
  function SeenPort(r: Service, e: Service): int
    requires |r.ports| > 0 && |e.ports| > 0
  {
    if SharesPorts(r, e) && Exposes(r) then r.ports[0].nodePort else e.ports[0].port
  }

  /** A runtime service against the expected one of the same name. */
  function FixOther(r: Service, e: Service): Fixed
    requires |r.ports| > 0 && |e.ports| > 0
  {
    var added := r.annotations.None? && e.annotations.Some?;
    var annotations1 := if added then e.annotations else r.annotations;
    var moved := annotations1.Some? && PortText(annotations1.value) != Itoa(SeenPort(r, e));
    Fixed(r.(ports := FixPorts(r, e), owned := r.owned || e.owned, affinity := e.affinity,
             annotations := if moved then e.annotations else annotations1),
          SharesPorts(r, e) || Repoints(r, e) || Exposes(r) || r.affinity != e.affinity || added || moved)
  }

  /** A service object with its port list on the heap. */
  class ServiceObject {
    var name: string
    var labels: Labels
    var annotations: ServiceAnnotations
    var owned: bool
    var ports: array<ServicePort>
    var kind: ServiceType
    var affinity: string
    var selector: Labels

    constructor (s: Service)
      ensures fresh(ports) && Value() == s
    {
      name, labels, annotations, owned := s.name, s.labels, s.annotations, s.owned;
      kind, affinity, selector := s.kind, s.affinity, s.selector;
      ports := new ServicePort[|s.ports|](i requires 0 <= i < |s.ports| => s.ports[i]);
      new;
      assert ports[..] == s.ports;
    }

    ghost function Value(): Service
      reads this, ports
    {
      Service(name, labels, annotations, owned, ports[..], kind, affinity, selector)
    }

    method Read() returns (s: Service)
      ensures s == Value()
    {
      s := Service(name, labels, annotations, owned, ports[..], kind, affinity, selector);
    }

    method AlignAppAnnotations(bootPort: int, scrape: bool) returns (updated: bool)
      modifies this`annotations
      ensures FixedAnnotations(annotations, updated) == AppAnnotations(old(annotations), bootPort, scrape)
    {
      updated := false;
      if annotations.None? && scrape {
        annotations := ScrapeAnnotations(scrape, bootPort);
        updated := true;
      }
      if annotations.Some? {
        if PortText(annotations.value) != Itoa(bootPort) {
          annotations := Some(annotations.value[PrometheusPort := Itoa(bootPort)]);
          updated := true;
        }
      }
      if annotations.Some? && !scrape {
        annotations := ScrapeAnnotations(scrape, bootPort);
        updated := true;
      }
    }

    /** Brings the app service in line with the boot. */
    method AlignApp(boot: Boot, cfg: Config) returns (updated: bool)
      requires ports.Length > 0 && ScrapeKnown(boot.spec, cfg)
      modifies this, ports
      ensures Fixed(Value(), updated) == FixApp(old(Value()), boot, cfg)
    {
      updated := false;
      if !owned {
        owned := true;
        updated := true;
      }
      if ports[0].port != boot.spec.port {
        ports[0] := ports[0].(port := boot.spec.port, target := PortNumber(boot.spec.port));
        updated := true;
      }
      assert ports[..] == AppPorts(old(ports[..]), boot.spec.port);
      var annotated := AlignAppAnnotations(boot.spec.port, AllowScrape(boot.spec, cfg));
      var wanted := boot.spec.sessionAffinity;
      if affinity == "None" || affinity == "" {
        if wanted != "None" && wanted != "" {
          affinity := wanted;
          updated := true;
        }
      } else if affinity != wanted {
        affinity := wanted;
        updated := true;
      }
      updated := updated || annotated;
    }

    /** The port checks. The runtime service may take over the port list of the expected one, and
        what is written to it then shows in both. */
    method AlignPorts(e: ServiceObject) returns (modified: bool)
      requires this != e && ports != e.ports && ports.Length > 0 && e.ports.Length > 0
      modifies this`ports, ports, e.ports
      ensures ports.Length > 0 && e.ports == old(e.ports)
      ensures ports[..] == FixPorts(old(Value()), old(e.Value()))
      ensures e.ports[0].port == SeenPort(old(Value()), old(e.Value()))
      ensures var r, x := old(Value()), old(e.Value()); modified == (SharesPorts(r, x) || Repoints(r, x) || Exposes(r))
    {
      modified := false;
      var runtimePort, expectPort := ports[0], e.ports[0];
      if runtimePort.name != expectPort.name || runtimePort.target != expectPort.target {
        modified := true;
        ports := e.ports;
      }
      if kind == ClusterIP && runtimePort.port != expectPort.port {
        modified := true;
        ports[0] := ports[0].(port := expectPort.port);
      }
      if kind == NodePort && runtimePort.nodePort != runtimePort.port {
        modified := true;
        ports[0] := ports[0].(port := runtimePort.nodePort);
        ports[0] := ports[0].(nodePort := runtimePort.nodePort);
      }
    }

    /** Brings this runtime service in line with an expected one. */
    method AlignWith(e: ServiceObject) returns (modified: bool)
      requires this != e && ports != e.ports && ports.Length > 0 && e.ports.Length > 0
      modifies this, ports, e.ports
      ensures Fixed(Value(), modified) == FixOther(old(Value()), old(e.Value()))
    {
      modified := AlignPorts(e);
      if !owned {
        owned := e.owned;
      }
      if affinity != e.affinity {
        modified := true;
        affinity := e.affinity;
      }
      if annotations.None? && e.annotations.Some? {
        modified := true;
        annotations := e.annotations;
      }
      if annotations.Some? {
        if PortText(annotations.value) != Itoa(e.ports[0].port) {
          annotations := e.annotations;
          modified := true;
        }
      }
    }
  }

  // --------------------------------------------------------------------------
  // The pass over all services of the boot.

  type ServiceMap = map<string, Service>

  predicate Selected(s: Service, boot: Boot, cfg: Config) {
    forall k :: k in ServiceLabels(boot, cfg) ==> k in s.labels && s.labels[k] == ServiceLabels(boot, cfg)[k]
  }

  /** A service found by the labels of the boot, other than its app service. */
  predicate IsOther(s: Service, boot: Boot, cfg: Config) {
    Selected(s, boot, cfg) && s.name != boot.name
  }

  function IndexByName(list: seq<Service>, name: string): (i: nat)
    ensures i <= |list|
    ensures i < |list| ==> list[i].name == name
    ensures forall j :: 0 <= j < i ==> list[j].name != name
  {
    if list == [] || list[0].name == name then 0 else 1 + IndexByName(list[1..], name)
  }

  predicate Expects(list: seq<Service>, name: string) {
    IndexByName(list, name) < |list|
  }

  function ExpectedOf(list: seq<Service>, name: string): Service
    requires Expects(list, name)
  {
    list[IndexByName(list, name)]
  }

  ghost predicate DistinctNames(list: seq<Service>) {
    forall i, j :: 0 <= i < j < |list| ==> list[i].name != list[j].name
  }

  function NamesOf(list: seq<Service>): set<string> {
    set i | 0 <= i < |list| :: list[i].name
  }

  /** Every stored service is filed under its name. */
  ghost predicate WellStored(services: ServiceMap) {
    forall name :: name in services ==> services[name].name == name && IsStored(services[name])
  }

  /** Whether the pass keeps, drops or creates the service called `name`. */
  predicate Stays(services: ServiceMap, name: string, boot: Boot, cfg: Config, expected: seq<Service>) {
    if name in services && !IsOther(services[name], boot, cfg) then true else Expects(expected, name)
  }

  function Passed(services: ServiceMap, name: string, boot: Boot, cfg: Config, expected: seq<Service>,
                  alloc: Allocator): Service
    requires name in services || Expects(expected, name)
    requires name in services ==> |services[name].ports| > 0
    requires Stays(services, name, boot, cfg, expected)
    requires Expects(expected, name) ==> |ExpectedOf(expected, name).ports| > 0
  {
    if name !in services then StoredService(ExpectedOf(expected, name), alloc)
    else if !IsOther(services[name], boot, cfg) then services[name]
    else
      var fixed := FixOther(services[name], ExpectedOf(expected, name));
      if fixed.modified then StoredService(fixed.service, alloc) else services[name]
  }

  /** The services after one pass, with the names of `expected` other than the app service's. */
  function Pass(services: ServiceMap, boot: Boot, cfg: Config, expected: seq<Service>, alloc: Allocator): ServiceMap
    requires forall name :: name in services ==> |services[name].ports| > 0
    requires forall i :: 0 <= i < |expected| ==> |expected[i].ports| > 0
  {
    map name | name in services.Keys + NamesOf(expected) && Stays(services, name, boot, cfg, expected)
      :: Passed(services, name, boot, cfg, expected, alloc)
  }

  /** The pass deletes, updates or creates a service. */
  ghost predicate PassWrites(services: ServiceMap, boot: Boot, cfg: Config, expected: seq<Service>)
    requires forall name :: name in services ==> |services[name].ports| > 0
    requires forall i :: 0 <= i < |expected| ==> |expected[i].ports| > 0
  {
    || (exists name :: name in services && Repairs(services, name, boot, cfg, expected))
    || (exists i :: 0 <= i < |expected| && expected[i].name !in services)
  }

  predicate Repairs(services: ServiceMap, name: string, boot: Boot, cfg: Config, expected: seq<Service>)
    requires name in services && |services[name].ports| > 0
    requires forall i :: 0 <= i < |expected| ==> |expected[i].ports| > 0
  {
    IsOther(services[name], boot, cfg)
    && (!Expects(expected, name) || FixOther(services[name], ExpectedOf(expected, name)).modified)
  }

  /** No expected service is hidden behind a service that carries other labels. */
  ghost predicate NoForeignHolder(services: ServiceMap, boot: Boot, cfg: Config, expected: seq<Service>) {
    forall i :: 0 <= i < |expected| && expected[i].name != boot.name && expected[i].name in services ==>
      Selected(services[expected[i].name], boot, cfg)
  }

  lemma ExpectedAt(expected: seq<Service>, i: nat)
    requires DistinctNames(expected) && i < |expected|
    ensures Expects(expected, expected[i].name) && ExpectedOf(expected, expected[i].name) == expected[i]
  {
  }

  /** Creating a list of services, which stops at the first name that is taken. */
  function CreateAll(services: ServiceMap, list: seq<Service>, alloc: Allocator): ServiceMap
    decreases |list|
  {
    if list == [] || list[0].name in services then services
    else CreateAll(services[list[0].name := StoredService(list[0], alloc)], list[1..], alloc)
  }

  // --------------------------------------------------------------------------
  // The pass taken one service at a time.

  /** The services after the runtime services of `done` were handled. */
  function PassOver(start: ServiceMap, done: set<string>, boot: Boot, cfg: Config, expected: seq<Service>,
                    alloc: Allocator): ServiceMap
    requires forall name :: name in start ==> |start[name].ports| > 0
    requires forall i :: 0 <= i < |expected| ==> |expected[i].ports| > 0
  {
    map name | name in start && (name in done ==> Stays(start, name, boot, cfg, expected))
      :: if name in done then Passed(start, name, boot, cfg, expected, alloc) else start[name]
  }

  /** The services after the first `n` expected ones were looked at by the creating loop. */
  function CreateOver(base: ServiceMap, start: ServiceMap, expected: seq<Service>, n: nat, alloc: Allocator): ServiceMap
    requires n <= |expected|
  {
    if n == 0 then base
    else
      var before, e := CreateOver(base, start, expected, n - 1, alloc), expected[n - 1];
      if e.name in start then before else before[e.name := StoredService(e, alloc)]
  }

  lemma IndexIs(expected: seq<Service>, name: string, i: nat)
    requires DistinctNames(expected) && i < |expected|
    ensures IndexByName(expected, name) == i <==> expected[i].name == name
  {
  }

  lemma {:induction false} CreateOverAt(base: ServiceMap, start: ServiceMap, expected: seq<Service>, n: nat,
                                        alloc: Allocator, name: string)
    requires n <= |expected| && DistinctNames(expected)
    ensures var m := CreateOver(base, start, expected, n, alloc);
            if name !in start && IndexByName(expected, name) < n
            then name in m && m[name] == StoredService(ExpectedOf(expected, name), alloc)
            else (name in m <==> name in base) && (name in base ==> m[name] == base[name])
  {
    if n > 0 {
      CreateOverAt(base, start, expected, n - 1, alloc, name);
      IndexIs(expected, name, n - 1);
      var before, m := CreateOver(base, start, expected, n - 1, alloc), CreateOver(base, start, expected, n, alloc);
      var e := expected[n - 1];
      assert m == if e.name in start then before else before[e.name := StoredService(e, alloc)];
    }
  }

  lemma NameIsExpected(expected: seq<Service>, name: string)
    ensures name in NamesOf(expected) <==> Expects(expected, name)
  {
  }

  /** Handling all found services and then creating the missing ones is the whole pass. */
  lemma PassInSteps(start: ServiceMap, listed: set<string>, boot: Boot, cfg: Config, expected: seq<Service>,
                    alloc: Allocator)
    requires WellStored(start) && DistinctNames(expected)
    requires forall i :: 0 <= i < |expected| ==> |expected[i].ports| > 0
    requires listed == ListedOthers(start, boot, cfg)
    ensures CreateOver(PassOver(start, listed, boot, cfg, expected, alloc), start, expected, |expected|, alloc)
            == Pass(start, boot, cfg, expected, alloc)
  {
    var base := PassOver(start, listed, boot, cfg, expected, alloc);
    var steps, whole := CreateOver(base, start, expected, |expected|, alloc), Pass(start, boot, cfg, expected, alloc);
    forall name
      ensures name in steps <==> name in whole
      ensures name in steps ==> steps[name] == whole[name]
    {
      CreateOverAt(base, start, expected, |expected|, alloc, name);
      NameIsExpected(expected, name);
    }
  }

  lemma OneMore(start: ServiceMap, done: set<string>, name: string, boot: Boot, cfg: Config, expected: seq<Service>,
                alloc: Allocator)
    requires WellStored(start)
    requires forall i :: 0 <= i < |expected| ==> |expected[i].ports| > 0
    requires name in start && name !in done && IsOther(start[name], boot, cfg)
    ensures var before := PassOver(start, done, boot, cfg, expected, alloc);
            var after := PassOver(start, done + {name}, boot, cfg, expected, alloc);
            name in before && before[name] == start[name]
            && after == if !Expects(expected, name) then before - {name}
                        else before[name := Passed(start, name, boot, cfg, expected, alloc)]
  {
  }

  /** The first expected service whose name is held by a service with other labels. */
  function FirstForeign(start: ServiceMap, boot: Boot, cfg: Config, expected: seq<Service>): (n: nat)
    ensures n <= |expected|
    ensures forall k :: 0 <= k < n && expected[k].name != boot.name && expected[k].name in start ==>
              Selected(start[expected[k].name], boot, cfg)
    ensures n < |expected| ==> expected[n].name != boot.name && expected[n].name in start
                               && !Selected(start[expected[n].name], boot, cfg)
  {
    if expected == [] then 0
    else if expected[0].name != boot.name && expected[0].name in start
            && !Selected(start[expected[0].name], boot, cfg) then 0
    else 1 + FirstForeign(start, boot, cfg, expected[1..])
  }

  /** The names of the services of the boot other than its app service. */
  function ListedOthers(services: ServiceMap, boot: Boot, cfg: Config): set<string> {
    set name | name in services && IsOther(services[name], boot, cfg)
  }

  /** The services a pass leaves when a creation fails: everything found was handled, the expected
      services before the failing one were created. */
  function FailedPass(start: ServiceMap, boot: Boot, cfg: Config, expected: seq<Service>, alloc: Allocator): ServiceMap
    requires forall name :: name in start ==> |start[name].ports| > 0
    requires forall i :: 0 <= i < |expected| ==> |expected[i].ports| > 0
  {
    CreateOver(PassOver(start, ListedOthers(start, boot, cfg), boot, cfg, expected, alloc), start, expected,
               FirstForeign(start, boot, cfg, expected), alloc)
  }

  /** One of the services called by `names` is updated or deleted. */
  ghost predicate SomeRepair(start: ServiceMap, names: set<string>, boot: Boot, cfg: Config, expected: seq<Service>)
    requires WellStored(start) && names <= start.Keys
    requires forall i :: 0 <= i < |expected| ==> |expected[i].ports| > 0
  {
    exists n :: n in names && Repairs(start, n, boot, cfg, expected)
  }

  /** The pass wrote something before a creation failed. */
  ghost predicate FailedPassWrites(start: ServiceMap, boot: Boot, cfg: Config, expected: seq<Service>)
    requires WellStored(start)
    requires forall i :: 0 <= i < |expected| ==> |expected[i].ports| > 0
  {
    || SomeRepair(start, ListedOthers(start, boot, cfg), boot, cfg, expected)
    || SomeAbsent(start, expected, FirstForeign(start, boot, cfg, expected))
  }

  /** One of the first `n` expected services does not exist. */
  ghost predicate SomeAbsent(start: ServiceMap, expected: seq<Service>, n: nat)
    requires n <= |expected|
  {
    exists k :: 0 <= k < n && expected[k].name !in start
  }

  /** The first `n` expected names are free or held by services of the boot. */
  ghost predicate HeldByOwn(start: ServiceMap, boot: Boot, cfg: Config, expected: seq<Service>, n: nat)
    requires n <= |expected|
  {
    forall k :: 0 <= k < n && expected[k].name != boot.name && expected[k].name in start ==>
      Selected(start[expected[k].name], boot, cfg)
  }

  lemma OneMoreExpected(start: ServiceMap, boot: Boot, cfg: Config, expected: seq<Service>, i: nat)
    requires i < |expected|
    ensures SomeAbsent(start, expected, i + 1) <==> SomeAbsent(start, expected, i) || expected[i].name !in start
    ensures HeldByOwn(start, boot, cfg, expected, i + 1)
            <==> HeldByOwn(start, boot, cfg, expected, i)
                 && (expected[i].name != boot.name && expected[i].name in start ==>
                       Selected(start[expected[i].name], boot, cfg))
    ensures NoForeignHolder(start, boot, cfg, expected) ==> HeldByOwn(start, boot, cfg, expected, i + 1)
  {
  }

  /** The creating loop at its next expected service: one that is neither the app service nor listed
      exists exactly when its name is held by a service with other labels. */
  lemma CreateHere(start: ServiceMap, listed: set<string>, boot: Boot, cfg: Config, expected: seq<Service>, i: nat,
                   alloc: Allocator)
    requires WellStored(start) && DistinctNames(expected) && i < |expected| && boot.name in start
    requires forall k :: 0 <= k < |expected| ==> |expected[k].ports| > 0
    requires listed == ListedOthers(start, boot, cfg)
    ensures var now := CreateOver(PassOver(start, listed, boot, cfg, expected, alloc), start, expected, i, alloc);
            var name := expected[i].name;
            if name == boot.name || name in listed
            then name in start && (name != boot.name ==> Selected(start[name], boot, cfg))
            else (name in now <==> name in start) && (name in start ==> !Selected(start[name], boot, cfg))
  {
    ExpectedAt(expected, i);
    CreateOverAt(PassOver(start, listed, boot, cfg, expected, alloc), start, expected, i, alloc, expected[i].name);
  }

  /** What the creating loop leaves, and what it reports: it ends behind the last expected service or at
      the first name that is taken. */
  ghost predicate MissingCreated(now: ServiceMap, base: ServiceMap, start: ServiceMap, boot: Boot, cfg: Config,
                                 expected: seq<Service>, alloc: Allocator, updated: bool, before: bool, failed: bool)
  {
    var n := if failed then FirstForeign(start, boot, cfg, expected) else |expected|;
    && failed == !NoForeignHolder(start, boot, cfg, expected)
    && now == CreateOver(base, start, expected, n, alloc)
    && updated == (before || SomeAbsent(start, expected, n))
  }

  lemma AllCreated(now: ServiceMap, base: ServiceMap, start: ServiceMap, boot: Boot, cfg: Config,
                   expected: seq<Service>, alloc: Allocator, updated: bool, before: bool)
    requires HeldByOwn(start, boot, cfg, expected, |expected|)
    requires now == CreateOver(base, start, expected, |expected|, alloc)
    requires updated == (before || SomeAbsent(start, expected, |expected|))
    ensures MissingCreated(now, base, start, boot, cfg, expected, alloc, updated, before, false)
  {
  }

  lemma OneTaken(now: ServiceMap, base: ServiceMap, start: ServiceMap, boot: Boot, cfg: Config,
                 expected: seq<Service>, alloc: Allocator, updated: bool, before: bool, i: nat)
    requires i < |expected| && HeldByOwn(start, boot, cfg, expected, i)
    requires expected[i].name != boot.name && expected[i].name in start && !Selected(start[expected[i].name], boot, cfg)
    requires now == CreateOver(base, start, expected, i, alloc)
    requires updated == (before || SomeAbsent(start, expected, i))
    ensures MissingCreated(now, base, start, boot, cfg, expected, alloc, updated, before, true)
  {
    assert FirstForeign(start, boot, cfg, expected) == i;
  }

  lemma RepairsOneMore(start: ServiceMap, done: set<string>, name: string, boot: Boot, cfg: Config,
                       expected: seq<Service>)
    requires WellStored(start) && done <= start.Keys && name in start
    requires forall i :: 0 <= i < |expected| ==> |expected[i].ports| > 0
    ensures SomeRepair(start, done + {name}, boot, cfg, expected)
            <==> SomeRepair(start, done, boot, cfg, expected) || Repairs(start, name, boot, cfg, expected)
  {
  }

  /** The API server's services of the namespace, and the pass that works on them. */
  class ServiceStore {
    var services: ServiceMap

    constructor (services: ServiceMap)
      ensures this.services == services
    {
      this.services := services;
    }

    /** Creates a list of services; the first one that exists already ends the loop. */
    method CreateServices(list: seq<Service>, alloc: Allocator) returns (stopped: bool)
      modifies this`services
      ensures services == CreateAll(old(services), list, alloc)
    {
      stopped := false;
      var i := 0;
      while i < |list|
        invariant 0 <= i <= |list|
        invariant CreateAll(services, list[i..], alloc) == CreateAll(old(services), list, alloc)
      {
        assert list[i..][1..] == list[i + 1..];
        if list[i].name in services {
          return true;
        }
        services := services[list[i].name := StoredService(list[i], alloc)];
        i := i + 1;
      }
    }

    /** The expected objects stand for the expected values and share nothing. */
    ghost predicate Separate(objects: seq<ServiceObject>, expected: seq<Service>)
      reads objects
    {
      |objects| == |expected| && SeparateSoFar(objects, expected)
    }

    /** The same for the first objects. */
    ghost predicate SeparateSoFar(objects: seq<ServiceObject>, expected: seq<Service>)
      reads objects
    {
      && |objects| <= |expected|
      && (forall i :: 0 <= i < |objects| ==> objects[i].name == expected[i].name && objects[i].ports.Length > 0)
      && (forall i, j :: 0 <= i < j < |objects| ==> objects[i] != objects[j] && objects[i].ports != objects[j].ports)
    }

    /** The expected objects whose names are not in `done` still hold the expected values. */
    ghost predicate StillExpected(objects: seq<ServiceObject>, expected: seq<Service>, done: set<string>)
      reads objects, set i | 0 <= i < |objects| :: objects[i].ports
    {
      Separate(objects, expected)
      && forall i :: 0 <= i < |objects| && expected[i].name !in done ==> objects[i].Value() == expected[i]
    }

    method BuildExpected(expected: seq<Service>) returns (objects: seq<ServiceObject>)
      requires forall i :: 0 <= i < |expected| ==> |expected[i].ports| > 0
      ensures Separate(objects, expected)
      ensures forall i :: 0 <= i < |objects| ==>
                fresh(objects[i]) && fresh(objects[i].ports) && objects[i].Value() == expected[i]
    {
      objects := [];
      for i := 0 to |expected|
        invariant |objects| == i
        invariant SeparateSoFar(objects, expected)
        invariant forall k :: 0 <= k < i ==>
                    fresh(objects[k]) && fresh(objects[k].ports) && objects[k].Value() == expected[k]
      {
        var o := BuildOne(objects, expected);
        objects := objects + [o];
      }
    }

    method BuildOne(objects: seq<ServiceObject>, expected: seq<Service>) returns (o: ServiceObject)
      requires SeparateSoFar(objects, expected) && |objects| < |expected| && |expected[|objects|].ports| > 0
      ensures fresh(o) && fresh(o.ports) && o.Value() == expected[|objects|]
      ensures SeparateSoFar(objects + [o], expected)
    {
      o := new ServiceObject(expected[|objects|]);
      assert forall k :: 0 <= k < |objects| ==> objects[k] != o && objects[k].ports != o.ports;
    }

    method FindExpected(name: string, objects: seq<ServiceObject>, expected: seq<Service>) returns (index: nat)
      requires Separate(objects, expected) && DistinctNames(expected)
      ensures index == IndexByName(expected, name)
    {
      index := |objects|;
      for i := 0 to |objects|
        invariant index == if IndexByName(expected, name) < i then IndexByName(expected, name) else |objects|
      {
        if objects[i].name == name {
          ExpectedAt(expected, i);
          index := i;
        }
      }
    }

    /** The inner loop: one runtime service against all expected ones, of which at most one has its
        name. */
    method AlignWithExpected(item: Service, objects: seq<ServiceObject>, expected: seq<Service>,
                             ghost done: set<string>)
      returns (found: bool, modified: bool, result: Service)
      requires |item.ports| > 0 && DistinctNames(expected)
      requires StillExpected(objects, expected, done) && item.name !in done
      modifies set i | 0 <= i < |objects| && expected[i].name == item.name :: objects[i].ports
      ensures StillExpected(objects, expected, done + {item.name})
      ensures found <==> Expects(expected, item.name)
      ensures found ==> |ExpectedOf(expected, item.name).ports| > 0
                        && Fixed(result, modified) == FixOther(item, ExpectedOf(expected, item.name))
    {
      var index := FindExpected(item.name, objects, expected);
      found, modified, result := index < |objects|, false, item;
      if found {
        modified, result := AlignAt(item, index, objects, expected);
      }
    }

    /** The runtime service against the expected one of its name: only the port list of that one object
        can change with it. */
    method AlignAt(item: Service, index: nat, objects: seq<ServiceObject>, expected: seq<Service>)
      returns (modified: bool, result: Service)
      requires |item.ports| > 0 && Separate(objects, expected) && index < |objects|
      modifies objects[index].ports
      ensures Fixed(result, modified) == FixOther(item, old(objects[index].Value()))
      ensures forall i :: 0 <= i < |objects| && i != index ==> objects[i].Value() == old(objects[i].Value())
      ensures Separate(objects, expected)
    {
      var runtimeSvc := new ServiceObject(item);
      assert forall i :: 0 <= i < |objects| && i != index ==> objects[i].ports != objects[index].ports;
      modified, result := AlignPair(runtimeSvc, objects[index]);
    }

    method AlignPair(r: ServiceObject, e: ServiceObject) returns (modified: bool, result: Service)
      requires r != e && r.ports != e.ports && r.ports.Length > 0 && e.ports.Length > 0
      modifies r, r.ports, e.ports
      ensures Fixed(result, modified) == FixOther(old(r.Value()), old(e.Value()))
    {
      modified := r.AlignWith(e);
      result := r.Read();
    }

    /** The expected objects as they are sent to the API server. */
    method ReadAll(objects: seq<ServiceObject>) returns (values: seq<Service>)
      ensures |values| == |objects|
      ensures forall i :: 0 <= i < |objects| ==> values[i] == objects[i].Value()
    {
      values := [];
      for i := 0 to |objects|
        invariant |values| == i
        invariant forall k :: 0 <= k < i ==> values[k] == objects[k].Value()
      {
        var value := objects[i].Read();
        values := values + [value];
      }
    }

    /** Updates or deletes what is found, then creates what is missing; a name that is taken by a
        service with other labels makes the creation fail. */
    method ReconcileOther(boot: Boot, cfg: Config, expected: seq<Service>, alloc: Allocator)
      returns (updated: bool, failed: bool)
      requires WellStored(services) && DistinctNames(expected) && boot.name in services
      requires forall i :: 0 <= i < |expected| ==> |expected[i].ports| > 0
      modifies this`services
      ensures failed <==> !NoForeignHolder(old(services), boot, cfg, expected)
      ensures !failed ==> services == Pass(old(services), boot, cfg, expected, alloc)
                          && updated == PassWrites(old(services), boot, cfg, expected)
      ensures failed ==> services == FailedPass(old(services), boot, cfg, expected, alloc)
                         && updated == FailedPassWrites(old(services), boot, cfg, expected)
    {
      ghost var start := services;
      var listed := ListedOthers(services, boot, cfg);
      var objects := BuildExpected(expected);
      updated := AlignListed(boot, cfg, expected, alloc, objects, listed);
      var values := ReadAll(objects);
      updated, failed := CreateMissing(boot, cfg, expected, alloc, values, listed, start, updated);
      if !failed {
        PassInSteps(start, listed, boot, cfg, expected, alloc);
        WritesInSteps(start, listed, boot, cfg, expected);
      }
    }

    method AlignListed(boot: Boot, cfg: Config, expected: seq<Service>, alloc: Allocator,
                       objects: seq<ServiceObject>, listed: set<string>)
      returns (updated: bool)
      requires WellStored(services) && DistinctNames(expected)
      requires forall i :: 0 <= i < |expected| ==> |expected[i].ports| > 0
      requires listed == ListedOthers(services, boot, cfg)
      requires StillExpected(objects, expected, {})
      modifies this`services, set i | 0 <= i < |objects| :: objects[i].ports
      ensures services == PassOver(old(services), listed, boot, cfg, expected, alloc)
      ensures updated <==> SomeRepair(old(services), listed, boot, cfg, expected)
      ensures StillExpected(objects, expected, listed)
    {
      ghost var start := services;
      updated := false;
      var todo := listed;
      ghost var done: set<string> := {};
      assert PassOver(start, {}, boot, cfg, expected, alloc) == start;
      while todo != {}
        invariant todo !! done && todo + done == listed
        invariant services == PassOver(start, done, boot, cfg, expected, alloc)
        invariant updated <==> SomeRepair(start, done, boot, cfg, expected)
        invariant StillExpected(objects, expected, done)
      {
        var name :| name in todo;
        assert name !in done;
        RepairsOneMore(start, done, name, boot, cfg, expected);
        var written := AlignOne(name, boot, cfg, expected, alloc, objects, start, done);
        updated := updated || written;
        todo, done := todo - {name}, done + {name};
      }
      assert done == listed;
    }

    /** The body of the outer loop: updates or deletes one runtime service. */
    method AlignOne(name: string, boot: Boot, cfg: Config, expected: seq<Service>, alloc: Allocator,
                    objects: seq<ServiceObject>, ghost start: ServiceMap, ghost done: set<string>)
      returns (written: bool)
      requires WellStored(start) && DistinctNames(expected)
      requires forall i :: 0 <= i < |expected| ==> |expected[i].ports| > 0
      requires name in start && name !in done && IsOther(start[name], boot, cfg)
      requires services == PassOver(start, done, boot, cfg, expected, alloc)
      requires StillExpected(objects, expected, done)
      modifies this`services, set i | 0 <= i < |objects| && expected[i].name == name :: objects[i].ports
      ensures services == PassOver(start, done + {name}, boot, cfg, expected, alloc)
      ensures written <==> Repairs(start, name, boot, cfg, expected)
      ensures StillExpected(objects, expected, done + {name})
    {
      OneMore(start, done, name, boot, cfg, expected, alloc);
      var item := services[name];
      assert item.name == name;
      var found, modified, result := AlignWithExpected(item, objects, expected, done);
      written := FinishOne(name, boot, cfg, expected, alloc, found, modified, result, start, done);
    }

    /** Deletes the runtime service that was not found, or updates the one that was modified. */
    method FinishOne(name: string, boot: Boot, cfg: Config, expected: seq<Service>, alloc: Allocator,
                     found: bool, modified: bool, result: Service, ghost start: ServiceMap, ghost done: set<string>)
      returns (written: bool)
      requires WellStored(start)
      requires forall i :: 0 <= i < |expected| ==> |expected[i].ports| > 0
      requires name in start && name !in done && IsOther(start[name], boot, cfg)
      requires services == PassOver(start, done, boot, cfg, expected, alloc)
      requires found <==> Expects(expected, name)
      requires found ==> Fixed(result, modified) == FixOther(start[name], ExpectedOf(expected, name))
      modifies this`services
      ensures services == PassOver(start, done + {name}, boot, cfg, expected, alloc)
      ensures written <==> Repairs(start, name, boot, cfg, expected)
    {
      OneMore(start, done, name, boot, cfg, expected, alloc);
      written := !found || modified;
      if !found {
        services := services - {name};
      } else if modified {
        services := services[name := StoredService(result, alloc)];
      } else {
        assert services[name := services[name]] == services;
      }
    }

    method CreateMissing(boot: Boot, cfg: Config, expected: seq<Service>, alloc: Allocator,
                         values: seq<Service>, listed: set<string>, ghost start: ServiceMap, before: bool)
      returns (updated: bool, failed: bool)
      requires WellStored(start) && DistinctNames(expected) && boot.name in start
      requires listed == ListedOthers(start, boot, cfg)
      requires forall i :: 0 <= i < |expected| ==> |expected[i].ports| > 0
      requires services == PassOver(start, listed, boot, cfg, expected, alloc)
      requires |values| == |expected|
      requires forall i :: 0 <= i < |expected| && expected[i].name !in listed ==> values[i] == expected[i]
      modifies this`services
      ensures MissingCreated(services, old(services), start, boot, cfg, expected, alloc, updated, before, failed)
    {
      updated, failed := before, false;
      ghost var base := services;
      for i := 0 to |expected|
        invariant services == CreateOver(base, start, expected, i, alloc)
        invariant updated <==> before || SomeAbsent(start, expected, i)
        invariant HeldByOwn(start, boot, cfg, expected, i)
      {
        OneMoreExpected(start, boot, cfg, expected, i);
        var created, taken := CreateOne(boot, cfg, expected, alloc, values[i], listed, start, i);
        if taken {
          OneTaken(services, base, start, boot, cfg, expected, alloc, updated, before, i);
          return updated, true;
        }
        updated := updated || created;
      }
      AllCreated(services, base, start, boot, cfg, expected, alloc, updated, before);
    }

    /** The body of the creating loop: an expected service that is neither the app service nor listed. */
    method CreateOne(boot: Boot, cfg: Config, expected: seq<Service>, alloc: Allocator,
                     value: Service, listed: set<string>, ghost start: ServiceMap, i: nat)
      returns (created: bool, taken: bool)
      requires WellStored(start) && DistinctNames(expected) && boot.name in start && i < |expected|
      requires forall k :: 0 <= k < |expected| ==> |expected[k].ports| > 0
      requires listed == ListedOthers(start, boot, cfg)
      requires services == CreateOver(PassOver(start, listed, boot, cfg, expected, alloc), start, expected, i, alloc)
      requires expected[i].name !in listed ==> value == expected[i]
      modifies this`services
      ensures var name := expected[i].name;
              && taken == (name != boot.name && name in start && !Selected(start[name], boot, cfg))
              && created == (name !in start)
      ensures taken ==> services == old(services)
      ensures !taken ==>
                var passed := PassOver(start, listed, boot, cfg, expected, alloc);
                services == CreateOver(passed, start, expected, i + 1, alloc)
    {
      var name := expected[i].name;
      CreateHere(start, listed, boot, cfg, expected, i, alloc);
      created, taken := false, false;
      if name != boot.name && name !in listed {
        if name in services {
          return false, true;
        }
        services := services[name := StoredService(value, alloc)];
        created := true;
      }
    }
  }

  lemma WritesInSteps(start: ServiceMap, listed: set<string>, boot: Boot, cfg: Config, expected: seq<Service>)
    requires WellStored(start)
    requires forall i :: 0 <= i < |expected| ==> |expected[i].ports| > 0
    requires listed == ListedOthers(start, boot, cfg)
    ensures PassWrites(start, boot, cfg, expected)
            <==> SomeRepair(start, listed, boot, cfg, expected) || SomeAbsent(start, expected, |expected|)
  {
  }
}
