/** The services of a boot settle: one pass fixes which services there are, and at most one more pass
    writes anything, in spite of the shared port lists. */
module ServiceLaws {
  import opened Wrappers
  import opened Strconv
  import opened Types
  import opened BootOps
  import opened Services

  // --------------------------------------------------------------------------
  // One service.

  /** As the operator builds a service next to the app service. */
  predicate IsExpected(e: Service, boot: Boot, cfg: Config) {
    && |e.ports| == 1
    && e.owned && e.affinity != ""
    && e.ports[0].nodePort == 0
    && e.labels == ServiceLabels(boot, cfg)
    && (e.annotations.Some? ==> e.annotations == ScrapeAnnotations(true, e.ports[0].port))
  }

  /** Port name and target are the expected ones. */
  predicate Aligned(s: Service, e: Service)
    requires |s.ports| > 0 && |e.ports| > 0
  {
    !SharesPorts(s, e)
  }

  lemma ScrapePortText(port: int)
    ensures PortText(ScrapeAnnotations(true, port).value) == Itoa(port)
    ensures Itoa(port) != ""
  {
  }

  lemma FixedIsStored(s: Service, e: Service, alloc: Allocator, boot: Boot, cfg: Config)
    requires IsStored(s) && IsExpected(e, boot, cfg)
    ensures var after := StoredService(FixOther(s, e).service, alloc);
            IsStored(after) && after.name == s.name && after.labels == s.labels && Aligned(after, e)
  {
  }

  lemma CreatedIsStored(e: Service, alloc: Allocator, boot: Boot, cfg: Config)
    requires IsExpected(e, boot, cfg)
    ensures var after := StoredService(e, alloc);
            IsStored(after) && after.name == e.name && after.labels == e.labels && Aligned(after, e)
  {
  }

  /** From an aligned state one update is the last: the node port is settled and no list is shared. */
  lemma AlignedFixIsLast(s: Service, e: Service, alloc: Allocator, boot: Boot, cfg: Config)
    requires IsStored(s) && IsExpected(e, boot, cfg) && Aligned(s, e)
    ensures !FixOther(StoredService(FixOther(s, e).service, alloc), e).modified
  {
    ScrapePortText(e.ports[0].port);
  }

  /** The app service needs one update at most. */
  lemma AppFixIsLast(s: Service, boot: Boot, cfg: Config, alloc: Allocator)
    requires IsStored(s) && ScrapeKnown(boot.spec, cfg)
    ensures var after := StoredService(FixApp(s, boot, cfg).service, alloc);
            IsStored(after) && after.name == s.name && after.labels == s.labels
            && !FixApp(after, boot, cfg).modified
  {
  }

  /** The repair of the app service changes nothing but owner, first port, annotations and affinity. */
  lemma AppRepairKeepsRest(s: Service, boot: Boot, cfg: Config)
    requires |s.ports| > 0 && ScrapeKnown(boot.spec, cfg)
    ensures var app := FixApp(s, boot, cfg).service;
            && app == s.(owned := true, ports := app.ports, annotations := app.annotations, affinity := app.affinity)
            && app.ports[1..] == s.ports[1..]
            && app.ports[0] == if s.ports[0].port == boot.spec.port then s.ports[0]
                               else s.ports[0].(port := boot.spec.port, target := PortNumber(boot.spec.port))
  {
  }

  /** Its annotations go when there is nothing to scrape; else they are those of a built service, or keep
      all but the port. */
  lemma AppRepairScrapes(s: Service, boot: Boot, cfg: Config, key: PrometheusKey)
    requires |s.ports| > 0 && ScrapeKnown(boot.spec, cfg)
    ensures var after := FixApp(s, boot, cfg).service.annotations;
            && (after.Some? <==> AllowScrape(boot.spec, cfg))
            && (after.Some? && s.annotations.None? ==> after == AppService(boot, cfg).annotations)
            && (after.Some? && s.annotations.Some? && key != PrometheusPort ==>
                  (key in after.value <==> key in s.annotations.value)
                  && (key in after.value ==> after.value[key] == s.annotations.value[key]))
            && (after.Some? ==> PortText(after.value) == Itoa(boot.spec.port))
  {
    ScrapePortText(boot.spec.port);
  }

  /** The repair of another service keeps name, labels, kind and selector. An aligned service also keeps
      its node port, to which an exposed one moves, and its annotations unless they name another port. */
  lemma RepairKeepsRest(s: Service, e: Service, boot: Boot, cfg: Config)
    requires IsStored(s) && IsExpected(e, boot, cfg)
    ensures var other, port := FixOther(s, e).service, s.ports[0];
            && other == s.(owned := true, ports := other.ports, annotations := other.annotations,
                           affinity := e.affinity)
            && (Aligned(s, e) ==>
                  && other.ports[1..] == s.ports[1..] && other.ports[0].nodePort == port.nodePort
                  && (s.kind == NodePort ==> other.ports[0].port == port.nodePort)
                  && (s.kind == ClusterIP ==> other.ports[0].port == e.ports[0].port)
                  && (s.annotations.Some? && PortText(s.annotations.value) == Itoa(e.ports[0].port) ==>
                        other.annotations == s.annotations)
                  && (s.annotations.None? || PortText(s.annotations.value) != Itoa(e.ports[0].port) ==>
                        other.annotations == e.annotations))
  {
    ScrapePortText(e.ports[0].port);
  }

  // --------------------------------------------------------------------------
  // All of them.

  ghost predicate AllExpected(expected: seq<Service>, boot: Boot, cfg: Config) {
    DistinctNames(expected) && forall i :: 0 <= i < |expected| ==> IsExpected(expected[i], boot, cfg)
  }

  /** The state a pass may start from. */
  ghost predicate Ready(services: ServiceMap, boot: Boot, cfg: Config, expected: seq<Service>) {
    && WellStored(services)
    && boot.name in services
    && AllExpected(expected, boot, cfg)
    && NoForeignHolder(services, boot, cfg, expected)
  }

  /** Exactly the expected services are there, and each is aligned. */
  ghost predicate AllAligned(services: ServiceMap, boot: Boot, cfg: Config, expected: seq<Service>)
    requires WellStored(services) && AllExpected(expected, boot, cfg)
  {
    && (forall name :: name in services && IsOther(services[name], boot, cfg) ==>
          Expects(expected, name) && Aligned(services[name], ExpectedOf(expected, name)))
    && (forall i :: 0 <= i < |expected| ==> expected[i].name in services)
  }

  lemma ExpectedIsSelected(e: Service, boot: Boot, cfg: Config)
    requires IsExpected(e, boot, cfg)
    ensures Selected(e, boot, cfg)
  {
  }

  /** What the pass leaves under one name. */
  lemma PassAt(services: ServiceMap, boot: Boot, cfg: Config, expected: seq<Service>, alloc: Allocator, name: string)
    requires Ready(services, boot, cfg, expected)
    ensures var after := Pass(services, boot, cfg, expected, alloc);
            && (name in after <==>
                  (name in services || Expects(expected, name)) && Stays(services, name, boot, cfg, expected))
            && (name in after ==> after[name] == Passed(services, name, boot, cfg, expected, alloc)
                                  && after[name].name == name && IsStored(after[name])
                                  && (name in services ==> after[name].labels == services[name].labels)
                                  && (name !in services ==> Selected(after[name], boot, cfg)))
            && (name in after && Expects(expected, name) && IsOther(after[name], boot, cfg) ==>
                  Aligned(after[name], ExpectedOf(expected, name)))
  {
    NameIsExpected(expected, name);
    if Expects(expected, name) {
      var e := ExpectedOf(expected, name);
      if name !in services {
        CreatedIsStored(e, alloc, boot, cfg);
        ExpectedIsSelected(e, boot, cfg);
      } else if IsOther(services[name], boot, cfg) {
        FixedIsStored(services[name], e, alloc, boot, cfg);
      }
    }
  }

  /** Main result, first half: one pass makes the names of the boot's services those expected, touches
      no other service, and leaves every service aligned. */
  lemma OnePassAligns(services: ServiceMap, boot: Boot, cfg: Config, expected: seq<Service>, alloc: Allocator)
    requires Ready(services, boot, cfg, expected)
    ensures var after := Pass(services, boot, cfg, expected, alloc);
            && Ready(after, boot, cfg, expected)
            && AllAligned(after, boot, cfg, expected)
            && (forall name :: name in after && IsOther(after[name], boot, cfg) <==>
                  Expects(expected, name) && name != boot.name)
            && (forall name :: name in services && !IsOther(services[name], boot, cfg) ==>
                  name in after && after[name] == services[name])
  {
    var after := Pass(services, boot, cfg, expected, alloc);
    forall name
      ensures name in after ==> after[name].name == name && IsStored(after[name])
      ensures name in after && IsOther(after[name], boot, cfg) ==>
                Expects(expected, name) && Aligned(after[name], ExpectedOf(expected, name))
      ensures name in after && IsOther(after[name], boot, cfg) <==> Expects(expected, name) && name != boot.name
      ensures name in services && !IsOther(services[name], boot, cfg) ==> name in after && after[name] == services[name]
      ensures name in after && name in services
              ==> Selected(after[name], boot, cfg) == Selected(services[name], boot, cfg)
      ensures name in after && name !in services ==> Selected(after[name], boot, cfg)
      ensures Expects(expected, name) ==> name in after
    {
      PassAt(services, boot, cfg, expected, alloc, name);
      if Expects(expected, name) { assert expected[IndexByName(expected, name)].name == name; }
    }
    forall i | 0 <= i < |expected|
      ensures expected[i].name in after
    {
      ExpectedAt(expected, i);
    }
  }

  /** Main result, second half: a pass over aligned services is the last that writes. */
  lemma SecondPassIsLast(services: ServiceMap, boot: Boot, cfg: Config, expected: seq<Service>, alloc: Allocator)
    requires Ready(services, boot, cfg, expected)
    requires AllAligned(services, boot, cfg, expected)
    ensures var after := Pass(services, boot, cfg, expected, alloc);
            Ready(after, boot, cfg, expected) && !PassWrites(after, boot, cfg, expected)
  {
    var after := Pass(services, boot, cfg, expected, alloc);
    OnePassAligns(services, boot, cfg, expected, alloc);
    forall name | name in after
      ensures !Repairs(after, name, boot, cfg, expected)
    {
      PassAt(services, boot, cfg, expected, alloc, name);
      if IsOther(after[name], boot, cfg) {
        AlignedFixIsLast(services[name], ExpectedOf(expected, name), alloc, boot, cfg);
      }
    }
  }

  /** A pass that writes nothing changes nothing and finds everything in place. */
  lemma QuietPass(services: ServiceMap, boot: Boot, cfg: Config, expected: seq<Service>, alloc: Allocator)
    requires Ready(services, boot, cfg, expected)
    requires !PassWrites(services, boot, cfg, expected)
    ensures Pass(services, boot, cfg, expected, alloc) == services
    ensures AllAligned(services, boot, cfg, expected)
  {
  }

  /** Main result: from any state, for whatever node ports the API server gives out, at most two
      passes write. */
  lemma ThirdPassIsQuiet(services: ServiceMap, boot: Boot, cfg: Config, expected: seq<Service>,
                         a: Allocator, b: Allocator)
    requires Ready(services, boot, cfg, expected)
    ensures var first := Pass(services, boot, cfg, expected, a);
            Ready(first, boot, cfg, expected)
            && Ready(Pass(first, boot, cfg, expected, b), boot, cfg, expected)
            && !PassWrites(Pass(first, boot, cfg, expected, b), boot, cfg, expected)
  {
    OnePassAligns(services, boot, cfg, expected, a);
    SecondPassIsLast(Pass(services, boot, cfg, expected, a), boot, cfg, expected, b);
  }

  /** The second writing pass is real: a new external service first gets a node port of its own and
      is then moved to it. */
  lemma ExternalServiceTakesTwo(services: ServiceMap, boot: Boot, cfg: Config, e: Service, alloc: Allocator)
    requires IsExpected(e, boot, cfg) && Ready(services, boot, cfg, [e])
    requires e.kind == NodePort && e.name != boot.name && e.name !in services
    requires alloc(e.name, 0) != e.ports[0].port
    ensures var first := Pass(services, boot, cfg, [e], alloc);
            Ready(first, boot, cfg, [e]) && PassWrites(first, boot, cfg, [e])
  {
    var first := Pass(services, boot, cfg, [e], alloc);
    OnePassAligns(services, boot, cfg, [e], alloc);
    ExpectedAt([e], 0);
    PassAt(services, boot, cfg, [e], alloc, e.name);
    assert first[e.name] == StoredService(e, alloc);
    assert Exposes(first[e.name]);
    assert Repairs(first, e.name, boot, cfg, [e]);
  }

  /** A pass whose creation fails touches no service of others, and neither the app service. */
  lemma FailedPassSparesOthers(services: ServiceMap, boot: Boot, cfg: Config, expected: seq<Service>, alloc: Allocator,
                               name: string)
    requires WellStored(services) && AllExpected(expected, boot, cfg)
    requires name in services && !IsOther(services[name], boot, cfg)
    ensures var after := FailedPass(services, boot, cfg, expected, alloc);
            name in after && after[name] == services[name]
  {
    CreateOverAt(PassOver(services, ListedOthers(services, boot, cfg), boot, cfg, expected, alloc), services, expected,
                 FirstForeign(services, boot, cfg, expected), alloc, name);
  }

  /** It creates the missing services in front of the first name held by others, and none behind. */
  lemma FailedPassStopsThere(services: ServiceMap, boot: Boot, cfg: Config, expected: seq<Service>, alloc: Allocator,
                             at: nat, i: nat)
    requires WellStored(services) && AllExpected(expected, boot, cfg) && i < |expected| && at < |expected|
    requires expected[at].name != boot.name && expected[at].name in services
             && !Selected(services[expected[at].name], boot, cfg)
    requires forall k :: 0 <= k < at && expected[k].name != boot.name && expected[k].name in services ==>
               Selected(services[expected[k].name], boot, cfg)
    requires expected[i].name !in services
    ensures expected[i].name in FailedPass(services, boot, cfg, expected, alloc) <==> i < at
  {
    var n := FirstForeign(services, boot, cfg, expected);
    CreateOverAt(PassOver(services, ListedOthers(services, boot, cfg), boot, cfg, expected, alloc), services, expected,
                 n, alloc, expected[i].name);
    IndexIs(expected, expected[i].name, i);
    assert n == at;
  }

  // --------------------------------------------------------------------------
  // The app service is no matter for the pass over the others.

  lemma OthersRepairedAlike(services: ServiceMap, boot: Boot, cfg: Config, expected: seq<Service>, app: Service,
          name: string)
    requires Ready(services, boot, cfg, expected) && |app.ports| > 0 && app.name == boot.name
    requires name in services
    ensures Repairs(services[boot.name := app], name, boot, cfg, expected)
            <==> Repairs(services, name, boot, cfg, expected)
  {
  }

  lemma AppReplacedReady(services: ServiceMap, boot: Boot, cfg: Config, expected: seq<Service>, app: Service)
    requires Ready(services, boot, cfg, expected)
    requires IsStored(app) && app.name == boot.name && app.labels == services[boot.name].labels
    ensures var after := services[boot.name := app];
            Ready(after, boot, cfg, expected)
            && (AllAligned(after, boot, cfg, expected) <==> AllAligned(services, boot, cfg, expected))
  {
  }

  lemma AppReplaced(services: ServiceMap, boot: Boot, cfg: Config, expected: seq<Service>, app: Service)
    requires Ready(services, boot, cfg, expected)
    requires IsStored(app) && app.name == boot.name && app.labels == services[boot.name].labels
    ensures var after := services[boot.name := app];
            && Ready(after, boot, cfg, expected)
            && (PassWrites(after, boot, cfg, expected) <==> PassWrites(services, boot, cfg, expected))
            && (AllAligned(after, boot, cfg, expected) <==> AllAligned(services, boot, cfg, expected))
  {
    var after := services[boot.name := app];
    AppReplacedReady(services, boot, cfg, expected, app);
    forall name | name in services
      ensures Repairs(after, name, boot, cfg, expected) <==> Repairs(services, name, boot, cfg, expected)
    {
      OthersRepairedAlike(services, boot, cfg, expected, app, name);
    }
  }

  // --------------------------------------------------------------------------
  // Creation.

  /** Creating only adds services, each stored under its name with the boot's labels; the first of
      the list exists afterwards. */
  lemma {:induction false} CreateAllAdds(services: ServiceMap, list: seq<Service>, alloc: Allocator, boot: Boot,
          cfg: Config)
    requires WellStored(services)
    requires forall i :: 0 <= i < |list| ==> IsExpected(list[i], boot, cfg)
    ensures var after := CreateAll(services, list, alloc);
            && WellStored(after)
            && (list != [] ==> list[0].name in after)
            && (forall name :: name in services ==> name in after && after[name] == services[name])
            && (forall name :: name in after && name !in services ==> Selected(after[name], boot, cfg))
    decreases |list|
  {
    if list != [] && list[0].name !in services {
      CreatedIsStored(list[0], alloc, boot, cfg);
      ExpectedIsSelected(list[0], boot, cfg);
      CreateAllAdds(services[list[0].name := StoredService(list[0], alloc)], list[1..], alloc, boot, cfg);
    }
  }

  /** Creation stops at the first name that is taken: exactly the services in front of it are new. */
  lemma {:induction false} CreationStopsAtTaken(services: ServiceMap, list: seq<Service>, alloc: Allocator, at: nat,
                                                name: string)
    requires at <= |list| && DistinctNames(list)
    requires forall k :: 0 <= k < at ==> list[k].name !in services
    requires at < |list| ==> list[at].name in services
    ensures var after := CreateAll(services, list, alloc);
            && (name in after <==> name in services || IndexByName(list, name) < at)
            && (name in services ==> after[name] == services[name])
            && (IndexByName(list, name) < at ==> after[name] == StoredService(ExpectedOf(list, name), alloc))
    decreases |list|
  {
    if at > 0 {
      var next := services[list[0].name := StoredService(list[0], alloc)];
      assert forall k :: 0 <= k < |list| - 1 ==> list[1..][k] == list[k + 1];
      CreationStopsAtTaken(next, list[1..], alloc, at - 1, name);
    }
  }

  lemma {:induction false} PortServicesExpected(boot: Boot, cfg: Config, ports: seq<ContainerPort>, i: nat)
    requires i < |PortServices(boot, cfg, ports)|
    ensures IsExpected(PortServices(boot, cfg, ports)[i], boot, cfg)
  {
    if i > 0 {
      PortServicesExpected(boot, cfg, ports[1..], i - 1);
    }
  }

  lemma {:induction false} SidecarServicesExpected(boot: Boot, cfg: Config, sidecars: seq<Container>, i: nat)
    requires i < |SidecarServices(boot, cfg, sidecars)|
    ensures IsExpected(SidecarServices(boot, cfg, sidecars)[i], boot, cfg)
  {
    var n := |PortServices(boot, cfg, sidecars[0].ports)|;
    if i < n {
      PortServicesExpected(boot, cfg, sidecars[0].ports, i);
    } else {
      SidecarServicesExpected(boot, cfg, sidecars[1..], i - n);
    }
  }

  lemma NewServicesExpected(boot: Boot, cfg: Config, sidecars: seq<Container>)
    requires ScrapeKnown(boot.spec, cfg)
    ensures forall i :: 0 <= i < |NewServices(boot, cfg, sidecars)| ==>
              IsExpected(NewServices(boot, cfg, sidecars)[i], boot, cfg)
    ensures NewServices(boot, cfg, sidecars)[0].name == boot.name
  {
    var all, more := NewServices(boot, cfg, sidecars), SidecarServices(boot, cfg, sidecars);
    forall i | 0 <= i < |all|
      ensures IsExpected(all[i], boot, cfg)
    {
      var j := i - (|all| - |more|);
      if j >= 0 {
        SidecarServicesExpected(boot, cfg, sidecars, j);
        assert all[i] == more[j];
      }
    }
  }
}
