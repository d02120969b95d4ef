/** Which boots settle: the loop comes to rest from every state of the cluster exactly when the boot it
    ends with can pass the check and its metrics are consistent. */
module Exactness {
  import opened Wrappers
  import opened EnvList
  import opened Types
  import opened BootOps
  import opened Defaulter
  import opened DefaulterLaws
  import opened Workloads
  import W = WorkloadLaws
  import S = Services
  import L = ServiceLaws
  import H = Autoscaler
  import opened Cluster
  import opened StageLaws
  import opened LateLaws
  import opened Convergence
  import opened Starting
  import opened Endless

  // --------------------------------------------------------------------------
  // Coming to rest.

  /** Every further call succeeds and changes nothing. */
  ghost predicate Rests(s: State, cfg: Config)
    requires Workable(s, cfg)
  {
    forall alloc: S.Allocator :: Quiescent(s, cfg, alloc)
  }

  ghost predicate Quiescent(s: State, cfg: Config, alloc: S.Allocator)
    requires Workable(s, cfg)
  {
    WorkableIsWellFormed(s, cfg);
    Reconcile(s, cfg, alloc) == Call(s, false, false)
  }

  ghost predicate RestsAfter(s: State, cfg: Config, n: nat)
    requires Workable(s, cfg)
  {
    forall allocs: seq<S.Allocator> :: |allocs| >= n ==> Rests(After(s, cfg, allocs), cfg)
  }

  /** From every state of the cluster, some number of calls brings this boot to rest. */
  ghost predicate SettlesAnywhere(boot: Boot, cfg: Config, claims: Claims) {
    forall s: State :: s.boot == boot && s.claims == claims && Workable(s, cfg) ==>
      exists n: nat :: RestsAfter(s, cfg, n)
  }

  lemma RestsThere(s: State, cfg: Config, n: nat, allocs: seq<S.Allocator>)
    requires Workable(s, cfg) && RestsAfter(s, cfg, n) && |allocs| >= n
    ensures Rests(After(s, cfg, allocs), cfg)
  {
  }

  function SomeChoices(n: nat): (allocs: seq<S.Allocator>)
    ensures |allocs| == n
  {
    seq(n, i => SomePorts())
  }

  // --------------------------------------------------------------------------
  // Enough: a sane state comes to rest.

  lemma SaneComesToRest(s: State, cfg: Config)
    requires Sane(s, cfg)
    ensures RestsAfter(s, cfg, 9)
  {
    forall allocs: seq<S.Allocator> | |allocs| >= 9
      ensures Rests(After(s, cfg, allocs), cfg)
    {
      NineCallsSettle(s, cfg, allocs);
      RankZeroRests(After(s, cfg, allocs), cfg);
    }
  }

  lemma RankZeroRests(s: State, cfg: Config)
    requires Sane(s, cfg) && Rank(s, cfg) == 0
    ensures Rests(s, cfg)
  {
    forall alloc: S.Allocator
      ensures Quiescent(s, cfg, alloc)
    {
      ReconcileLowersRank(s, cfg, alloc);
    }
  }

  // --------------------------------------------------------------------------
  // Needed: consistent metrics.

  /** Defaults are set to stay, and the metrics are inconsistent. */
  ghost predicate Wavering(s: State, cfg: Config) {
    Workable(s, cfg) && Lasting(s.boot, cfg) && !MetricsSettle(s.boot.spec)
  }

  lemma WaveringStays(s: State, cfg: Config, alloc: S.Allocator)
    requires Wavering(s, cfg)
    ensures WellFormedState(s) && ConfigComplete(cfg) && OwnNames(s, cfg)
    ensures Wavering(Reconcile(s, cfg, alloc).state, cfg) && !Quiescent(s, cfg, alloc)
  {
    LastingIsQuiet(s.boot, cfg);
    NoDefaultsNeeded(s.boot, cfg);
    ConvergeStays(s, cfg, alloc);
    MetaKeepsLasting(s.boot, Converge(s, cfg, alloc).state.boot, cfg);
    if Quiescent(s, cfg, alloc) { QuietNeeds(s, cfg, alloc); }
  }

  lemma {:induction false} WaveringForever(s: State, cfg: Config, allocs: seq<S.Allocator>)
    requires Wavering(s, cfg)
    ensures !Rests(After(s, cfg, allocs), cfg)
    decreases |allocs|
  {
    if allocs == [] {
      WaveringStays(s, cfg, SomePorts());
    } else {
      WaveringStays(s, cfg, allocs[0]);
      WaveringForever(Reconcile(s, cfg, allocs[0]).state, cfg, allocs[1..]);
    }
  }

  lemma WaveringNeverRests(s: State, cfg: Config, n: nat)
    requires Wavering(s, cfg)
    ensures !RestsAfter(s, cfg, n)
  {
    WaveringForever(s, cfg, SomeChoices(n));
    if RestsAfter(s, cfg, n) { RestsThere(s, cfg, n, SomeChoices(n)); }
  }

  lemma MetricsNeeded(boot: Boot, cfg: Config, claims: Claims)
    requires OverridesWellFormed(cfg) && ConfigComplete(cfg) && Lasting(boot, cfg)
    requires S.DistinctNames(S.NewServices(boot, cfg, cfg.sidecars))
    requires SettlesAnywhere(boot, cfg, claims)
    ensures MetricsSettle(boot.spec)
  {
    var s := State(boot, map[], map[], None, claims, [], 0, 0);
    EmptyClusterIsWorkable(boot, cfg, claims, []);
    var n := SomeNumber(s, cfg);
    if !MetricsSettle(boot.spec) { WaveringNeverRests(s, cfg, n); }
  }

  lemma SomeNumber(s: State, cfg: Config) returns (n: nat)
    requires Workable(s, cfg) && SettlesAnywhere(s.boot, cfg, s.claims)
    ensures RestsAfter(s, cfg, n)
  {
    n :| RestsAfter(s, cfg, n);
  }

  // --------------------------------------------------------------------------
  // Needed: a workload that can pass the check.

  /** What the operator built does not pass its own check: the call fails, or writes the same again. */
  lemma UncheckableStays(boot: Boot, cfg: Config, claims: Claims, alloc: S.Allocator)
    requires OverridesWellFormed(cfg) && ConfigComplete(cfg) && !NeedsDefaults(boot, cfg)
    requires S.DistinctNames(S.NewServices(boot, cfg, cfg.sidecars))
    requires !W.Checkable(boot, cfg, claims)
    ensures DefaultsSet(boot.spec)
    ensures var s := JustBuilt(boot, cfg, claims);
            Workable(s, cfg) && !Quiescent(s, cfg, alloc) && After(s, cfg, [alloc]) == s
  {
    NoDefaultsNeeded(boot, cfg);
    JustBuiltIsWorkable(boot, cfg, claims);
    var s := JustBuilt(boot, cfg, claims);
    WorkableIsWellFormed(s, cfg);
    if !Undecodable(boot) { RollingForever(s, cfg, alloc); } else { UndecodableStays(s, cfg, alloc); }
    OneCall(s, cfg, alloc);
  }

  lemma OneCall(s: State, cfg: Config, alloc: S.Allocator)
    requires Workable(s, cfg)
    ensures WellFormedState(s) && ConfigComplete(cfg) && OwnNames(s, cfg)
    ensures After(s, cfg, [alloc]) == Reconcile(s, cfg, alloc).state
  {
    FirstCall(s, cfg, [alloc]);
  }

  lemma UndecodableStays(s: State, cfg: Config, alloc: S.Allocator)
    requires WellFormedState(s) && ConfigComplete(cfg) && OwnNames(s, cfg) && !NeedsDefaults(s.boot, cfg)
    requires !Missing(s) && Undecodable(s.boot)
    ensures Reconcile(s, cfg, alloc) == Call(s, false, true)
  {
    NoDefaultsNeeded(s.boot, cfg);
  }

  lemma {:induction false} StuckForever(s: State, cfg: Config, allocs: seq<S.Allocator>)
    requires Workable(s, cfg)
    requires forall alloc: S.Allocator :: After(s, cfg, [alloc]) == s
    ensures After(s, cfg, allocs) == s
    decreases |allocs|
  {
    if allocs != [] {
      assert After(s, cfg, [allocs[0]]) == s;
      StuckForever(s, cfg, allocs[1..]);
    }
  }

  lemma CheckableNeeded(boot: Boot, cfg: Config, claims: Claims)
    requires OverridesWellFormed(cfg) && ConfigComplete(cfg) && !NeedsDefaults(boot, cfg)
    requires S.DistinctNames(S.NewServices(boot, cfg, cfg.sidecars))
    requires SettlesAnywhere(boot, cfg, claims)
    ensures W.Checkable(boot, cfg, claims)
  {
    if !W.Checkable(boot, cfg, claims) {
      UncheckableStays(boot, cfg, claims, SomePorts());
      var s := JustBuilt(boot, cfg, claims);
      var n := SomeNumber(s, cfg);
      forall alloc: S.Allocator
        ensures After(s, cfg, [alloc]) == s
      {
        UncheckableStays(boot, cfg, claims, alloc);
      }
      StuckForever(s, cfg, SomeChoices(n));
      RestsThere(s, cfg, n, SomeChoices(n));
    }
  }

  // --------------------------------------------------------------------------
  // Defaults first.

  lemma WrittenIsElsewhere(s: State, boot: Boot, cfg: Config)
    requires Workable(s, cfg) && s.boot == Written(boot, cfg)
    ensures Workable(s.(boot := boot), cfg)
  {
    OutcomeHolds(boot, cfg);
    KeptByDefaults(boot, cfg, SetDefaults(boot, cfg));
    ObjectsStaySane(s, cfg, s.(boot := boot));
  }

  /** A boot that settles from every state of the cluster still does with its defaults written. */
  lemma SettlesOnceWritten(boot: Boot, cfg: Config, claims: Claims)
    requires NeedsDefaults(boot, cfg) && SettlesAnywhere(boot, cfg, claims)
    ensures SettlesAnywhere(Written(boot, cfg), cfg, claims)
  {
    forall s: State | s.boot == Written(boot, cfg) && s.claims == claims && Workable(s, cfg)
      ensures exists n: nat :: RestsAfter(s, cfg, n)
    {
      WrittenIsElsewhere(s, boot, cfg);
      var n: nat :| RestsAfter(s.(boot := boot), cfg, n);
      OneCallLater(s, boot, cfg, n);
    }
  }

  lemma OneCallLater(s: State, boot: Boot, cfg: Config, n: nat)
    requires Workable(s, cfg) && s.boot == Written(boot, cfg) && NeedsDefaults(boot, cfg)
    requires Workable(s.(boot := boot), cfg) && RestsAfter(s.(boot := boot), cfg, n)
    ensures RestsAfter(s, cfg, n)
  {
    forall allocs: seq<S.Allocator> | |allocs| >= n
      ensures Rests(After(s, cfg, allocs), cfg)
    {
      DefaultsComeFirst(s, boot, cfg, allocs);
      RestsThere(s.(boot := boot), cfg, n, [SomePorts()] + allocs);
    }
  }

  lemma NextCall(s: State, cfg: Config, alloc: S.Allocator, allocs: seq<S.Allocator>)
    requires Workable(s, cfg)
    ensures WellFormedState(s) && ConfigComplete(cfg) && OwnNames(s, cfg)
    ensures Workable(Reconcile(s, cfg, alloc).state, cfg)
    ensures After(s, cfg, [alloc] + allocs) == After(Reconcile(s, cfg, alloc).state, cfg, allocs)
  {
    var all := [alloc] + allocs;
    assert all[0] == alloc && all[1..] == allocs;
    FirstCall(s, cfg, all);
  }

  lemma DefaultsComeFirst(s: State, boot: Boot, cfg: Config, allocs: seq<S.Allocator>)
    requires Workable(s, cfg) && s.boot == Written(boot, cfg) && NeedsDefaults(boot, cfg)
    requires Workable(s.(boot := boot), cfg)
    ensures After(s.(boot := boot), cfg, [SomePorts()] + allocs) == After(s, cfg, allocs)
  {
    NextCall(s.(boot := boot), cfg, SomePorts(), allocs);
    assert Reconcile(s.(boot := boot), cfg, SomePorts()).state == s;
  }

  /** Defaulting does not decide whether the metrics are consistent. */
  lemma WrittenKeepsMetrics(boot: Boot, cfg: Config)
    ensures MetricsSettle(Written(boot, cfg).spec) == MetricsSettle(boot.spec)
  {
    OutcomeHolds(boot, cfg);
    DefaultedMetrics(boot, cfg, SetDefaults(boot, cfg));
  }

  lemma DefaultedMetrics(boot: Boot, cfg: Config, once: Boot)
    requires Outcome(boot, cfg, once)
    ensures MetricsSettle(once.spec) == MetricsSettle(boot.spec)
  {
  }

  lemma FinalKeepsMetrics(boot: Boot, cfg: Config)
    ensures MetricsSettle(Final(boot, cfg).spec) == MetricsSettle(boot.spec)
  {
    WrittenKeepsMetrics(boot, cfg);
    WrittenKeepsMetrics(Written(boot, cfg), cfg);
  }

  /** The defaults the loop ends with stay, if the boot can pass the check. */
  lemma FinalIsLasting(boot: Boot, cfg: Config, claims: Claims)
    requires if NeedsDefaults(boot, cfg) then DefaultsWellFormed(cfg) else !EmptyClaimsRecorded(boot)
    ensures !NeedsDefaults(Final(boot, cfg), cfg)
    ensures W.Checkable(Final(boot, cfg), cfg, claims) ==> Lasting(Final(boot, cfg), cfg)
  {
    if NeedsDefaults(boot, cfg) {
      DefaultsEnd(boot, cfg);
      QuietExactly(Final(boot, cfg), cfg);
      assert Stored(Final(boot, cfg)) == Final(boot, cfg);
    } else if W.FieldsNormal(boot.spec) {
      LastingExactly(boot, cfg);
    }
  }

  lemma SettlesAtTheEnd(boot: Boot, cfg: Config, claims: Claims)
    requires SettlesAnywhere(boot, cfg, claims)
    ensures SettlesAnywhere(Final(boot, cfg), cfg, claims)
  {
    if NeedsDefaults(boot, cfg) {
      SettlesOnceWritten(boot, cfg, claims);
      if NeedsDefaults(Written(boot, cfg), cfg) { SettlesOnceWritten(Written(boot, cfg), cfg, claims); }
    }
  }

  lemma FinalNamesStay(boot: Boot, cfg: Config)
    requires cfg.prometheusScrape.Some? && S.DistinctNames(S.NewServices(boot, cfg, cfg.sidecars))
    ensures S.DistinctNames(S.NewServices(Final(boot, cfg), cfg, cfg.sidecars))
  {
    OutcomeHolds(boot, cfg);
    KeptByDefaults(boot, cfg, SetDefaults(boot, cfg));
    OutcomeHolds(Written(boot, cfg), cfg);
    KeptByDefaults(Written(boot, cfg), cfg, SetDefaults(Written(boot, cfg), cfg));
    NamesStayFree(boot, Final(boot, cfg), cfg, map[], cfg.sidecars);
  }

  /** Main result: the loop brings a boot to rest from every state of the cluster exactly when the boot
      with its defaults set can pass the check and its metrics are consistent. */
  lemma SettlingExactly(boot: Boot, cfg: Config, claims: Claims)
    requires OverridesWellFormed(cfg) && ConfigComplete(cfg)
    requires if NeedsDefaults(boot, cfg) then DefaultsWellFormed(cfg) else !EmptyClaimsRecorded(boot)
    requires S.DistinctNames(S.NewServices(boot, cfg, cfg.sidecars))
    ensures SettlesAnywhere(boot, cfg, claims)
            <==> W.Checkable(Final(boot, cfg), cfg, claims) && MetricsSettle(boot.spec)
  {
    FinalIsLasting(boot, cfg, claims);
    FinalKeepsMetrics(boot, cfg);
    if SettlesAnywhere(boot, cfg, claims) {
      SettlesAtTheEnd(boot, cfg, claims);
      FinalNamesStay(boot, cfg);
      CheckableNeeded(Final(boot, cfg), cfg, claims);
      MetricsNeeded(Final(boot, cfg), cfg, claims);
    }
    if W.Checkable(Final(boot, cfg), cfg, claims) && MetricsSettle(boot.spec) {
      SettleableSettles(boot, cfg, claims);
    }
  }

  lemma SettleableSettles(boot: Boot, cfg: Config, claims: Claims)
    requires SaneBoot(boot, cfg, claims)
    ensures SettlesAnywhere(boot, cfg, claims)
  {
    forall s: State | s.boot == boot && s.claims == claims && Workable(s, cfg)
      ensures exists n: nat :: RestsAfter(s, cfg, n)
    {
      SaneComesToRest(s, cfg);
    }
  }
}
