/** The normal form a revision is hashed from (`InitBootRevision` in pkg/logan/operator/revision.go,
    `BootHash` in pkg/apis/app/v1/bootrevision_ops.go), and what it does not see. The hash itself is
    any function of the normal form. */
module RevisionHash {
  import opened Wrappers
  import opened Placeholder
  import opened EnvList
  import opened Types
  import opened BootOps
  import opened Defaulter
  import opened DefaulterLaws
  import opened RevisionLog

  datatype NormalForm = NormalForm(
    name: string,
    namespace: string,
    profile: Option<Annotation>,
    bootType: BootType,
    spec: BootSpec)

  /** Replicas are blanked and business variables removed; of the annotations only the profile stays. */
  function HashInput(boot: Boot, biz: set<string>): NormalForm {
    NormalForm(boot.name, boot.namespace, Read'(boot.annotations, ProfileKey), boot.bootType,
               boot.spec.(replicas := Some(0), env := Some(Clean(Elements(boot.spec.env), biz))))
  }

  /** The hash under which a request is recorded: defaults are set first. */
  function RecordHash(boot: Boot, cfg: Config, biz: set<string>, hash: NormalForm -> string): string {
    hash(HashInput(SetDefaults(boot, cfg), biz))
  }

  /** Recording a second hash leaves the log alone exactly when it is the first one again: the newest
      revision is never trimmed. */
  lemma RecordTwice(log: Log, base: string, hash: string, again: string, maxHistory: nat)
    requires maxHistory >= 1
    ensures var once := Recorded(log, base, hash, maxHistory);
            Recorded(once, base, again, maxHistory) == once <==> again == hash
  {
    var once := Recorded(log, base, hash, maxHistory);
    assert once != [] && Last(once).hash == hash;
    assert Last(Recorded(once, base, again, maxHistory)).hash == again;
  }

  // --------------------------------------------------------------------------
  // The operator's own writes.

  lemma ProfileStays(boot: Boot, cfg: Config, once: Boot)
    requires Outcome(boot, cfg, once)
    ensures Read'(once.annotations, ProfileKey) == Read'(boot.annotations, ProfileKey)
  {
    var plain := DefaultPlain(boot.spec, cfg);
    var env := DefaultEnvStage(boot, plain, boot.annotations, cfg);
    EnvStageKeepsKey(boot, plain, boot.annotations, cfg, ProfileKey);
    LaterStagesKeepKey(BootValues(boot, cfg), env.spec, env.annotations, plain.workload, cfg, ProfileKey);
  }

  /** As far as defaulting and the normal form can tell, the boots are one. */
  ghost predicate SameRequest(a: Boot, b: Boot) {
    && b.name == a.name && b.namespace == a.namespace && b.bootType == a.bootType
    && b.spec == a.spec
    && Read'(b.annotations, BootEnvs) == Read'(a.annotations, BootEnvs)
    && Read'(b.annotations, BootImages) == Read'(a.annotations, BootImages)
    && Read'(b.annotations, ProfileKey) == Read'(a.annotations, ProfileKey)
  }

  /** The normal form is not affected by what defaulting records of claims and workload. */
  lemma SameRequestSameForm(a: Boot, b: Boot, cfg: Config, biz: set<string>)
    requires SameRequest(a, b)
    ensures HashInput(SetDefaults(b, cfg), biz) == HashInput(SetDefaults(a, cfg), biz)
  {
    OutcomeHolds(a, cfg);
    OutcomeHolds(b, cfg);
    ProfileStays(a, cfg, SetDefaults(a, cfg));
    ProfileStays(b, cfg, SetDefaults(b, cfg));
    SameSpecs(a, b, cfg, SetDefaults(a, cfg), SetDefaults(b, cfg));
  }

  lemma SameSpecs(a: Boot, b: Boot, cfg: Config, x: Boot, y: Boot)
    requires SameRequest(a, b) && Outcome(a, cfg, x) && Outcome(b, cfg, y)
    ensures x.spec == y.spec
  {
  }

  /** The request holds no explicitly empty list or map, other than the environment, that defaulting
      leaves empty. */
  predicate NothingDropped(spec: BootSpec, cfg: Config) {
    && spec.command != Some([]) && spec.pvc != Some([])
    && (spec.limits == Some(map[]) ==> |cfg.limits| > 0)
    && (spec.requests == Some(map[]) ==> |cfg.requests| > 0)
    && (spec.nodeSelector == Some(map[]) ==> |cfg.nodeSelector| > 0)
  }

  lemma FillKeepsEntries(list: Option<Quantities>, from: Quantities)
    ensures FillResources(list, from) == Some(map[]) <==> list == Some(map[]) && |from| == 0
  {
    var filled := FillResources(list, from);
    if |from| > 0 && !IsEmptyMap(list) {
      var k :| k in list.value;
      assert k in filled.value;
    }
  }

  lemma CapKeepsEntries(list: Option<Quantities>, limits: Option<Quantities>, name: ResourceName)
    ensures Cap(list, limits, name) == Some(map[]) <==> list == Some(map[])
  {
    if Exceeds(list, limits, name) { assert name in Cap(list, limits, name).value; }
  }

  lemma SelectorKeepsEntries(selector: Option<Labels>, from: Labels)
    ensures DefaultNodeSelector(selector, from) == Some(map[]) <==> selector == Some(map[]) && |from| == 0
  {
  }

  /** An explicitly empty environment is dropped by the API server although its record is kept, so that
      the next pass adds the variables of the configuration, and one of them is not a business
      variable. */
  ghost predicate EnvForgotten(boot: Boot, cfg: Config, biz: set<string>) {
    && boot.spec.env == Some([]) && Read(boot.annotations, BootEnvs).EnvJson?
    && EnvKept(boot.spec, boot.annotations, cfg)
    && Clean(cfg.env, biz) != []
  }

  /** The condition under which a request is one revision. */
  ghost predicate FormKept(boot: Boot, cfg: Config, biz: set<string>) {
    NothingDropped(boot.spec, cfg) && !EnvForgotten(boot, cfg, biz)
  }

  lemma LimitsAgain(list: Option<Quantities>, from: Quantities)
    requires CompleteOrEmpty(from)
    ensures var l := FillResources(list, from);
            FillResources(DropEmptyMap(l), from) == l <==> l != Some(map[])
  {
    FillKeepsEntries(list, from);
    FilledIsComplete(list, from);
    UnchangedIsFilled(FillResources(list, from), from);
  }

  lemma RequestsAgain(list: Option<Quantities>, from: Quantities, limits: Option<Quantities>)
    requires CompleteOrEmpty(from)
    ensures var r := Cap(Cap(FillResources(list, from), limits, Cpu), limits, Memory);
            Cap(Cap(FillResources(DropEmptyMap(r), from), limits, Cpu), limits, Memory) == r <==> r != Some(map[])
  {
    var filled := FillResources(list, from);
    FillKeepsEntries(list, from);
    CapKeepsEntries(filled, limits, Cpu);
    CapKeepsEntries(Cap(filled, limits, Cpu), limits, Memory);
    FilledIsComplete(list, from);
    CappedSettles(filled, limits, from);
    UnchangedIsFilled(Cap(Cap(filled, limits, Cpu), limits, Memory), from);
  }

  lemma SelectorAgain(selector: Option<Labels>, from: Labels)
    ensures var n := DefaultNodeSelector(selector, from);
            DefaultNodeSelector(DropEmptyMap(n), from) == n <==> n != Some(map[])
  {
    SelectorKeepsEntries(selector, from);
    AddedTwice(map[], from);
    if !IsEmptyMap(selector) { AddedTwice(selector.value, from); }
  }

  lemma AddedTwice<K, V>(a: map<K, V>, b: map<K, V>)
    ensures a + b + b == a + b && b + b == b
  {
  }

  /** What the second pass makes of the written boot, beside its environment. */
  ghost predicate PlainAgain(once: BootSpec, again: BootSpec) {
    && (again.limits == once.limits <==> once.limits != Some(map[]))
    && (again.requests == once.requests <==> once.requests != Some(map[]))
    && (again.nodeSelector == once.nodeSelector <==> once.nodeSelector != Some(map[]))
    && again.command == DropEmptyList(once.command) && again.pvc == DropEmptyList(once.pvc)
    && again == once.(limits := again.limits, requests := again.requests, nodeSelector := again.nodeSelector,
                      command := again.command, pvc := again.pvc, env := again.env)
  }

  lemma SameQuantities(requests: Option<Quantities>, a: Option<Quantities>, b: Option<Quantities>)
    requires Quantity(a, Cpu) == Quantity(b, Cpu) && Quantity(a, Memory) == Quantity(b, Memory)
    ensures Cap(Cap(requests, a, Cpu), a, Memory) == Cap(Cap(requests, b, Cpu), b, Memory)
  {
  }

  lemma OutcomeLists(boot: Boot, cfg: Config, once: Boot)
    requires Outcome(boot, cfg, once)
    ensures once.spec.limits == DefaultLimits(boot.spec, cfg) && once.spec.requests == DefaultRequests(boot.spec, cfg)
    ensures once.spec.nodeSelector == DefaultNodeSelector(boot.spec.nodeSelector, cfg.nodeSelector)
    ensures once.spec.command == boot.spec.command && once.spec.pvc == boot.spec.pvc
  {
  }

  lemma OutcomeScalars(boot: Boot, cfg: Config, once: Boot, again: Boot)
    requires cfg.replicas >= 1
    requires Outcome(boot, cfg, once) && Outcome(Stored(once), cfg, again)
    ensures again.spec == once.spec.(limits := again.spec.limits, requests := again.spec.requests,
                                     nodeSelector := again.spec.nodeSelector, command := again.spec.command,
                                     pvc := again.spec.pvc, env := again.spec.env)
  {
    ScalarsSettle(boot.spec, cfg);
    RestSettles(boot, cfg, once);
  }

  lemma SecondPassPlain(boot: Boot, cfg: Config, once: Boot, again: Boot)
    requires DefaultsWellFormed(cfg)
    requires Outcome(boot, cfg, once) && Outcome(Stored(once), cfg, again)
    ensures PlainAgain(once.spec, again.spec)
  {
    OutcomeLists(boot, cfg, once);
    OutcomeLists(Stored(once), cfg, again);
    ResourcesAgain(boot.spec, cfg, once.spec, again.spec);
    SelectorAgain(boot.spec.nodeSelector, cfg.nodeSelector);
    OutcomeScalars(boot, cfg, once, again);
  }

  lemma ResourcesAgain(spec: BootSpec, cfg: Config, once: BootSpec, again: BootSpec)
    requires DefaultsWellFormed(cfg)
    requires once.limits == DefaultLimits(spec, cfg) && once.requests == DefaultRequests(spec, cfg)
    requires again.limits == DefaultLimits(StoredSpec(once), cfg)
    requires again.requests == DefaultRequests(StoredSpec(once), cfg)
    ensures again.limits == once.limits <==> once.limits != Some(map[])
    ensures again.requests == once.requests <==> once.requests != Some(map[])
  {
    LimitsAgain(spec.limits, cfg.limits);
    RequestsAgain(spec.requests, cfg.requests, once.limits);
    SameQuantities(FillResources(StoredSpec(once).requests, cfg.requests), once.limits, again.limits);
  }

  /** The kept part of a defaulted environment depends on the kept part of the list alone. */
  lemma CleanedDefaults(v: Values, env: Option<Envs>, other: Option<Envs>, cfg: Config, biz: set<string>)
    requires Clean(Elements(env), biz) == Clean(Elements(other), biz)
    ensures Clean(Elements(DefaultEnvs(v, env, cfg)), biz) == Clean(Elements(DefaultEnvs(v, other, cfg)), biz)
  {
    CleanedDefaultsOf(v, env, cfg, biz);
    CleanedDefaultsOf(v, other, cfg, biz);
  }

  lemma CleanedDefaultsOf(v: Values, env: Option<Envs>, cfg: Config, biz: set<string>)
    ensures Clean(Elements(DefaultEnvs(v, env, cfg)), biz)
            == DecodeAll(v, Merge(Clean(Elements(env), biz), Clean(DecodeAll(v, cfg.env), biz), true))
  {
    var src := DecodeAll(v, cfg.env);
    CleanCommutesWithMerge(Elements(env), src, biz, true);
    DecodeCommutesWithClean(v, Merge(Elements(env), src, true), biz);
    assert Elements(DefaultEnvs(v, env, cfg)) == DecodeAll(v, Merge(Elements(env), src, true));
  }

  lemma MergedIntoNothing(src: Envs)
    ensures Merge([], src, true) == [] <==> src == []
  {
    if src != [] {
      MergeNames([], src, true);
      assert Names(src)[0] in Union(Names([]), Names(src));
    }
  }

  /** Defaulting an environment that is not there leaves business variables only exactly when the
      configuration has no others. */
  lemma DefaultsFromNothing(v: Values, cfg: Config, biz: set<string>)
    ensures Clean(Elements(DefaultEnvs(v, None, cfg)), biz) == [] <==> Clean(cfg.env, biz) == []
  {
    CleanedDefaultsOf(v, None, cfg, biz);
    DecodeCommutesWithClean(v, cfg.env, biz);
    MergedIntoNothing(Clean(DecodeAll(v, cfg.env), biz));
  }

  /** Only an environment that stays empty is explicitly empty after defaulting. */
  lemma EmptyAfterDefaults(v: Values, env: Option<Envs>, cfg: Config)
    requires DefaultEnvs(v, env, cfg) == Some([])
    ensures cfg.env == []
  {
    if cfg.env != [] { SomethingAfterDefaults(v, env, cfg); }
  }

  lemma SomethingAfterDefaults(v: Values, env: Option<Envs>, cfg: Config)
    requires cfg.env != []
    ensures Elements(DefaultEnvs(v, env, cfg)) != []
  {
    var src := DecodeAll(v, cfg.env);
    MergeNames(Elements(env), src, true);
    assert Names(src)[0] in Union(Names(Elements(env)), Names(src));
  }

  lemma SecondPassEnv(boot: Boot, cfg: Config, once: Boot, again: Boot, biz: set<string>)
    requires Outcome(boot, cfg, once) && Outcome(Stored(once), cfg, again)
    ensures Clean(Elements(again.spec.env), biz) == Clean(Elements(once.spec.env), biz)
            <==> !EnvForgotten(boot, cfg, biz)
  {
    var plain, w := DefaultPlain(boot.spec, cfg), Stored(once);
    var env := DefaultEnvStage(boot, plain, boot.annotations, cfg);
    EnvKeptAlike(boot.spec, boot.annotations, plain, boot.annotations, cfg);
    LaterStagesKeepKey(BootValues(boot, cfg), env.spec, env.annotations, plain.workload, cfg, BootEnvs);
    LaterStagesKeepKey(BootValues(boot, cfg), env.spec, env.annotations, plain.workload, cfg, BootImages);
    if once.spec.env != Some([]) {
      EnvSettles(boot, cfg, once);
      EnvKeptAlike(once.spec, once.annotations, DefaultPlain(w.spec, cfg), w.annotations, cfg);
    } else {
      var v := BootValues(w.(spec := DefaultPlain(w.spec, cfg)), cfg);
      DefaultsFromNothing(v, cfg, biz);
      if !EnvKept(boot.spec, boot.annotations, cfg) {
        EmptyAfterDefaults(BootValues(boot.(spec := plain), cfg), boot.spec.env, cfg);
      }
    }
  }

  /** Main result: the operator's write of a defaulted boot, as the API server returns it and defaulted
      again, has the normal form that was recorded exactly when no empty list is dropped and no empty
      environment is forgotten. */
  lemma WrittenFormIsRecordedForm(boot: Boot, cfg: Config, biz: set<string>)
    requires DefaultsWellFormed(cfg)
    ensures HashInput(SetDefaults(Stored(SetDefaults(boot, cfg)), cfg), biz) == HashInput(SetDefaults(boot, cfg), biz)
            <==> FormKept(boot, cfg, biz)
  {
    var once := SetDefaults(boot, cfg);
    OutcomeHolds(boot, cfg);
    OutcomeHolds(Stored(once), cfg);
    FormExactly(boot, cfg, once, SetDefaults(Stored(once), cfg), biz);
  }

  /** The same, said of the hashes under which request and write are recorded. */
  lemma StoredFormIsRecordedForm(boot: Boot, cfg: Config, biz: set<string>)
    requires DefaultsWellFormed(cfg)
    ensures (forall hash: NormalForm -> string ::
               RecordHash(Stored(SetDefaults(boot, cfg)), cfg, biz, hash) == RecordHash(boot, cfg, biz, hash))
            <==> FormKept(boot, cfg, biz)
  {
    WrittenFormIsRecordedForm(boot, cfg, biz);
    TellingHash(boot, Stored(SetDefaults(boot, cfg)), cfg, biz);
  }

  /** Forms are equal exactly when no hash tells them apart. */
  lemma TellingHash(a: Boot, b: Boot, cfg: Config, biz: set<string>)
    ensures (forall hash: NormalForm -> string :: RecordHash(b, cfg, biz, hash) == RecordHash(a, cfg, biz, hash))
            <==> HashInput(SetDefaults(b, cfg), biz) == HashInput(SetDefaults(a, cfg), biz)
  {
    var x, y := HashInput(SetDefaults(a, cfg), biz), HashInput(SetDefaults(b, cfg), biz);
    var telling := SomeHashTells(x, y);
    forall hash: NormalForm -> string
      ensures RecordHash(b, cfg, biz, hash) == RecordHash(a, cfg, biz, hash) <==> hash(y) == hash(x)
    {
      HashOfForm(a, cfg, biz, hash, x);
      HashOfForm(b, cfg, biz, hash, y);
    }
    assert RecordHash(b, cfg, biz, telling) == RecordHash(a, cfg, biz, telling) <==> telling(y) == telling(x);
  }

  lemma HashOfForm(boot: Boot, cfg: Config, biz: set<string>, hash: NormalForm -> string, form: NormalForm)
    requires form == HashInput(SetDefaults(boot, cfg), biz)
    ensures RecordHash(boot, cfg, biz, hash) == hash(form)
  {
  }

  lemma SomeHashTells(x: NormalForm, y: NormalForm) returns (hash: NormalForm -> string)
    ensures hash(y) == hash(x) <==> y == x
  {
    hash := (f: NormalForm) => if f == x then "a" else "b";
  }

  /** Main result: after a request was recorded, the operator's own writes, with whatever status and
      other annotations the boot has by then, leave the log alone for every hash exactly under the same
      condition. */
  lemma WriteBackAddsNoRevision(boot: Boot, later: Boot, cfg: Config, biz: set<string>,
                                log: Log, base: string, maxHistory: nat)
    requires DefaultsWellFormed(cfg) && maxHistory >= 1
    requires SameRequest(Stored(SetDefaults(boot, cfg)), later)
    ensures (forall hash: NormalForm -> string ::
               var recorded := Recorded(log, base, RecordHash(boot, cfg, biz, hash), maxHistory);
               Recorded(recorded, base, RecordHash(later, cfg, biz, hash), maxHistory) == recorded)
            <==> FormKept(boot, cfg, biz)
  {
    SameRequestSameForm(Stored(SetDefaults(boot, cfg)), later, cfg, biz);
    StoredFormIsRecordedForm(boot, cfg, biz);
    forall hash: NormalForm -> string
      ensures var recorded := Recorded(log, base, RecordHash(boot, cfg, biz, hash), maxHistory);
              Recorded(recorded, base, RecordHash(later, cfg, biz, hash), maxHistory) == recorded
              <==> RecordHash(Stored(SetDefaults(boot, cfg)), cfg, biz, hash) == RecordHash(boot, cfg, biz, hash)
    {
      RecordTwice(log, base, RecordHash(boot, cfg, biz, hash), RecordHash(later, cfg, biz, hash), maxHistory);
    }
  }

  lemma FormExactly(boot: Boot, cfg: Config, once: Boot, again: Boot, biz: set<string>)
    requires DefaultsWellFormed(cfg)
    requires Outcome(boot, cfg, once) && Outcome(Stored(once), cfg, again)
    ensures HashInput(again, biz) == HashInput(once, biz)
            <==> FormKept(boot, cfg, biz)
  {
    ProfileStays(Stored(once), cfg, again);
    SecondPassPlain(boot, cfg, once, again);
    SecondPassEnv(boot, cfg, once, again, biz);
    DroppedExactly(boot, cfg, once);
    SameFormExactly(once, again, biz);
  }

  lemma SameFormExactly(once: Boot, again: Boot, biz: set<string>)
    requires PlainAgain(once.spec, again.spec)
    requires again.name == once.name && again.namespace == once.namespace && again.bootType == once.bootType
    requires Read'(again.annotations, ProfileKey) == Read'(once.annotations, ProfileKey)
    ensures HashInput(again, biz) == HashInput(once, biz)
            <==> && once.spec.limits != Some(map[]) && once.spec.requests != Some(map[])
                 && once.spec.nodeSelector != Some(map[]) && once.spec.command != Some([]) && once.spec.pvc != Some([])
                 && Clean(Elements(again.spec.env), biz) == Clean(Elements(once.spec.env), biz)
  {
  }

  /** Which explicitly empty lists are left after a pass. */
  lemma DroppedExactly(boot: Boot, cfg: Config, once: Boot)
    requires Outcome(boot, cfg, once)
    ensures NothingDropped(boot.spec, cfg)
            <==> && once.spec.limits != Some(map[]) && once.spec.requests != Some(map[])
                 && once.spec.nodeSelector != Some(map[]) && once.spec.command != Some([]) && once.spec.pvc != Some([])
  {
    var limits, filled := DefaultLimits(boot.spec, cfg), FillResources(boot.spec.requests, cfg.requests);
    FillKeepsEntries(boot.spec.limits, cfg.limits);
    FillKeepsEntries(boot.spec.requests, cfg.requests);
    CapKeepsEntries(filled, limits, Cpu);
    CapKeepsEntries(Cap(filled, limits, Cpu), limits, Memory);
    SelectorKeepsEntries(boot.spec.nodeSelector, cfg.nodeSelector);
  }

  ghost predicate CountsTwice(boot: Boot, cfg: Config, biz: set<string>) {
    HashInput(SetDefaults(Stored(SetDefaults(boot, cfg)), cfg), biz) != HashInput(SetDefaults(boot, cfg), biz)
  }

  lemma EmptyCommandTells(boot: Boot, cfg: Config)
    requires DefaultsWellFormed(cfg) && boot.spec.command == Some([])
    ensures exists b: Boot, c: Config :: b.spec.command == Some([]) && CountsTwice(b, c, {})
  {
    WrittenFormIsRecordedForm(boot, cfg, {});
    assert CountsTwice(boot, cfg, {});
  }

  /** A boot on which the condition fails: the request with `command: []` and the operator's write of it
      have two normal forms. */
  lemma EmptyCommandCountsTwice()
    ensures exists boot: Boot, cfg: Config :: boot.spec.command == Some([]) && CountsTwice(boot, cfg, {})
  {
    EmptyCommandTells(BlankBoot().(spec := BlankBoot().spec.(command := Some([]))), PlainConfig());
  }

  lemma ForgottenEnvTells(boot: Boot, cfg: Config, e: EnvVar)
    requires DefaultsWellFormed(cfg) && NothingDropped(boot.spec, cfg) && boot.spec.env == Some([]) && cfg.env == [e]
    requires boot.annotations == map[BootEnvs := EnvJson(Some([])), BootImages := Plain(ImageName(boot.spec, cfg))]
    ensures exists b: Boot, c: Config :: NothingDropped(b.spec, c) && CountsTwice(b, c, {})
  {
    ImageNameIsText(boot.spec, cfg);
    assert EnvKept(boot.spec, boot.annotations, cfg);
    assert Clean(cfg.env, {}) == [e];
    WrittenFormIsRecordedForm(boot, cfg, {});
    assert CountsTwice(boot, cfg, {});
  }

  lemma ImageNameIsText(spec: BootSpec, cfg: Config)
    ensures ImageName(spec, cfg) != ""
  {
  }

  /** Another one, with `env: []` recorded and a variable that the configuration has since. */
  lemma ForgottenEnvCountsTwice(e: EnvVar)
    ensures exists boot: Boot, cfg: Config :: NothingDropped(boot.spec, cfg) && CountsTwice(boot, cfg, {})
  {
    var cfg, spec := PlainConfig().(env := [e]), BlankBoot().spec.(env := Some([]));
    var annotations := map[BootEnvs := EnvJson(Some([])), BootImages := Plain(ImageName(spec, cfg))];
    ForgottenEnvTells(BlankBoot().(spec := spec, annotations := annotations), cfg, e);
  }

  // --------------------------------------------------------------------------
  // Scaling and business variables.

  /** Boots that differ in replicas, status, annotations other than the profile, and business
      variables have one normal form. */
  lemma ScalingDoesNotShow(boot: Boot, other: Boot, biz: set<string>)
    requires other == boot.(spec := boot.spec.(replicas := other.spec.replicas, env := other.spec.env),
                            status := other.status, annotations := other.annotations)
    requires Read'(other.annotations, ProfileKey) == Read'(boot.annotations, ProfileKey)
    requires Clean(Elements(other.spec.env), biz) == Clean(Elements(boot.spec.env), biz)
    ensures HashInput(other, biz) == HashInput(boot, biz)
  {
  }

  /** Defaulting an environment twice is defaulting it once. */
  lemma EnvDefaultsOnce(v: Values, env: Option<Envs>, cfg: Config)
    requires SafeValues(v)
    ensures DefaultEnvs(v, DefaultEnvs(v, env, cfg), cfg) == DefaultEnvs(v, env, cfg)
  {
    var src, list := DecodeAll(v, cfg.env), Elements(env);
    DecodeAllEliminates(v, v, cfg.env);
    if src == [] {
      if env.Some? { DecodeAllEliminates(v, v, list); }
    } else {
      var once := Merge(DecodeAll(v, list), src, true);
      DecodeCommutesWithMerge(v, list, src);
      assert DefaultEnvs(v, env, cfg) == Some(once);
      DecodeCommutesWithMerge(v, once, src);
      DecodeAllEliminates(v, v, Merge(list, src, true));
      MergeIdempotent(DecodeAll(v, list), src, true);
    }
  }

  /** Main result: a defaulted boot may be scaled and its business variables edited, and the edited
      request, defaulted again, is recorded under the same hash. */
  lemma ScalingAddsNoRevision(boot: Boot, edited: Boot, cfg: Config, biz: set<string>)
    requires SafeNames(boot, cfg)
    requires !NeedsDefaults(boot, cfg)
    requires DefaultEnvs(BootValues(boot, cfg), boot.spec.env, cfg) == boot.spec.env
    requires edited == boot.(spec := boot.spec.(replicas := edited.spec.replicas, env := edited.spec.env))
    requires Clean(Elements(edited.spec.env), biz) == Clean(Elements(boot.spec.env), biz)
    ensures HashInput(SetDefaults(edited, cfg), biz) == HashInput(SetDefaults(boot, cfg), biz)
  {
    var again := SetDefaults(edited, cfg);
    FalseMeansUnchanged(boot, cfg);
    QuietExactly(boot, cfg);
    OutcomeHolds(edited, cfg);
    EditedOutcome(boot, edited, cfg, again);
    ProfileStays(edited, cfg, again);
    CleanedDefaults(BootValues(boot, cfg), edited.spec.env, boot.spec.env, cfg, biz);
    ScalingDoesNotShow(boot, again, biz);
  }

  /** In particular a boot whose environment was just defaulted. */
  lemma ScaledDefaultsAddNoRevision(boot: Boot, edited: Boot, cfg: Config, biz: set<string>)
    requires DefaultsWellFormed(cfg) && SafeNames(boot, cfg) && PassSettled(boot, cfg)
    requires !EnvKept(boot.spec, boot.annotations, cfg)
    requires var once := SetDefaults(boot, cfg);
             && edited == once.(spec := once.spec.(replicas := edited.spec.replicas, env := edited.spec.env))
             && Clean(Elements(edited.spec.env), biz) == Clean(Elements(once.spec.env), biz)
    ensures HashInput(SetDefaults(edited, cfg), biz) == HashInput(SetDefaults(boot, cfg), biz)
  {
    var once := SetDefaults(boot, cfg);
    OutcomeHolds(boot, cfg);
    DefaultedEnvIsDefault(boot, cfg, once);
    DefaultingIsFixpoint(boot, cfg);
    ScalingAddsNoRevision(once, edited, cfg, biz);
  }

  lemma DefaultedEnvIsDefault(boot: Boot, cfg: Config, once: Boot)
    requires SafeNames(boot, cfg) && Outcome(boot, cfg, once) && !EnvKept(boot.spec, boot.annotations, cfg)
    ensures SafeNames(once, cfg) && DefaultEnvs(BootValues(once, cfg), once.spec.env, cfg) == once.spec.env
  {
    var plain := DefaultPlain(boot.spec, cfg);
    EnvKeptAlike(boot.spec, boot.annotations, plain, boot.annotations, cfg);
    EnvDefaultsOnce(BootValues(boot.(spec := plain), cfg), boot.spec.env, cfg);
  }

  lemma EditedOutcome(boot: Boot, edited: Boot, cfg: Config, again: Boot)
    requires Quiet(boot, cfg)
    requires edited == boot.(spec := boot.spec.(replicas := edited.spec.replicas, env := edited.spec.env))
    requires Outcome(edited, cfg, again)
    ensures again.spec == boot.spec.(replicas := again.spec.replicas, env := again.spec.env)
    ensures again.spec.env == edited.spec.env || again.spec.env == DefaultEnvs(BootValues(boot, cfg), edited.spec.env,
            cfg)
  {
    PlainUnchanged(boot.spec, cfg);
    var plain := DefaultPlain(edited.spec, cfg);
    assert plain == boot.spec.(replicas := plain.replicas, env := edited.spec.env) by {
      EditedPlain(boot.spec, edited.spec, cfg);
    }
    assert BootValues(edited.(spec := plain), cfg) == BootValues(boot, cfg);
  }

  /** The plain defaults read neither replicas nor environment, except for the replicas themselves. */
  lemma EditedPlain(spec: BootSpec, edited: BootSpec, cfg: Config)
    requires edited == spec.(replicas := edited.replicas, env := edited.env)
    ensures DefaultPlain(edited, cfg)
            == DefaultPlain(spec, cfg).(replicas := DefaultPlain(edited, cfg).replicas, env := edited.env)
  {
  }
}
