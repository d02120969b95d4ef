/** The other half of one request, one revision: which edits of a boot must show in the revision log. */
module Edits {
  import opened Wrappers
  import opened EnvList
  import opened Types
  import opened Defaulter
  import opened DefaulterLaws
  import opened RevisionLog
  import opened RevisionHash
  import opened Filling
  import S = Services
  import opened Cluster
  import opened StageLaws
  import opened Convergence
  import opened Recording

  // --------------------------------------------------------------------------
  // The normal form.

  /** Everything a release is made of: all but replicas, status, business variables and annotations
      other than the profile. */
  ghost predicate SameRelease(a: Boot, b: Boot, biz: set<string>) {
    && a.name == b.name && a.namespace == b.namespace && a.bootType == b.bootType
    && Read'(a.annotations, ProfileKey) == Read'(b.annotations, ProfileKey)
    && SameUserFields(a.spec, b.spec)
    && a.spec.port == b.spec.port && a.spec.subDomain == b.spec.subDomain && a.spec.health == b.spec.health
    && a.spec.prometheus == b.spec.prometheus && a.spec.limits == b.spec.limits && a.spec.requests == b.spec.requests
    && a.spec.nodeSelector == b.spec.nodeSelector && a.spec.workload == b.spec.workload && a.spec.hpa == b.spec.hpa
    && Clean(Elements(a.spec.env), biz) == Clean(Elements(b.spec.env), biz)
  }

  /** Main result: two boots have one normal form exactly when they are the same release. */
  lemma FormsAgreeExactly(a: Boot, b: Boot, biz: set<string>)
    ensures HashInput(a, biz) == HashInput(b, biz) <==> SameRelease(a, b, biz)
  {
    var x, y := HashInput(a, biz).spec, HashInput(b, biz).spec;
    if SameRelease(a, b, biz) { assert x == y; }
  }

  // --------------------------------------------------------------------------
  // Edits of a request, before defaults are set.

  /** The requests differ in something that defaulting leaves alone: what it never sets, or what both
      have set. */
  ghost predicate EditShows(a: Boot, b: Boot) {
    || a.name != b.name || a.namespace != b.namespace || a.bootType != b.bootType
    || Read'(a.annotations, ProfileKey) != Read'(b.annotations, ProfileKey)
    || !SameUserFields(a.spec, b.spec)
    || SettingShows(a.spec, b.spec)
    || LimitShows(a.spec, b.spec, Cpu) || LimitShows(a.spec, b.spec, Memory)
  }

  predicate SettingShows(a: BootSpec, b: BootSpec) {
    || (a.port > 0 && b.port > 0 && a.port != b.port)
    || (a.subDomain != "" && b.subDomain != "" && a.subDomain != b.subDomain)
    || (a.health.Some? && b.health.Some? && a.health != b.health)
    || (a.prometheus != "" && b.prometheus != "" && a.prometheus != b.prometheus)
    || (!a.workload.OtherWorkload? && !b.workload.OtherWorkload? && a.workload != b.workload)
    || (a.hpa != b.hpa && !(a.hpa.Some? && a.hpa.value.enable) && !(b.hpa.Some? && b.hpa.value.enable))
  }

  predicate LimitShows(a: BootSpec, b: BootSpec, name: ResourceName) {
    Quantity(a.limits, name) != 0 && Quantity(b.limits, name) != 0
    && Quantity(a.limits, name) != Quantity(b.limits, name)
  }

  lemma UserEditShows(a: Boot, b: Boot, cfg: Config, biz: set<string>)
    requires SameRelease(SetDefaults(a, cfg), SetDefaults(b, cfg), biz)
    ensures a.name == b.name && a.namespace == b.namespace && a.bootType == b.bootType
    ensures Read'(a.annotations, ProfileKey) == Read'(b.annotations, ProfileKey) && SameUserFields(a.spec, b.spec)
  {
    UserFieldsStay(a, cfg);
    UserFieldsStay(b, cfg);
    OutcomeHolds(a, cfg);
    OutcomeHolds(b, cfg);
    ProfileStays(a, cfg, SetDefaults(a, cfg));
    ProfileStays(b, cfg, SetDefaults(b, cfg));
  }

  lemma SettingEditShows(a: Boot, b: Boot, cfg: Config, biz: set<string>)
    requires SameRelease(SetDefaults(a, cfg), SetDefaults(b, cfg), biz)
    ensures !SettingShows(a.spec, b.spec)
    ensures !LimitShows(a.spec, b.spec, Cpu) && !LimitShows(a.spec, b.spec, Memory)
  {
    OwnSettingsStay(a, cfg);
    OwnSettingsStay(b, cfg);
    LimitsAreFilled(a, cfg, Cpu);
    LimitsAreFilled(b, cfg, Cpu);
    LimitsAreFilled(a, cfg, Memory);
    LimitsAreFilled(b, cfg, Memory);
  }

  /** Defaulting hides no such edit. */
  lemma EditIsAnotherRelease(a: Boot, b: Boot, cfg: Config, biz: set<string>)
    requires EditShows(a, b)
    ensures !SameRelease(SetDefaults(a, cfg), SetDefaults(b, cfg), biz)
  {
    if SameRelease(SetDefaults(a, cfg), SetDefaults(b, cfg), biz) {
      UserEditShows(a, b, cfg, biz);
      SettingEditShows(a, b, cfg, biz);
    }
  }

  // --------------------------------------------------------------------------
  // The log.

  /** The log has one more revision, with that hash and the next number; of those there were it keeps the
      newest, with the same numbers and hashes. */
  ghost predicate OneMoreRevision(before: Log, after: Log, base: string, hash: string, maxHistory: nat)
    requires maxHistory >= 1 && before != []
  {
    var kept := if |before| < maxHistory then |before| else maxHistory - 1;
    && |after| == kept + 1
    && Last(after) == NewRevision(base, LastId(before) + 1, hash)
    && forall i :: 0 <= i < kept ==>
         var was := before[|before| - kept + i];
         after[i] == was.(phase := after[i].phase)
  }

  lemma AnotherHashIsOneMore(log: Log, base: string, hash: string, maxHistory: nat)
    requires maxHistory >= 1 && log != []
    ensures Recorded(log, base, hash, maxHistory) == log <==> hash == Last(log).hash
    ensures hash != Last(log).hash ==>
              OneMoreRevision(log, Recorded(log, base, hash, maxHistory), base, hash, maxHistory)
  {
    if hash != Last(log).hash {
      var r := NewRevision(base, LastId(log) + 1, hash);
      assert r.hash == hash;
      GrownAndTrimmed(log, Superseded(Last(log)), r, maxHistory);
    }
  }

  lemma GrownAndTrimmed(log: Log, ended: Revision, r: Revision, maxHistory: nat)
    requires maxHistory >= 1 && log != []
    ensures var kept := if |log| < maxHistory then |log| else maxHistory - 1;
            var after := Suffix(log[..|log| - 1] + [ended, r], maxHistory);
            && |after| == kept + 1 && Last(after) == r
            && forall i :: 0 <= i < kept ==> after[i] == if i == kept - 1 then ended else log[|log| - kept + i]
  {
  }

  /** The hash tells these two normal forms apart. */
  ghost predicate Tells(hash: NormalForm -> string, x: NormalForm, y: NormalForm) {
    hash(x) == hash(y) ==> x == y
  }

  /** The hash tells the two requests apart, defaults set, if they are two releases. */
  ghost predicate TellsRequests(hook: Hook, a: Boot, b: Boot, cfg: Config) {
    Tells(hook.hash, HashInput(SetDefaults(a, cfg), hook.biz), HashInput(SetDefaults(b, cfg), hook.biz))
  }

  lemma HashesAgreeExactly(a: Boot, b: Boot, cfg: Config, hook: Hook)
    requires TellsRequests(hook, a, b, cfg)
    ensures RecordHash(a, cfg, hook.biz, hook.hash) == RecordHash(b, cfg, hook.biz, hook.hash)
            <==> SameRelease(SetDefaults(a, cfg), SetDefaults(b, cfg), hook.biz)
  {
    FormsAgreeExactly(SetDefaults(a, cfg), SetDefaults(b, cfg), hook.biz);
  }

  /** Main result: once a request was recorded, an edited one leaves the log alone exactly when it is the
      same release, and else adds exactly one revision. */
  lemma EditIsOneRevisionExactly(boot: Boot, edited: Boot, cfg: Config, hook: Hook, log: Log)
    requires hook.maxHistory >= 1 && log != [] && TellsRequests(hook, boot, edited, cfg)
    requires Last(log).hash == RecordHash(boot, cfg, hook.biz, hook.hash)
    ensures var hash := RecordHash(edited, cfg, hook.biz, hook.hash);
            var after := Recorded(log, hook.base, hash, hook.maxHistory);
            if SameRelease(SetDefaults(boot, cfg), SetDefaults(edited, cfg), hook.biz) then after == log
            else OneMoreRevision(log, after, hook.base, hash, hook.maxHistory)
  {
    HashesAgreeExactly(boot, edited, cfg, hook);
    AnotherHashIsOneMore(log, hook.base, RecordHash(edited, cfg, hook.biz, hook.hash), hook.maxHistory);
  }

  /** Main result: after a recorded request and any run of the loop, a visible edit of the boot that is
      there adds exactly one revision to those of the request. */
  lemma EditAfterRunIsOneRevision(s: State, cfg: Config, hook: Hook, allocs: seq<S.Allocator>, edited: Boot)
    requires Workable(s, cfg) && DefaultsWellFormed(cfg) && Logged(s, cfg, hook) && hook.maxHistory >= 1
    requires var there := After(s, cfg, allocs).boot;
             EditShows(there, edited) && TellsRequests(hook, there, edited, cfg)
    ensures var there := After(s, cfg, allocs);
            var admitted := Admitted(there.(boot := edited), cfg, hook);
            && SameNumbers(s.revisions, there.revisions) && there.revisions != []
            && OneMoreRevision(there.revisions, admitted.revisions, hook.base,
                               RecordHash(edited, cfg, hook.biz, hook.hash), hook.maxHistory)
  {
    var there := After(s, cfg, allocs);
    RunAddsNoRevision(s, cfg, hook, allocs);
    EditIsAnotherRelease(there.boot, edited, cfg, hook.biz);
    EditIsOneRevisionExactly(there.boot, edited, cfg, hook, there.revisions);
  }
}
