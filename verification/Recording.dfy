/** Loop and webhook together: every write of the boot passes the admission webhook, which records its
    normal form. A request that was recorded stays the newest revision, however often the loop runs. */
module Recording {
  import opened Wrappers
  import opened Strconv
  import opened EnvList
  import opened Types
  import opened Defaulter
  import opened DefaulterLaws
  import opened Workloads
  import S = Services
  import opened RevisionLog
  import opened RevisionLaws
  import opened RevisionHash
  import opened Cluster
  import opened StageLaws
  import opened LateLaws
  import opened Convergence

  /** What the webhook knows: the business variables, the hash, the name of the revisions and how many
      are kept. */
  datatype Hook = Hook(biz: set<string>, hash: NormalForm -> string, base: string, maxHistory: nat)

  /** The state after the webhook has recorded the boot that is there now. */
  function Admitted(s: State, cfg: Config, hook: Hook): State {
    s.(revisions := Recorded(s.revisions, hook.base, RecordHash(s.boot, cfg, hook.biz, hook.hash), hook.maxHistory))
  }

  /** One call of Reconcile whose write of the boot, if it makes one, passes the webhook. */
  ghost function HookedCall(s: State, cfg: Config, alloc: S.Allocator, hook: Hook): State
    requires Workable(s, cfg)
  {
    WorkableIsWellFormed(s, cfg);
    var next := Reconcile(s, cfg, alloc).state;
    if next.boot != s.boot then Admitted(next, cfg, hook) else next
  }

  /** The newest revision was recorded from the boot that is there, and it survives being written. */
  ghost predicate Logged(s: State, cfg: Config, hook: Hook) {
    && IsLog(s.revisions, hook.base) && s.revisions != []
    && Last(s.revisions).hash == RecordHash(s.boot, cfg, hook.biz, hook.hash)
    && FormKept(s.boot, cfg, hook.biz)
  }

  predicate SameNumbers(a: Log, b: Log) {
    |a| == |b| && forall i :: 0 <= i < |a| ==> GetRevisionId(a[i]) == GetRevisionId(b[i]) && a[i].hash == b[i].hash
  }

  /** An admitted request is logged. */
  lemma AdmittedIsLogged(s: State, cfg: Config, hook: Hook)
    requires Sound(s.revisions, hook.base, hook.maxHistory) && hook.maxHistory >= 1 && LastId(s.revisions) < MAX_INT
    requires FormKept(s.boot, cfg, hook.biz)
    ensures Logged(Admitted(s, cfg, hook), cfg, hook)
  {
    RecordedIsNewest(s.revisions, hook.base, RecordHash(s.boot, cfg, hook.biz, hook.hash), hook.maxHistory);
  }

  lemma RecordedIsNewest(log: Log, base: string, hash: string, maxHistory: nat)
    requires Sound(log, base, maxHistory) && maxHistory >= 1 && LastId(log) < MAX_INT
    ensures var recorded := Recorded(log, base, hash, maxHistory);
            IsLog(recorded, base) && recorded != [] && Last(recorded).hash == hash
  {
    RecordedIsSound(log, base, hash, maxHistory);
  }

  // --------------------------------------------------------------------------
  // The boot.

  lemma WrittenIsKept(boot: Boot, cfg: Config, hook: Hook)
    requires DefaultsWellFormed(cfg) && FormKept(boot, cfg, hook.biz)
    ensures RecordHash(Written(boot, cfg), cfg, hook.biz, hook.hash) == RecordHash(boot, cfg, hook.biz, hook.hash)
    ensures FormKept(Written(boot, cfg), cfg, hook.biz)
  {
    StoredFormIsRecordedForm(boot, cfg, hook.biz);
    StoredIsKept(SetDefaults(boot, cfg), cfg, hook.biz);
  }

  lemma StoredIsKept(boot: Boot, cfg: Config, biz: set<string>)
    ensures FormKept(Stored(boot), cfg, biz)
  {
  }

  lemma MetaIsSameRequest(a: Boot, b: Boot)
    requires MetaSame(a, b)
    ensures SameRequest(a, b)
  {
  }

  lemma SameRequestIsKept(a: Boot, b: Boot, cfg: Config, hook: Hook)
    requires SameRequest(a, b)
    ensures RecordHash(b, cfg, hook.biz, hook.hash) == RecordHash(a, cfg, hook.biz, hook.hash)
    ensures FormKept(b, cfg, hook.biz) == FormKept(a, cfg, hook.biz)
  {
    SameRequestSameForm(a, b, cfg, hook.biz);
    EnvKeptAlike(a.spec, a.annotations, b.spec, b.annotations, cfg);
  }

  /** What the late stages write of a boot with its defaults set. */
  lemma MetaIsKept(boot: Boot, next: Boot, cfg: Config, hook: Hook)
    requires DefaultsWellFormed(cfg) && FormKept(boot, cfg, hook.biz)
    requires !NeedsDefaults(boot, cfg) && MetaOnly(boot, next)
    ensures RecordHash(next, cfg, hook.biz, hook.hash) == RecordHash(boot, cfg, hook.biz, hook.hash)
    ensures FormKept(next, cfg, hook.biz)
  {
    FalseMeansUnchanged(boot, cfg);
    WrittenIsKept(boot, cfg, hook);
    var before := if MetaSame(boot, next) then boot else Stored(boot);
    MetaIsSameRequest(before, next);
    SameRequestIsKept(before, next, cfg, hook);
  }

  // --------------------------------------------------------------------------
  // The revisions.

  /** The loop itself changes no more than the phase of the newest revision. */
  ghost predicate PhaseOnly(s: State, next: State)
    requires s.boot.spec.replicas.Some?
  {
    next.revisions == s.revisions || next.revisions == PhasedRevisions(s)
  }

  lemma LatePhaseOnly(s: State, cfg: Config)
    requires DefaultsSet(s.boot.spec)
    ensures PhaseOnly(s, LateStages(s, cfg).state)
  {
    MetaWrites(s, cfg);
  }

  lemma ServicesPhaseOnly(s: State, cfg: Config, alloc: S.Allocator)
    requires DefaultsSet(s.boot.spec) && ServicesReady(s, cfg)
    ensures PhaseOnly(s, ServiceStages(s, cfg, alloc).state)
  {
    var app := AppUpdated(s, cfg, alloc);
    LatePhaseOnly(s.(services := app), cfg);
    PhasesIgnoreServices(s, app);
    ServiceRevisions(s, cfg, alloc);
  }

  lemma ServiceRevisions(s: State, cfg: Config, alloc: S.Allocator)
    requires DefaultsSet(s.boot.spec) && ServicesReady(s, cfg)
    ensures var after := ServiceStages(s, cfg, alloc).state.revisions;
            || after == s.revisions
            || after == LateStages(s.(services := AppUpdated(s, cfg, alloc)), cfg).state.revisions
  {
  }

  lemma PhasesIgnoreServices(s: State, services: S.ServiceMap)
    requires s.boot.spec.replicas.Some?
    ensures PhasedRevisions(s.(services := services)) == PhasedRevisions(s)
  {
  }

  lemma ConvergePhaseOnly(s: State, cfg: Config, alloc: S.Allocator)
    requires WellFormedState(s) && ConfigComplete(cfg) && OwnNames(s, cfg) && DefaultsSet(s.boot.spec)
    ensures PhaseOnly(s, Converge(s, cfg, alloc).state)
  {
    if !Missing(s) {
      ReadyForServices(s, cfg);
      ServicesPhaseOnly(s, cfg, alloc);
    }
  }

  lemma PhasedIsLog(s: State, base: string)
    requires s.boot.spec.replicas.Some? && IsLog(s.revisions, base) && s.revisions != []
    ensures var phased := PhasedRevisions(s);
            IsLog(phased, base) && phased != [] && Last(phased).hash == Last(s.revisions).hash
            && SameNumbers(s.revisions, phased)
  {
    LogWith(s.revisions, base, LatestIndex(s.revisions), PhaseOf(s));
  }

  // --------------------------------------------------------------------------
  // The run.

  /** Main result: the webhook has nothing to record of a call, whatever the call writes. */
  lemma CallAddsNoRevision(s: State, cfg: Config, alloc: S.Allocator, hook: Hook)
    requires Workable(s, cfg) && DefaultsWellFormed(cfg) && Logged(s, cfg, hook)
    ensures WellFormedState(s) && ConfigComplete(cfg) && OwnNames(s, cfg)
    ensures var next := Reconcile(s, cfg, alloc).state;
            && HookedCall(s, cfg, alloc, hook) == next
            && Logged(next, cfg, hook) && SameNumbers(s.revisions, next.revisions)
  {
    WorkableIsWellFormed(s, cfg);
    if NeedsDefaults(s.boot, cfg) {
      WrittenIsKept(s.boot, cfg, hook);
    } else {
      NoDefaultsNeeded(s.boot, cfg);
      ConvergeIsLogged(s, cfg, alloc, hook);
    }
  }

  lemma ConvergeIsLogged(s: State, cfg: Config, alloc: S.Allocator, hook: Hook)
    requires Behind(s, cfg) && DefaultsWellFormed(cfg) && Logged(s, cfg, hook) && !NeedsDefaults(s.boot, cfg)
    ensures WellFormedState(s) && OwnNames(s, cfg)
    ensures var next := Converge(s, cfg, alloc).state;
            Logged(next, cfg, hook) && SameNumbers(s.revisions, next.revisions)
  {
    ConvergeStays(s, cfg, alloc);
    ConvergePhaseOnly(s, cfg, alloc);
    MetaIsKept(s.boot, Converge(s, cfg, alloc).state.boot, cfg, hook);
    PhasedIsLog(s, hook.base);
  }

  ghost function HookedAfter(s: State, cfg: Config, hook: Hook, allocs: seq<S.Allocator>): (r: State)
    requires Workable(s, cfg)
    ensures Workable(r, cfg)
    decreases |allocs|
  {
    if allocs == [] then s
    else
      ReconcileStays(s, cfg, allocs[0]);
      HookedAfter(HookedCall(s, cfg, allocs[0], hook), cfg, hook, allocs[1..])
  }

  /** Main result: one recorded request is one revision. However often the loop runs, with the webhook in
      it or without, the same revisions are stored, and only the phase of the newest changes. */
  lemma {:induction false} RunAddsNoRevision(s: State, cfg: Config, hook: Hook, allocs: seq<S.Allocator>)
    requires Workable(s, cfg) && DefaultsWellFormed(cfg) && Logged(s, cfg, hook)
    ensures HookedAfter(s, cfg, hook, allocs) == After(s, cfg, allocs)
    ensures SameNumbers(s.revisions, After(s, cfg, allocs).revisions) && Logged(After(s, cfg, allocs), cfg, hook)
    decreases |allocs|
  {
    if allocs != [] {
      CallAddsNoRevision(s, cfg, allocs[0], hook);
      ReconcileStays(s, cfg, allocs[0]);
      RunAddsNoRevision(Reconcile(s, cfg, allocs[0]).state, cfg, hook, allocs[1..]);
    }
  }
}
