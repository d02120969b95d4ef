/** What the phases of the revisions tell: the newest is Active exactly when all its pods are ready, and a
    superseded one ended Complete exactly when they had been. */
module Phases {
  import opened Wrappers
  import opened Types
  import opened Defaulter
  import opened DefaulterLaws
  import S = Services
  import opened RevisionLog
  import opened RevisionLaws
  import H = Autoscaler
  import opened Cluster
  import opened StageLaws
  import opened LateLaws
  import opened Convergence
  import opened Recording

  /** As many pods are ready as there are, and as are wanted. */
  predicate AllPodsReady(s: State) {
    s.boot.spec.replicas == Some(s.ready) && s.current == s.ready
  }

  /** The revision with the largest number, and the last of those; the first one if none is numbered. */
  ghost predicate IsNewest(list: seq<Revision>, at: nat) {
    && at < |list|
    && if NoneNumbered(list) then at == 0
       else forall k :: 0 <= k < |list| ==>
              && GetRevisionId(list[k]) <= GetRevisionId(list[at])
              && (k > at ==> GetRevisionId(list[k]) < GetRevisionId(list[at]))
  }

  ghost predicate NoneNumbered(list: seq<Revision>) {
    forall k :: 0 <= k < |list| ==> GetRevisionId(list[k]) < 1
  }

  lemma NewestIsLatest(list: seq<Revision>, at: nat)
    requires IsNewest(list, at)
    ensures at == LatestIndex(list)
  {
    LatestMeans(list);
    if !NoneNumbered(list) {
      assert GetRevisionId(list[LatestIndex(list)]) == GetRevisionId(list[at]);
    }
  }

  // --------------------------------------------------------------------------
  // The newest revision.

  ghost predicate PhaseTells(r: Revision, ready: bool) {
    (r.phase == Active <==> ready) && (r.phase == Running <==> !ready)
  }

  lemma PhasedTells(s: State, at: nat)
    requires s.boot.spec.replicas.Some? && IsNewest(s.revisions, at)
    ensures var phased := PhasedRevisions(s);
            && |phased| == |s.revisions| && PhaseTells(phased[at], AllPodsReady(s))
            && phased[at] == s.revisions[at].(phase := phased[at].phase)
            && forall k :: 0 <= k < |phased| && k != at ==> phased[k] == s.revisions[k]
  {
    NewestIsLatest(s.revisions, at);
  }

  /** The meta stage leaves the newest revision Active exactly when all pods are ready, and Running
      otherwise; it changes no other revision. */
  lemma MetaStageTells(s: State, cfg: Config, at: nat)
    requires s.boot.spec.replicas.Some? && IsNewest(s.revisions, at)
    ensures var after := MetaStage(s, cfg).state.revisions;
            && |after| == |s.revisions| && PhaseTells(after[at], AllPodsReady(s))
            && forall k :: 0 <= k < |after| && k != at ==> after[k] == s.revisions[k]
  {
    PhasedTells(s, at);
  }

  /** Main result: whenever a call finds nothing to write, the phase of the newest revision says whether
      all pods are ready. */
  lemma QuietPhaseTells(s: State, cfg: Config, alloc: S.Allocator, at: nat)
    requires WellFormedState(s) && ConfigComplete(cfg) && OwnNames(s, cfg) && IsNewest(s.revisions, at)
    requires var call := Reconcile(s, cfg, alloc); !call.written && !call.failed
    ensures PhaseTells(s.revisions[at], AllPodsReady(s))
  {
    NoDefaultsNeeded(s.boot, cfg);
    QuietIsPhased(s, cfg, alloc);
    PhasedTells(s, at);
  }

  lemma QuietIsPhased(s: State, cfg: Config, alloc: S.Allocator)
    requires WellFormedState(s) && ConfigComplete(cfg) && OwnNames(s, cfg) && DefaultsSet(s.boot.spec)
    requires var call := Converge(s, cfg, alloc); !call.written && !call.failed
    ensures PhasedRevisions(s) == s.revisions
  {
    ReadyForServices(s, cfg);
    assert s.(services := AppUpdated(s, cfg, alloc)) == s;
    QuietLateIsPhased(s, cfg);
  }

  lemma QuietLateIsPhased(s: State, cfg: Config)
    requires DefaultsSet(s.boot.spec) && !LateStages(s, cfg).written
    ensures PhasedRevisions(s) == s.revisions
  {
  }

  // --------------------------------------------------------------------------
  // Superseded revisions.

  /** Recording another request ends the revision that is the newest now: Complete if its pods are ready,
      and Cancelled if not. The new one runs. */
  ghost predicate EndsAs(log: Log, base: string, hash: string, maxHistory: nat, ready: bool)
    requires log != []
  {
    var recorded := Recorded(log, base, hash, maxHistory);
    && |recorded| >= 2
    && recorded[|recorded| - 2] == Last(log).(phase := if ready then Complete else Cancelled)
    && Last(recorded).hash == hash && Last(recorded).phase == Running
  }

  lemma SupersededTells(log: Log, base: string, hash: string, maxHistory: nat, ready: bool)
    requires log != [] && Last(log).hash != hash && maxHistory >= 2 && PhaseTells(Last(log), ready)
    ensures EndsAs(log, base, hash, maxHistory, ready)
  {
  }

  lemma LastIsNewest(log: Log, base: string)
    requires IsLog(log, base) && log != []
    ensures IsNewest(log, |log| - 1)
  {
    assert WellNumbered(log[0], base) && GetRevisionId(log[0]) >= 1;
  }

  /** Main result: a revision superseded after a meta stage ends Complete exactly when all its pods were
      ready at that stage, and Cancelled otherwise. */
  lemma EndsAsLastSeen(s: State, cfg: Config, base: string, hash: string, maxHistory: nat)
    requires s.boot.spec.replicas.Some? && IsLog(s.revisions, base) && s.revisions != []
    requires Last(s.revisions).hash != hash && maxHistory >= 2
    ensures var after := MetaStage(s, cfg).state.revisions;
            && after != [] && Last(after) == Last(s.revisions).(phase := Last(after).phase)
            && EndsAs(after, base, hash, maxHistory, AllPodsReady(s))
  {
    MetaRevisions(s, cfg);
    PhasedLast(s, base);
    SupersededTells(PhasedRevisions(s), base, hash, maxHistory, AllPodsReady(s));
  }

  lemma PhasedLast(s: State, base: string)
    requires s.boot.spec.replicas.Some? && IsLog(s.revisions, base) && s.revisions != []
    ensures var phased := PhasedRevisions(s);
            && phased != [] && Last(phased) == Last(s.revisions).(phase := Last(phased).phase)
            && PhaseTells(Last(phased), AllPodsReady(s))
  {
    LastIsNewest(s.revisions, base);
    PhasedTells(s, |s.revisions| - 1);
  }

  lemma MetaRevisions(s: State, cfg: Config)
    requires s.boot.spec.replicas.Some?
    ensures MetaStage(s, cfg).state.revisions == PhasedRevisions(s)
  {
  }

  lemma CallKeepsLog(s: State, cfg: Config, alloc: S.Allocator, base: string)
    requires Workable(s, cfg) && IsLog(s.revisions, base) && s.revisions != []
    ensures WellFormedState(s) && ConfigComplete(cfg) && OwnNames(s, cfg)
    ensures var next := Reconcile(s, cfg, alloc).state.revisions;
            IsLog(next, base) && next != [] && Last(next).hash == Last(s.revisions).hash
  {
    WorkableIsWellFormed(s, cfg);
    if NeedsDefaults(s.boot, cfg) {
    } else {
      NoDefaultsNeeded(s.boot, cfg);
      ConvergePhaseOnly(s, cfg, alloc);
      PhasedIsLog(s, base);
    }
  }

  lemma {:induction false} RunKeepsLog(s: State, cfg: Config, allocs: seq<S.Allocator>, base: string)
    requires Workable(s, cfg) && IsLog(s.revisions, base) && s.revisions != []
    ensures var after := After(s, cfg, allocs).revisions;
            IsLog(after, base) && after != [] && Last(after).hash == Last(s.revisions).hash
    decreases |allocs|
  {
    if allocs != [] {
      FirstCall(s, cfg, allocs);
      CallKeepsLog(s, cfg, allocs[0], base);
      RunKeepsLog(Reconcile(s, cfg, allocs[0]).state, cfg, allocs[1..], base);
    }
  }

  /** Main result, on the whole loop: once it has settled, the next request ends the revision that was
      there by whether all its pods are ready. */
  lemma SettledEndsTell(s: State, cfg: Config, allocs: seq<S.Allocator>, base: string, hash: string, maxHistory: nat)
    requires Sane(s, cfg) && |allocs| >= 9 && IsLog(s.revisions, base) && s.revisions != []
    requires Last(s.revisions).hash != hash && maxHistory >= 2
    ensures var settled := After(s, cfg, allocs);
            && settled.revisions != [] && PhaseTells(Last(settled.revisions), AllPodsReady(settled))
            && EndsAs(settled.revisions, base, hash, maxHistory, AllPodsReady(settled))
  {
    var settled := After(s, cfg, allocs);
    NineCallsSettle(s, cfg, allocs);
    RunKeepsLog(s, cfg, allocs, base);
    RankZeroTells(settled, cfg, base, allocs[0]);
    SupersededTells(settled.revisions, base, hash, maxHistory, AllPodsReady(settled));
  }

  lemma RankZeroTells(s: State, cfg: Config, base: string, alloc: S.Allocator)
    requires Sane(s, cfg) && Rank(s, cfg) == 0 && IsLog(s.revisions, base) && s.revisions != []
    ensures PhaseTells(Last(s.revisions), AllPodsReady(s))
  {
    RankZeroIsPhased(s, cfg, alloc);
    PhasedLast(s, base);
  }

  lemma RankZeroIsPhased(s: State, cfg: Config, alloc: S.Allocator)
    requires Sane(s, cfg) && Rank(s, cfg) == 0
    ensures s.boot.spec.replicas.Some? && PhasedRevisions(s) == s.revisions
  {
    ReconcileLowersRank(s, cfg, alloc);
    NoDefaultsNeeded(s.boot, cfg);
    QuietIsPhased(s, cfg, alloc);
  }
}
