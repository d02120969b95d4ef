/** The controller that adopts a revision for its boot or, when the boot never appears, deletes it
    after a bounded number of retries (pkg/controller/bootrevision/bootrevision_controller.go). */
module Orphans {
  import opened Strconv
  import L = RevisionLog

  /** A revision as this controller sees it: its retry annotation and its owner list. */
  datatype State = Live(retry: string, owned: bool) | Deleted

  const MAX_RETRY := 20

  /** A retry text that is no number counts as zero, one out of range as the nearest integer. */
  function Retries(text: string): int {
    ParseInt(text).Value()
  }

  /** One error-free reconcile; `found` tells whether the boot exists. */
  function Step(s: State, found: bool): State {
    if s.Deleted? || s.owned then s
    else if found then s.(owned := true)
    else if Retries(s.retry) > MAX_RETRY then Deleted
    else s.(retry := Itoa(Retries(s.retry) + 1))
  }

  class RevisionObject {
    var retry: string
    var owned: bool
    var deleted: bool

    ghost function State(): State
      reads this
    {
      if deleted then Deleted else Live(retry, owned)
    }

    constructor (retry: string)
      ensures State() == Live(retry, false)
    {
      this.retry, owned, deleted := retry, false, false;
    }

    method Reconcile(found: bool) returns (requeue: bool)
      modifies this
      ensures State() == Step(old(State()), found)
      ensures requeue <==> old(State()).Live? && !old(State()).owned
    {
      if deleted || owned {
        return false;
      }
      if found {
        owned := true;
      } else {
        var count := ParseInt(retry).Value();
        if count > MAX_RETRY {
          deleted := true;
          return true;
        }
        count := count + 1;
        retry := Itoa(count);
      }
      requeue := true;
    }
  }

  predicate Done(s: State) {
    s.Deleted? || s.owned
  }

  /** How many reconciles are left at most. */
  function Remaining(s: State): nat {
    if Done(s) then 0
    else if Retries(s.retry) > MAX_RETRY then 1
    else MAX_RETRY + 2 - Retries(s.retry)
  }

  lemma RetriesInRange(text: string)
    ensures -MAX_INT - 1 <= Retries(text) <= MAX_INT
  {
  }

  /** Every reconcile of an unfinished revision brings the end closer; it is the last step exactly
      when nothing remains. */
  lemma StepCountsDown(s: State, found: bool)
    ensures !Done(s) ==> Remaining(Step(s, found)) < Remaining(s)
    ensures !Done(s) && !found ==> Remaining(Step(s, found)) == Remaining(s) - 1
    ensures Done(s) <==> Remaining(s) == 0
  {
    if !Done(s) {
      RetriesInRange(s.retry);
      if Retries(s.retry) <= MAX_RETRY {
        ParseItoa(Retries(s.retry) + 1);
      }
    }
  }

  function Run(s: State, found: seq<bool>): State
    decreases |found|
  {
    if found == [] then s else Run(Step(s, found[0]), found[1..])
  }

  /** Main result: whatever the retry text and whenever the boot appears, the revision is owned or
      deleted after `Remaining` reconciles. */
  lemma {:induction false} EveryOrphanIsSettled(s: State, found: seq<bool>)
    requires |found| >= Remaining(s)
    ensures Done(Run(s, found))
    decreases |found|
  {
    StepCountsDown(s, false);
    if found != [] {
      StepCountsDown(s, found[0]);
      EveryOrphanIsSettled(Step(s, found[0]), found[1..]);
    }
  }

  /** The bound is met: without a boot, one reconcile less does not end it. */
  lemma {:induction false} BoundIsTight(s: State, found: seq<bool>)
    requires |found| < Remaining(s) && forall i :: 0 <= i < |found| ==> !found[i]
    ensures !Done(Run(s, found))
    decreases |found|
  {
    StepCountsDown(s, false);
    if found != [] {
      BoundIsTight(Step(s, false), found[1..]);
    }
  }

  // --------------------------------------------------------------------------
  // How it ends.

  /** The boot is found in one of the first `n` calls. */
  predicate Appears(found: seq<bool>, n: nat)
    requires n <= |found|
  {
    exists i :: 0 <= i < n && found[i]
  }

  lemma FoundAdopts(s: State)
    requires s.Live? && !s.owned
    ensures Step(s, true) == Live(s.retry, true)
  {
  }

  lemma AppearsLater(found: seq<bool>, n: nat)
    requires 1 <= n <= |found| && !found[0]
    ensures Appears(found, n) <==> Appears(found[1..], n - 1)
  {
    if i :| 0 <= i < n && found[i] { assert found[1..][i - 1]; }
    if i :| 0 <= i < n - 1 && found[1..][i] { assert found[i + 1]; }
  }

  /** Main result: a revision without an owner ends up owned exactly when its boot is found in one of
      the calls it has left, and is deleted otherwise. */
  lemma {:induction false} AdoptedExactly(s: State, found: seq<bool>)
    requires s.Live? && !s.owned && |found| >= Remaining(s)
    ensures var end := Run(s, found);
            && (end.Live? && end.owned <==> Appears(found, Remaining(s)))
            && (end.Deleted? <==> !Appears(found, Remaining(s)))
    decreases |found|
  {
    StepCountsDown(s, false);
    if found[0] {
      FoundAdopts(s);
      OwnedIsKept(Step(s, true), found[1..]);
    } else {
      AppearsLater(found, Remaining(s));
      if Step(s, false).Live? {
        AdoptedExactly(Step(s, false), found[1..]);
      } else {
        DeletedIsKept(found[1..]);
      }
    }
  }

  lemma {:induction false} DeletedIsKept(found: seq<bool>)
    ensures Run(Deleted, found) == Deleted
    decreases |found|
  {
    if found != [] { DeletedIsKept(found[1..]); }
  }

  /** The deleting call has no boot and reads a retry count above 20; every other call keeps the
      revision, an adopting one with its retry text as it was. */
  lemma DeletesExactly(s: State, found: bool)
    requires s.Live? && !s.owned
    ensures Step(s, found).Deleted? <==> !found && ParseInt(s.retry).Value() > 20
    ensures Step(s, found).Live? && Step(s, found).owned <==> found
    ensures found ==> Step(s, found).retry == s.retry
    ensures !found && ParseInt(s.retry).Value() <= 20 ==>
              ParseInt(Step(s, found).retry) == Parsed(ParseInt(s.retry).Value() + 1)
  {
    RetriesInRange(s.retry);
    if !found && Retries(s.retry) <= 20 { ParseItoa(Retries(s.retry) + 1); }
  }

  /** A revision as the webhook records it is settled after 22 calls, and deleted exactly when its boot
      appears in none of them. */
  lemma RecordedRevisionTakes22(base: string, id: int, hash: string, found: seq<bool>)
    requires |found| >= 22
    ensures var r := L.NewRevision(base, id, hash);
            var end := Run(Live(r.retry, r.owned), found);
            Done(end) && (end.Deleted? <==> !Appears(found, 22))
  {
    var r := L.NewRevision(base, id, hash);
    assert "0" == Itoa(0);
    ParseItoa(0);
    assert Remaining(Live(r.retry, r.owned)) == 22;
    EveryOrphanIsSettled(Live(r.retry, r.owned), found);
    AdoptedExactly(Live(r.retry, r.owned), found);
  }

  /** Once it has an owner, the controller never changes or deletes a revision. */
  lemma {:induction false} OwnedIsKept(s: State, found: seq<bool>)
    requires s.Live? && s.owned
    ensures Run(s, found) == s
    decreases |found|
  {
    if found != [] {
      OwnedIsKept(s, found[1..]);
    }
  }
}
