/** The numbered revision log of a boot: `recordRevision`, `keepRevisionMaxSizeLimit` and
    `deleteRevision` of pkg/logan/webhook/validation/boot_validation.go, `SelectLatestRevision` of
    pkg/apis/app/v1/bootrevision_ops.go, and the phase update of
    pkg/logan/operator/boot_handler_controller.go. */
module RevisionLog {
  import opened Wrappers
  import opened Strconv

  datatype Phase = Running | Active | Complete | Cancelled

  datatype Revision =
    Revision(name: string, idText: Option<string>, hash: string, phase: Phase, retry: string, owned: bool)

  /** The number in the annotation, or -1. */
  function GetRevisionId(r: Revision): int {
    if r.idText.Some? && ParseInt(r.idText.value).Parsed? then ParseInt(r.idText.value).n else -1
  }

  /** A number is read back; a missing or unreadable text reads as -1, below every number. */
  lemma IdsAreRead(r: Revision, n: int)
    requires -MAX_INT <= n <= MAX_INT
    ensures r.idText == Some(Itoa(n)) ==> GetRevisionId(r) == n
    ensures r.idText.None? || !ParseInt(r.idText.value).Parsed? ==> GetRevisionId(r) == -1
  {
    ParseItoa(n);
  }

  function RevisionName(base: string, id: int): string {
    base + "-" + Itoa(id)
  }

  function NewRevision(base: string, id: int, hash: string): Revision {
    Revision(RevisionName(base, id), Some(Itoa(id)), hash, Running, "0", false)
  }

  function Superseded(r: Revision): Revision {
    r.(phase := if r.phase == Running then Cancelled else if r.phase == Active then Complete else r.phase)
  }

  // --------------------------------------------------------------------------
  // The log: the revisions of the boot in ascending order of their ids.

  type Log = seq<Revision>

  ghost predicate Ascending(log: Log) {
    forall i, j :: 0 <= i < j < |log| ==> GetRevisionId(log[i]) < GetRevisionId(log[j])
  }

  /** Named and annotated with the same positive number. */
  predicate WellNumbered(r: Revision, base: string) {
    1 <= GetRevisionId(r) <= MAX_INT && r.name == RevisionName(base, GetRevisionId(r))
  }

  ghost predicate IsLog(log: Log, base: string) {
    Ascending(log) && forall i :: 0 <= i < |log| ==> WellNumbered(log[i], base)
  }

  function Last<T>(s: seq<T>): T
    requires s != []
  {
    s[|s| - 1]
  }

  function LastId(log: Log): int {
    if log == [] then 0 else GetRevisionId(Last(log))
  }

  function Suffix<T>(s: seq<T>, n: nat): seq<T> {
    if |s| > n then s[|s| - n..] else s
  }

  /** What recording a normal form with hash `hash` does to the log. */
  function Recorded(log: Log, base: string, hash: string, maxHistory: nat): Log {
    if log == [] then [NewRevision(base, 1, hash)]
    else if Last(log).hash == hash then log
    else Suffix(log[..|log| - 1] + [Superseded(Last(log)), NewRevision(base, LastId(log) + 1, hash)], maxHistory)
  }

  function WithPhase(log: Log, phase: Phase): Log {
    if log == [] then log else log[..|log| - 1] + [Last(log).(phase := phase)]
  }

  // --------------------------------------------------------------------------
  // Ordering by id (sort.Slice).

  function InsertById(r: Revision, sorted: Log): Log {
    if sorted == [] || GetRevisionId(r) <= GetRevisionId(sorted[0]) then [r] + sorted
    else [sorted[0]] + InsertById(r, sorted[1..])
  }

  function SortById(list: Log): Log {
    if list == [] then [] else InsertById(list[0], SortById(list[1..]))
  }

  ghost predicate WeaklyAscending(log: Log) {
    forall i, j :: 0 <= i < j < |log| ==> GetRevisionId(log[i]) <= GetRevisionId(log[j])
  }

  lemma {:induction false} InsertByIdSorts(r: Revision, sorted: Log)
    requires WeaklyAscending(sorted)
    ensures WeaklyAscending(InsertById(r, sorted))
    ensures multiset(InsertById(r, sorted)) == multiset(sorted) + multiset{r}
  {
    if sorted != [] && GetRevisionId(r) > GetRevisionId(sorted[0]) {
      InsertByIdSorts(r, sorted[1..]);
      assert sorted == [sorted[0]] + sorted[1..];
      HeadStaysFirst(r, sorted, InsertById(r, sorted[1..]));
    }
  }

  lemma HeadStaysFirst(r: Revision, sorted: Log, rest: Log)
    requires WeaklyAscending(sorted) && sorted != [] && GetRevisionId(r) > GetRevisionId(sorted[0])
    requires WeaklyAscending(rest) && multiset(rest) == multiset(sorted[1..]) + multiset{r}
    ensures WeaklyAscending([sorted[0]] + rest)
  {
    forall j | 0 <= j < |rest|
      ensures GetRevisionId(sorted[0]) <= GetRevisionId(rest[j])
    {
      assert rest[j] in multiset(rest);
      assert rest[j] == r || rest[j] in sorted[1..];
    }
  }

  lemma {:induction false} SortByIdSorts(list: Log)
    ensures WeaklyAscending(SortById(list)) && multiset(SortById(list)) == multiset(list)
  {
    if list != [] {
      SortByIdSorts(list[1..]);
      InsertByIdSorts(list[0], SortById(list[1..]));
      assert list == [list[0]] + list[1..];
    }
  }

  lemma {:induction false} OneOrder(log: Log, other: Log)
    requires Ascending(log) && WeaklyAscending(other) && multiset(log) == multiset(other)
    ensures log == other
  {
    assert |multiset(log)| == |log| && |multiset(other)| == |other|;
    if log != [] {
      FirstAgrees(log, other);
      assert log == [log[0]] + log[1..] && other == [other[0]] + other[1..];
      assert multiset(log[1..]) == multiset(log) - multiset{log[0]};
      assert multiset(other[1..]) == multiset(other) - multiset{other[0]};
      OneOrder(log[1..], other[1..]);
    }
  }

  lemma FirstAgrees(log: Log, other: Log)
    requires Ascending(log) && WeaklyAscending(other) && multiset(log) == multiset(other)
    requires log != [] && other != []
    ensures log[0] == other[0]
  {
    assert log[0] in multiset(other) && other[0] in multiset(log);
    var i :| 0 <= i < |other| && other[i] == log[0];
    var j :| 0 <= j < |log| && log[j] == other[0];
  }

  // --------------------------------------------------------------------------
  // Selecting the latest revision of a listing.

  /** The largest id seen, which starts at one. */
  function BestId(list: seq<Revision>): int {
    if list == [] then 1
    else
      var best, id := BestId(list[..|list| - 1]), GetRevisionId(Last(list));
      if id >= best then id else best
  }

  /** The position of the last revision with the largest id; the first one when no id is positive. */
  function LatestIndex(list: seq<Revision>): (i: nat)
    ensures list != [] ==> i < |list|
  {
    if list == [] then 0
    else if GetRevisionId(Last(list)) >= BestId(list[..|list| - 1]) then |list| - 1
    else LatestIndex(list[..|list| - 1])
  }

  /** What the selection means. */
  lemma {:induction false} LatestMeans(list: seq<Revision>)
    ensures BestId(list) >= 1
    ensures (exists k :: 0 <= k < |list| && GetRevisionId(list[k]) >= 1) ==>
              var i := LatestIndex(list);
              GetRevisionId(list[i]) == BestId(list)
              && forall k :: 0 <= k < |list| ==>
                   && GetRevisionId(list[k]) <= GetRevisionId(list[i])
                   && (k > i ==> GetRevisionId(list[k]) < GetRevisionId(list[i]))
    ensures (forall k :: 0 <= k < |list| ==> GetRevisionId(list[k]) < 1) ==> LatestIndex(list) == 0 && BestId(list) == 1
  {
    if list != [] {
      var init := list[..|list| - 1];
      LatestMeans(init);
      assert forall k :: 0 <= k < |init| ==> init[k] == list[k];
    }
  }

  /** One loop over the listing, keeping the best id so far. */
  method SelectLatestRevision(list: seq<Revision>) returns (latest: Option<nat>)
    ensures latest == if list == [] then None else Some(LatestIndex(list))
  {
    if |list| == 0 {
      return None;
    }
    var max, index := 1, 0;
    for current := 0 to |list|
      invariant max == BestId(list[..current]) && index == LatestIndex(list[..current])
    {
      assert list[..current + 1][..current] == list[..current];
      var id := GetRevisionId(list[current]);
      if id >= max {
        max, index := id, current;
      }
    }
    assert list[..|list|] == list;
    latest := Some(index);
  }

  // --------------------------------------------------------------------------
  // The API server's revisions of one boot.

  lemma OwnId(base: string, id: int, hash: string)
    requires 1 <= id <= MAX_INT
    ensures GetRevisionId(NewRevision(base, id, hash)) == id && WellNumbered(NewRevision(base, id, hash), base)
  {
    ParseItoa(id);
  }

  lemma NameDecidesId(a: Revision, b: Revision, base: string)
    requires WellNumbered(a, base) && WellNumbered(b, base) && a.name == b.name
    ensures GetRevisionId(a) == GetRevisionId(b)
  {
    var prefix := base + "-";
    assert a.name[|prefix|..] == Itoa(GetRevisionId(a)) && b.name[|prefix|..] == Itoa(GetRevisionId(b));
    ParseItoa(GetRevisionId(a));
    ParseItoa(GetRevisionId(b));
  }

  lemma InLog(log: Log, items: seq<Revision>, r: Revision)
    requires multiset(log) == multiset(items) && r in items
    ensures r in log
  {
    assert r in multiset(items);
  }

  /** One element less. */
  lemma Without(s: seq<Revision>, i: nat)
    requires i < |s|
    ensures multiset(s[..i] + s[i + 1..]) == multiset(s) - multiset{s[i]}
  {
    assert s == s[..i] + [s[i]] + s[i + 1..];
  }

  lemma Replaced(s: seq<Revision>, i: nat, r: Revision)
    requires i < |s|
    ensures multiset(s[i := r]) == multiset(s) - multiset{s[i]} + multiset{r}
  {
  }

  lemma LogWithout(log: Log, base: string, at: nat)
    requires IsLog(log, base) && at < |log|
    ensures IsLog(log[..at] + log[at + 1..], base)
  {
  }

  lemma LogWith(log: Log, base: string, at: nat, phase: Phase)
    requires IsLog(log, base) && at < |log|
    ensures IsLog(log[at := log[at].(phase := phase)], base)
  {
  }

  /** A listed revision with a name of the log is the one of the log. */
  lemma SameName(log: Log, base: string, items: seq<Revision>, i: nat, at: nat)
    requires IsLog(log, base) && multiset(items) == multiset(log)
    requires i < |items| && at < |log| && items[i].name == log[at].name
    ensures items[i] == log[at]
  {
    InLog(log, items, items[i]);
    NameDecidesId(items[i], log[at], base);
  }

  /** The revision with the largest id of a listing is the newest of the log. */
  lemma LatestIsLast(log: Log, base: string, list: seq<Revision>, i: nat)
    requires IsLog(log, base) && multiset(list) == multiset(log) && i < |list|
    requires forall k :: 0 <= k < |list| ==> GetRevisionId(list[k]) <= GetRevisionId(list[i])
    ensures log != [] && list[i] == Last(log)
  {
    assert list[i] in multiset(list);
    InLog(log, list, list[i]);
    assert Last(log) in multiset(list);
  }

  lemma ListedIds(log: Log, base: string, list: seq<Revision>)
    requires IsLog(log, base) && multiset(list) == multiset(log)
    ensures |list| == |log|
    ensures forall k :: 0 <= k < |list| ==> GetRevisionId(list[k]) >= 1
  {
    assert |multiset(list)| == |list| && |multiset(log)| == |log|;
    forall k | 0 <= k < |list|
      ensures GetRevisionId(list[k]) >= 1
    {
      InLog(log, list, list[k]);
    }
  }

  /** Append, supersede and trim, in the order of the source. */
  lemma RecordedInSteps(log: Log, base: string, hash: string, maxHistory: nat)
    requires log != [] && Last(log).hash != hash
    ensures var grown := log + [NewRevision(base, LastId(log) + 1, hash)];
            Suffix(grown[|log| - 1 := Superseded(Last(log))], maxHistory) == Recorded(log, base, hash, maxHistory)
  {
  }

  lemma PhaseIsUpdate(log: Log, phase: Phase)
    requires log != []
    ensures WithPhase(log, phase) == log[|log| - 1 := Last(log).(phase := phase)]
    ensures WithPhase(log, phase) == log <==> Last(log).phase == phase
  {
  }

  class RevisionStore {
    const base: string
    const maxHistory: nat
    /** In no particular order. */
    var items: seq<Revision>
    ghost var log: Log

    ghost predicate Valid()
      reads this
    {
      IsLog(log, base) && multiset(items) == multiset(log)
    }

    constructor (base: string, maxHistory: nat)
      ensures Valid() && log == [] && this.base == base && this.maxHistory == maxHistory
    {
      this.base, this.maxHistory, items, log := base, maxHistory, [], [];
    }

    /** Callers may rely on the contents only, not on the order. */
    method List() returns (list: seq<Revision>)
      ensures multiset(list) == multiset(items)
    {
      list := items;
    }

    method IndexOf(name: string) returns (i: nat)
      ensures i <= |items|
      ensures i < |items| ==> items[i].name == name
      ensures i == |items| ==> forall k :: 0 <= k < |items| ==> items[k].name != name
    {
      i := 0;
      while i < |items| && items[i].name != name
        invariant i <= |items|
        invariant forall k :: 0 <= k < i ==> items[k].name != name
      {
        i := i + 1;
      }
    }

    /** Fails when the name exists. */
    method Create(r: Revision) returns (ok: bool)
      requires Valid() && WellNumbered(r, base) && GetRevisionId(r) > LastId(log)
      modifies this
      ensures Valid() && ok && log == old(log) + [r]
    {
      var i := IndexOf(r.name);
      if i < |items| {
        assert false by {
          InLog(log, items, items[i]);
          NameDecidesId(items[i], r, base);
        }
      }
      items := items + [r];
      log := log + [r];
      ok := true;
    }

    /** Writes the phase of a revision. */
    method Update(r: Revision, ghost at: nat)
      requires Valid() && at < |log| && r == log[at].(phase := r.phase)
      modifies this
      ensures Valid() && log == old(log)[at := r]
    {
      var i := IndexOf(r.name);
      assert log[at] in multiset(items);
      SameName(log, base, items, i, at);
      Replaced(items, i, r);
      Replaced(log, at, r);
      LogWith(log, base, at, r.phase);
      items := items[i := r];
      log := log[at := r];
    }

    method Delete(r: Revision, ghost at: nat)
      requires Valid() && at < |log| && r.name == log[at].name
      modifies this
      ensures Valid() && log == old(log)[..at] + old(log)[at + 1..]
    {
      var i := IndexOf(r.name);
      assert log[at] in multiset(items);
      SameName(log, base, items, i, at);
      Without(items, i);
      Without(log, at);
      LogWithout(log, base, at);
      items := items[..i] + items[i + 1..];
      log := log[..at] + log[at + 1..];
    }

    /** Keeps the `size` newest revisions of the listed ones; the newest of all, created after the
        listing, is not among them. */
    method KeepMaxSize(list: seq<Revision>, size: nat, ghost listed: Log)
      requires Valid() && log != [] && Ascending(listed) && multiset(list) == multiset(listed)
      requires |listed| == |log| - 1
      requires forall i :: 0 <= i < |listed| ==> listed[i].name == log[i].name
      modifies this
      ensures Valid() && log == Suffix(old(log), size + 1)
    {
      assert |multiset(list)| == |list| && |multiset(listed)| == |listed|;
      if |list| > size {
        var sorted := SortById(list);
        SortByIdSorts(list);
        OneOrder(listed, sorted);
        DeleteOldest(sorted, |sorted| - size);
      }
    }

    /** Deletes revisions in the order of the log. */
    method DeleteOldest(oldest: seq<Revision>, delSize: nat)
      requires Valid() && delSize <= |oldest| && delSize <= |log|
      requires forall i :: 0 <= i < delSize ==> oldest[i].name == log[i].name
      modifies this
      ensures Valid() && log == old(log)[delSize..]
    {
      ghost var all := log;
      for i := 0 to delSize
        invariant Valid() && log == all[i..]
      {
        assert all[i..][..0] + all[i..][1..] == all[i + 1..];
        Delete(oldest[i], 0);
      }
    }

    method RecordRevision(hash: string) returns (ok: bool)
      requires Valid() && maxHistory >= 1 && LastId(log) < MAX_INT
      modifies this
      ensures Valid() && ok && log == Recorded(old(log), base, hash, maxHistory)
    {
      var list := List();
      ListedIds(log, base, list);
      if |list| == 0 {
        OwnId(base, 1, hash);
        ok := Create(NewRevision(base, 1, hash));
        return;
      }
      var selected := SelectLatestRevision(list);
      LatestMeans(list);
      assert GetRevisionId(list[0]) >= 1;
      LatestIsLast(log, base, list, selected.value);
      ok := true;
      if list[selected.value].hash != hash {
        ok := AddRevision(list, list[selected.value], hash);
      }
    }

    /** The branch for a changed normal form. */
    method AddRevision(list: seq<Revision>, latest: Revision, hash: string) returns (ok: bool)
      requires Valid() && maxHistory >= 1 && LastId(log) < MAX_INT
      requires multiset(list) == multiset(log) && log != [] && latest == Last(log) && latest.hash != hash
      modifies this
      ensures Valid() && ok && log == Recorded(old(log), base, hash, maxHistory)
    {
      var id := GetRevisionId(latest) + 1;
      OwnId(base, id, hash);
      RecordedInSteps(log, base, hash, maxHistory);
      ok := CreateAndTrim(list, latest, NewRevision(base, id, hash));
    }

    /** Creates the new revision, ends the phase of the one before it, and trims the listed ones. */
    method CreateAndTrim(list: seq<Revision>, latest: Revision, r: Revision) returns (ok: bool)
      requires Valid() && maxHistory >= 1
      requires WellNumbered(r, base) && GetRevisionId(r) > LastId(log)
      requires multiset(list) == multiset(log) && log != [] && latest == Last(log)
      modifies this
      ensures Valid() && ok
      ensures log == Suffix((old(log) + [r])[|old(log)| - 1 := Superseded(latest)], maxHistory)
    {
      ghost var before := log;
      ok := Create(r);
      Update(Superseded(latest), |before| - 1);
      KeepMaxSize(list, maxHistory - 1, before);
    }

    /** The phase update of the newest revision; nothing is written when the phase is right already. */
    method UpdatePhase(active: bool) returns (written: bool)
      requires Valid()
      modifies this
      ensures Valid() && log == WithPhase(old(log), if active then Active else Running)
      ensures written <==> log != old(log)
    {
      var list := List();
      ListedIds(log, base, list);
      var selected := SelectLatestRevision(list);
      written := false;
      if selected.Some? {
        LatestMeans(list);
        assert GetRevisionId(list[0]) >= 1;
        LatestIsLast(log, base, list, selected.value);
        var latest, phase := list[selected.value], if active then Active else Running;
        PhaseIsUpdate(log, phase);
        if latest.phase != phase {
          written := true;
          Update(latest.(phase := phase), |log| - 1);
        }
      }
    }

    /** Removes every revision when the boot is deleted. */
    method DeleteAll()
      requires Valid()
      modifies this
      ensures Valid() && log == []
    {
      ListedIds(log, base, items);
      while |items| > 0
        invariant Valid() && |items| == |log|
        decreases |items|
      {
        InLog(log, items, items[0]);
        ghost var at :| 0 <= at < |log| && log[at] == items[0];
        Delete(items[0], at);
        ListedIds(log, base, items);
      }
    }
  }
}
