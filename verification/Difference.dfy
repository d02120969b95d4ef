/** The keyed list differences of pkg/logan/util/slice.go. Each source function makes two rounds
    over (origin, now), swapping the two lists in between; the specifications below say in one
    line what each result list holds. */
module Difference {
  import opened Wrappers
  import opened EnvList

  // --------------------------------------------------------------------------
  // Specifications, for any key and any comparison.

  predicate HasKey<T, K(==)>(list: seq<T>, key: T -> K, k: K) {
    exists i :: 0 <= i < |list| && key(list[i]) == k
  }

  /** The entries of `a` whose key does not occur in `b`. */
  function Missing<T, K(==)>(a: seq<T>, b: seq<T>, key: T -> K): seq<T> {
    if a == [] then []
    else
      var init, x := Missing(a[..|a| - 1], b, key), a[|a| - 1];
      if HasKey(b, key, key(x)) then init else init + [x]
  }

  /** The entries of `now` that share the key of `x` but are not the same. */
  function ChangedBy<T, K(==)>(x: T, now: seq<T>, key: T -> K, same: (T, T) -> bool): seq<T> {
    if now == [] then []
    else
      var init, y := ChangedBy(x, now[..|now| - 1], key, same), now[|now| - 1];
      if key(y) == key(x) && !same(x, y) then init + [y] else init
  }

  /** The new entries of all changed pairs, in the order of the old list. */
  function Changed<T, K(==)>(origin: seq<T>, now: seq<T>, key: T -> K, same: (T, T) -> bool): seq<T> {
    if origin == [] then []
    else Changed(origin[..|origin| - 1], now, key, same) + ChangedBy(origin[|origin| - 1], now, key, same)
  }

  /** As `ChangedBy`, but the search stops at the first entry with the key of `x`. */
  function FirstChangedBy<T, K(==)>(x: T, now: seq<T>, key: T -> K, same: (T, T) -> bool): seq<T> {
    if now == [] then []
    else if key(now[0]) == key(x) then (if same(x, now[0]) then [] else [now[0]])
    else FirstChangedBy(x, now[1..], key, same)
  }

  function FirstChanged<T, K(==)>(origin: seq<T>, now: seq<T>, key: T -> K, same: (T, T) -> bool): seq<T> {
    if origin == [] then []
    else FirstChanged(origin[..|origin| - 1], now, key, same) + FirstChangedBy(origin[|origin| - 1], now, key, same)
  }

  // --------------------------------------------------------------------------
  // The entries the operator compares.

  function EnvKey(e: EnvVar): string { e.name }

  predicate SameEnv(a: EnvVar, b: EnvVar) { a == b }

  datatype VolumeMount = VolumeMount(name: string, readOnly: bool, mountPath: string, subPath: string)

  function MountKey(m: VolumeMount): string { m.name }

  /** Only two fields are compared; a change of the sub path is not seen. */
  predicate SameMount(a: VolumeMount, b: VolumeMount) {
    a.mountPath == b.mountPath && a.readOnly == b.readOnly
  }

  /** The metric sources that pass validation: exactly the source of the declared type is present. */
  datatype MetricType = ObjectMetric | ExternalMetric | PodsMetric | ResourceMetric

  datatype MetricTarget = MetricTarget(averageUtilization: Option<int>, averageValue: Option<nat>,
                                       value: Option<nat>, reference: string)

  datatype MetricSpec = MetricSpec(kind: MetricType, name: string, target: MetricTarget)

  function MetricKey(m: MetricSpec): (MetricType, string) { (m.kind, m.name) }

  predicate SameMetric(a: MetricSpec, b: MetricSpec) { a.target == b.target }

  function StringKey(s: string): string { s }

  predicate SameString(a: string, b: string) { a == b }

  // --------------------------------------------------------------------------
  // The loops.

  lemma HasKeyLonger<T, K>(list: seq<T>, x: T, key: T -> K, k: K)
    ensures HasKey(list + [x], key, k) <==> HasKey(list, key, k) || key(x) == k
  {
    assert (list + [x])[|list|] == x;
    if HasKey(list, key, k) {
      var i :| 0 <= i < |list| && key(list[i]) == k;
      assert (list + [x])[i] == list[i];
    }
  }

  /** One round: every entry of `a` is looked up in all of `b`. */
  method Scan<T, K(==)>(a: seq<T>, b: seq<T>, key: T -> K, same: (T, T) -> bool)
    returns (missing: seq<T>, changed: seq<T>)
    ensures missing == Missing(a, b, key)
    ensures changed == Changed(a, b, key, same)
  {
    missing, changed := [], [];
    for j := 0 to |a|
      invariant missing == Missing(a[..j], b, key)
      invariant changed == Changed(a[..j], b, key, same)
    {
      var found := false;
      ghost var before := changed;
      for k := 0 to |b|
        invariant found <==> HasKey(b[..k], key, key(a[j]))
        invariant changed == before + ChangedBy(a[j], b[..k], key, same)
      {
        assert b[..k + 1][..k] == b[..k] && b[..k + 1] == b[..k] + [b[k]];
        HasKeyLonger(b[..k], b[k], key, key(a[j]));
        if key(b[k]) == key(a[j]) {
          if !same(a[j], b[k]) {
            changed := changed + [b[k]];
          }
          found := true;
        }
      }
      assert b[..|b|] == b && a[..j + 1][..j] == a[..j];
      if !found {
        missing := missing + [a[j]];
      }
    }
    assert a[..|a|] == a;
  }

  /** One round that leaves the lookup at the first entry with the key. */
  method ScanToFirst<T, K(==)>(a: seq<T>, b: seq<T>, key: T -> K, same: (T, T) -> bool)
    returns (missing: seq<T>, changed: seq<T>)
    ensures missing == Missing(a, b, key)
    ensures changed == FirstChanged(a, b, key, same)
  {
    missing, changed := [], [];
    for j := 0 to |a|
      invariant missing == Missing(a[..j], b, key)
      invariant changed == FirstChanged(a[..j], b, key, same)
    {
      var found := false;
      ghost var before := changed;
      var k := 0;
      while k < |b| && !found
        invariant 0 <= k <= |b|
        invariant found <==> exists l :: 0 <= l < k && key(b[l]) == key(a[j])
        invariant if found then changed == before + FirstChangedBy(a[j], b, key, same)
                  else changed == before
                       && FirstChangedBy(a[j], b, key, same) == FirstChangedBy(a[j], b[k..], key, same)
      {
        if key(b[k]) == key(a[j]) {
          if !same(a[j], b[k]) {
            changed := changed + [b[k]];
          }
          found := true;
        }
        k := k + 1;
      }
      assert a[..j + 1][..j] == a[..j];
      if !found {
        missing := missing + [a[j]];
      }
    }
    assert a[..|a|] == a;
  }

  method DifferenceStrings(slice1: seq<string>, slice2: seq<string>)
    returns (diff1: seq<string>, diff2: seq<string>)
    ensures diff1 == Missing(slice1, slice2, StringKey)
    ensures diff2 == Missing(slice2, slice1, StringKey)
  {
    var a, b := slice1, slice2;
    diff1, diff2 := [], [];
    for i := 0 to 2
      invariant if i == 0 then a == slice1 && b == slice2 else a == slice2 && b == slice1
      invariant diff1 == if i == 0 then [] else Missing(slice1, slice2, StringKey)
      invariant diff2 == if i < 2 then [] else Missing(slice2, slice1, StringKey)
    {
      var missing, _ := ScanToFirst(a, b, StringKey, SameString);
      if i == 0 {
        diff1 := missing;
        a, b := b, a;
      } else {
        diff2 := missing;
      }
    }
  }

  method Difference2(origin: seq<EnvVar>, now: seq<EnvVar>)
    returns (deleted: seq<EnvVar>, added: seq<EnvVar>, modified: seq<EnvVar>)
    ensures deleted == Missing(origin, now, EnvKey)
    ensures added == Missing(now, origin, EnvKey)
    ensures modified == Changed(origin, now, EnvKey, SameEnv)
  {
    var a, b := origin, now;
    deleted, added, modified := [], [], [];
    for i := 0 to 2
      invariant if i == 0 then a == origin && b == now else a == now && b == origin
      invariant deleted == if i == 0 then [] else Missing(origin, now, EnvKey)
      invariant modified == if i == 0 then [] else Changed(origin, now, EnvKey, SameEnv)
      invariant added == if i < 2 then [] else Missing(now, origin, EnvKey)
    {
      var missing, changed := Scan(a, b, EnvKey, SameEnv);
      if i == 0 {
        deleted, modified := missing, changed;
        a, b := b, a;
      } else {
        added := missing;
      }
    }
  }

  method DifferenceVol(origin: seq<VolumeMount>, now: seq<VolumeMount>)
    returns (deleted: seq<VolumeMount>, added: seq<VolumeMount>, modified: seq<VolumeMount>)
    ensures deleted == Missing(origin, now, MountKey)
    ensures added == Missing(now, origin, MountKey)
    ensures modified == FirstChanged(origin, now, MountKey, SameMount)
  {
    var a, b := origin, now;
    deleted, added, modified := [], [], [];
    for i := 0 to 2
      invariant if i == 0 then a == origin && b == now else a == now && b == origin
      invariant deleted == if i == 0 then [] else Missing(origin, now, MountKey)
      invariant modified == if i == 0 then [] else FirstChanged(origin, now, MountKey, SameMount)
      invariant added == if i < 2 then [] else Missing(now, origin, MountKey)
    {
      var missing, changed := ScanToFirst(a, b, MountKey, SameMount);
      if i == 0 {
        deleted, modified := missing, changed;
        a, b := b, a;
      } else {
        added := missing;
      }
    }
  }

  /** In the source each `break` leaves the inner `switch`, so the lookup goes on to the end. */
  method DifferenceMetric(origin: seq<MetricSpec>, now: seq<MetricSpec>)
    returns (deleted: seq<MetricSpec>, added: seq<MetricSpec>, modified: seq<MetricSpec>)
    ensures deleted == Missing(origin, now, MetricKey)
    ensures added == Missing(now, origin, MetricKey)
    ensures modified == Changed(origin, now, MetricKey, SameMetric)
  {
    var a, b := origin, now;
    deleted, added, modified := [], [], [];
    for i := 0 to 2
      invariant if i == 0 then a == origin && b == now else a == now && b == origin
      invariant deleted == if i == 0 then [] else Missing(origin, now, MetricKey)
      invariant modified == if i == 0 then [] else Changed(origin, now, MetricKey, SameMetric)
      invariant added == if i < 2 then [] else Missing(now, origin, MetricKey)
    {
      var missing, changed := Scan(a, b, MetricKey, SameMetric);
      if i == 0 {
        deleted, modified := missing, changed;
        a, b := b, a;
      } else {
        added := missing;
      }
    }
  }

  // --------------------------------------------------------------------------
  // What the three lists mean.

  ghost predicate UniqueKeys<T, K>(list: seq<T>, key: T -> K) {
    forall i, j :: 0 <= i < j < |list| ==> key(list[i]) != key(list[j])
  }

  lemma {:induction false} MissingMember<T, K>(a: seq<T>, b: seq<T>, key: T -> K, x: T)
    ensures x in Missing(a, b, key) <==> x in a && !HasKey(b, key, key(x))
  {
    if a != [] {
      MissingMember(a[..|a| - 1], b, key, x);
      assert a == a[..|a| - 1] + [a[|a| - 1]];
    }
  }

  lemma {:induction false} ChangedByMember<T, K>(x: T, now: seq<T>, key: T -> K, same: (T, T) -> bool, y: T)
    ensures y in ChangedBy(x, now, key, same) <==> y in now && key(y) == key(x) && !same(x, y)
  {
    if now != [] {
      ChangedByMember(x, now[..|now| - 1], key, same, y);
      assert now == now[..|now| - 1] + [now[|now| - 1]];
    }
  }

  /** `y` replaced some entry of the old list. */
  ghost predicate Replaces<T, K>(y: T, origin: seq<T>, key: T -> K, same: (T, T) -> bool) {
    exists i :: 0 <= i < |origin| && key(y) == key(origin[i]) && !same(origin[i], y)
  }

  lemma {:induction false} ChangedMember<T, K>(origin: seq<T>, now: seq<T>, key: T -> K, same: (T, T) -> bool, y: T)
    ensures y in Changed(origin, now, key, same) <==> y in now && Replaces(y, origin, key, same)
  {
    if origin != [] {
      var init, x := origin[..|origin| - 1], origin[|origin| - 1];
      ChangedMember(init, now, key, same, y);
      ChangedByMember(x, now, key, same, y);
      if Replaces(y, init, key, same) {
        var i :| 0 <= i < |init| && key(y) == key(init[i]) && !same(init[i], y);
        assert origin[i] == init[i];
      }
      if Replaces(y, origin, key, same) {
        var i :| 0 <= i < |origin| && key(y) == key(origin[i]) && !same(origin[i], y);
        assert i < |init| ==> init[i] == origin[i];
      }
    }
  }

  /** The list read as a map: the entry of key `k`. */
  ghost function EntryOf<T, K>(list: seq<T>, key: T -> K, k: K): Option<T> {
    if HasKey(list, key, k) then
      var i :| 0 <= i < |list| && key(list[i]) == k;
      Some(list[i])
    else None
  }

  lemma EntryIs<T, K>(list: seq<T>, key: T -> K, x: T)
    requires UniqueKeys(list, key) && x in list
    ensures EntryOf(list, key, key(x)) == Some(x)
  {
  }

  lemma EntryIn<T, K>(list: seq<T>, key: T -> K, k: K)
    ensures var e := EntryOf(list, key, k);
            if e.Some? then e.value in list && key(e.value) == k else forall x :: x in list ==> key(x) != k
  {
  }

  /** The entry of `k` after the three lists were applied to the old list: modified and added
      entries are set, the keys of deleted entries are gone, all others stay. */
  ghost function Applied<T, K>(origin: seq<T>, deleted: seq<T>, added: seq<T>, modified: seq<T>,
                               key: T -> K, k: K): Option<T>
  {
    if HasKey(modified, key, k) then EntryOf(modified, key, k)
    else if HasKey(added, key, k) then EntryOf(added, key, k)
    else if HasKey(deleted, key, k) then None
    else EntryOf(origin, key, k)
  }

  /** Main result: with unique keys and a comparison of whole entries, applying the difference to
      the old list rebuilds the new list as a map. */
  lemma DifferenceRebuilds<T, K>(origin: seq<T>, now: seq<T>, key: T -> K, same: (T, T) -> bool, k: K)
    requires UniqueKeys(origin, key) && UniqueKeys(now, key)
    requires forall x, y :: x in origin && y in now && key(x) == key(y) ==> (same(x, y) <==> x == y)
    ensures Applied(origin, Missing(origin, now, key), Missing(now, origin, key),
                    Changed(origin, now, key, same), key, k) == EntryOf(now, key, k)
  {
    var deleted, added, modified := Missing(origin, now, key), Missing(now, origin, key), Changed(origin, now, key,
        same);
    EntryIn(origin, key, k); EntryIn(now, key, k);
    EntryIn(deleted, key, k); EntryIn(added, key, k); EntryIn(modified, key, k);
    if HasKey(modified, key, k) {
      var y := EntryOf(modified, key, k).value;
      ChangedMember(origin, now, key, same, y);
      EntryIs(now, key, y);
    } else if HasKey(added, key, k) {
      var y := EntryOf(added, key, k).value;
      MissingMember(now, origin, key, y);
      EntryIs(now, key, y);
    } else if HasKey(deleted, key, k) {
      MissingMember(origin, now, key, EntryOf(deleted, key, k).value);
    } else {
      UntouchedKey(origin, now, key, same, k);
    }
  }

  lemma UntouchedKey<T, K>(origin: seq<T>, now: seq<T>, key: T -> K, same: (T, T) -> bool, k: K)
    requires UniqueKeys(origin, key) && UniqueKeys(now, key)
    requires !HasKey(Missing(origin, now, key), key, k) && !HasKey(Missing(now, origin, key), key, k)
    requires !HasKey(Changed(origin, now, key, same), key, k)
    requires forall x, y :: x in origin && y in now && key(x) == key(y) ==> (same(x, y) <==> x == y)
    ensures EntryOf(origin, key, k) == EntryOf(now, key, k)
  {
    NotReported(origin, now, key, same, k);
    EntryIn(origin, key, k); EntryIn(now, key, k);
  }

  lemma NotReported<T, K>(origin: seq<T>, now: seq<T>, key: T -> K, same: (T, T) -> bool, k: K)
    requires !HasKey(Missing(origin, now, key), key, k) && !HasKey(Missing(now, origin, key), key, k)
    requires !HasKey(Changed(origin, now, key, same), key, k)
    ensures HasKey(origin, key, k) <==> HasKey(now, key, k)
    ensures HasKey(now, key, k) ==> same(EntryOf(origin, key, k).value, EntryOf(now, key, k).value)
  {
    EntryIn(origin, key, k); EntryIn(now, key, k);
    if HasKey(origin, key, k) {
      var x := EntryOf(origin, key, k).value;
      MissingMember(origin, now, key, x);
      if x in Missing(origin, now, key) { InHasKey(Missing(origin, now, key), key, x); }
    }
    if HasKey(now, key, k) {
      var y := EntryOf(now, key, k).value;
      MissingMember(now, origin, key, y);
      if y in Missing(now, origin, key) { InHasKey(Missing(now, origin, key), key, y); }
      ChangedMember(origin, now, key, same, y);
      if y in Changed(origin, now, key, same) { InHasKey(Changed(origin, now, key, same), key, y); }
    }
  }

  lemma InHasKey<T, K>(list: seq<T>, key: T -> K, x: T)
    requires x in list
    ensures HasKey(list, key, key(x))
  {
  }

  /** Equal as maps, on the compared fields. */
  ghost predicate SameMaps<T, K(!new)>(a: seq<T>, b: seq<T>, key: T -> K, same: (T, T) -> bool) {
    forall k :: (HasKey(a, key, k) <==> HasKey(b, key, k))
                && (HasKey(a, key, k) && HasKey(b, key, k) ==> same(EntryOf(a, key, k).value, EntryOf(b, key, k).value))
  }

  /** With unique keys nothing is reported exactly when the maps agree on the compared fields. */
  lemma NoDifference<T, K(!new)>(origin: seq<T>, now: seq<T>, key: T -> K, same: (T, T) -> bool)
    requires UniqueKeys(origin, key) && UniqueKeys(now, key)
    ensures Missing(origin, now, key) == [] && Missing(now, origin, key) == [] && Changed(origin, now, key, same) == []
            <==> SameMaps(origin, now, key, same)
  {
    var deleted, added, modified := Missing(origin, now, key), Missing(now, origin, key), Changed(origin, now, key,
        same);
    if deleted == [] && added == [] && modified == [] {
      forall k {
        NotReported(origin, now, key, same, k);
      }
    }
    if SameMaps(origin, now, key, same) {
      if deleted != [] { MissingMember(origin, now, key, deleted[0]); InHasKey(origin, key, deleted[0]); }
      if added != [] { MissingMember(now, origin, key, added[0]); InHasKey(now, key, added[0]); }
      if modified != [] {
        var y := modified[0];
        ChangedMember(origin, now, key, same, y);
        var i :| 0 <= i < |origin| && key(y) == key(origin[i]) && !same(origin[i], y);
        EntryIs(origin, key, origin[i]);
        EntryIs(now, key, y);
        InHasKey(now, key, y);
        InHasKey(origin, key, origin[i]);
      }
    }
  }

  /** Equal keys mean same entries. */
  ghost predicate KeysDecide<T, K>(list: seq<T>, key: T -> K, same: (T, T) -> bool) {
    forall i, j :: 0 <= i < |list| && 0 <= j < |list| && key(list[i]) == key(list[j]) ==> same(list[i], list[j])
  }

  /** A list compared with itself reports nothing exactly when equal keys mean same entries. */
  lemma SelfDifference<T, K>(list: seq<T>, key: T -> K, same: (T, T) -> bool)
    ensures Missing(list, list, key) == []
    ensures Changed(list, list, key, same) == [] <==> KeysDecide(list, key, same)
  {
    var deleted, modified := Missing(list, list, key), Changed(list, list, key, same);
    if deleted != [] { MissingMember(list, list, key, deleted[0]); InHasKey(list, key, deleted[0]); }
    if modified == [] {
      forall i, j | 0 <= i < |list| && 0 <= j < |list| && key(list[i]) == key(list[j])
        ensures same(list[i], list[j])
      {
        ChangedMember(list, list, key, same, list[j]);
      }
    } else {
      ChangedMember(list, list, key, same, modified[0]);
    }
  }

  /** With unique keys, stopping at the first match finds the same changes. */
  lemma {:induction false} FirstIsEnough<T, K>(origin: seq<T>, now: seq<T>, key: T -> K, same: (T, T) -> bool)
    requires UniqueKeys(now, key)
    ensures FirstChanged(origin, now, key, same) == Changed(origin, now, key, same)
  {
    if origin != [] {
      FirstIsEnough(origin[..|origin| - 1], now, key, same);
      FirstOfUnique(origin[|origin| - 1], now, key, same);
    }
  }

  lemma {:induction false} FirstOfUnique<T, K>(x: T, now: seq<T>, key: T -> K, same: (T, T) -> bool)
    requires UniqueKeys(now, key)
    ensures FirstChangedBy(x, now, key, same) == ChangedBy(x, now, key, same)
  {
    if now != [] {
      ChangedByFront(x, now, key, same);
      FirstOfUnique(x, now[1..], key, same);
      if key(now[0]) == key(x) {
        NoneChanged(x, now[1..], key, same);
      }
    }
  }

  lemma {:induction false} ChangedByFront<T, K>(x: T, now: seq<T>, key: T -> K, same: (T, T) -> bool)
    requires now != []
    ensures ChangedBy(x, now, key, same)
            == (if key(now[0]) == key(x) && !same(x, now[0]) then [now[0]] else []) + ChangedBy(x, now[1..], key, same)
  {
    if |now| > 1 {
      ChangedByFront(x, now[..|now| - 1], key, same);
      assert now[..|now| - 1][1..] == now[1..][..|now| - 2];
    }
  }

  lemma {:induction false} NoneChanged<T, K>(x: T, now: seq<T>, key: T -> K, same: (T, T) -> bool)
    requires forall i :: 0 <= i < |now| ==> key(now[i]) != key(x)
    ensures ChangedBy(x, now, key, same) == []
  {
    if now != [] {
      NoneChanged(x, now[..|now| - 1], key, same);
    }
  }
}
