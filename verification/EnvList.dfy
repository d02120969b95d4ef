/** Environment variable lists: the keyed merge of pkg/logan/util/merge.go, the cleaning of
    business variables of pkg/apis/app/v1/bootrevision_ops.go and the in-place decoding of
    pkg/logan/operator/boot.go. */
module EnvList {
  import opened Wrappers
  import opened Placeholder

  datatype EnvSource = EnvSource(kind: string, name: string, key: string)

  datatype EnvVar = EnvVar(name: string, value: string, valueFrom: Option<EnvSource>)

  type Envs = seq<EnvVar>

  /** The position of the first entry called `name`, or the length of the list. */
  function FirstIndex(list: Envs, name: string): (i: nat)
    ensures i <= |list|
    ensures i < |list| ==> list[i].name == name
    ensures forall j :: 0 <= j < i ==> list[j].name != name
  {
    if list == [] || list[0].name == name then 0 else 1 + FirstIndex(list[1..], name)
  }

  predicate Has(list: Envs, name: string) {
    FirstIndex(list, name) < |list|
  }

  ghost predicate UniqueNames(list: Envs) {
    forall i, j :: 0 <= i < j < |list| ==> list[i].name != list[j].name
  }

  function MergeOne(dst: Envs, e: EnvVar, override: bool): Envs {
    var found := FirstIndex(dst, e.name);
    if found == |dst| then dst + [e]
    else if override then dst[found := e]
    else dst
  }

  /** Folds the source entries into the destination from the left. */
  function Merge(dst: Envs, src: Envs, override: bool): Envs {
    if src == [] then dst
    else MergeOne(Merge(dst, src[..|src| - 1], override), src[|src| - 1], override)
  }

  method MergeSlice(dst: Envs, src: Envs, override: bool) returns (merged: Envs)
    ensures merged == Merge(dst, src, override)
  {
    merged := dst;
    assert src[..0] == [];
    for i := 0 to |src|
      invariant merged == Merge(dst, src[..i], override)
    {
      var foundIndex := -1;
      var j := 0;
      while j < |merged|
        invariant 0 <= j <= |merged|
        invariant -1 <= foundIndex < |merged|
        invariant foundIndex == -1 ==> forall k :: 0 <= k < j ==> merged[k].name != src[i].name
        invariant foundIndex >= 0 ==> foundIndex == FirstIndex(merged, src[i].name)
      {
        if merged[j].name == src[i].name {
          foundIndex := j;
          break;
        }
        j := j + 1;
      }
      assert src[..i + 1][..i] == src[..i];
      if foundIndex >= 0 {
        if override {
          merged := merged[foundIndex := src[i]];
        }
      } else {
        merged := merged + [src[i]];
      }
    }
    assert src[..|src|] == src;
  }

  // --------------------------------------------------------------------------
  // What a merge means.

  /** The last source entry called `name`. */
  function LastWith(src: Envs, name: string): (e: EnvVar)
    requires Has(src, name)
    ensures e in src && e.name == name
  {
    var n := |src| - 1;
    if src[n].name == name then src[n]
    else HasShorter(src, name); LastWith(src[..n], name)
  }

  lemma HasShorter(src: Envs, name: string)
    requires Has(src, name) && src[|src| - 1].name != name
    ensures FirstIndex(src[..|src| - 1], name) == FirstIndex(src, name) < |src| - 1
  {
  }

  function Names(list: Envs): (names: seq<string>)
    ensures |names| == |list|
    ensures forall i :: 0 <= i < |list| ==> names[i] == list[i].name
  {
    seq(|list|, i requires 0 <= i < |list| => list[i].name)
  }

  /** `names` extended with the strings of `more` not yet present, in order of appearance. */
  function Union(names: seq<string>, more: seq<string>): (u: seq<string>)
    ensures names <= u
    ensures forall x :: x in u <==> x in names || x in more
  {
    if more == [] then names
    else
      var u := Union(names, more[..|more| - 1]);
      var x := more[|more| - 1];
      assert more == more[..|more| - 1] + [x];
      if x in u then u else u + [x]
  }

  lemma HasIsIn(list: Envs, name: string)
    ensures Has(list, name) <==> name in Names(list)
  {
  }

  lemma SameNamesSameIndex(a: Envs, b: Envs, name: string)
    requires Names(a) == Names(b)
    ensures FirstIndex(a, name) == FirstIndex(b, name)
  {
  }

  /** The names of a merge, whether it overrides or not. */
  lemma {:induction false} MergeNames(dst: Envs, src: Envs, override: bool)
    ensures Names(Merge(dst, src, override)) == Union(Names(dst), Names(src))
  {
    if src != [] {
      var init, e := src[..|src| - 1], src[|src| - 1];
      MergeNames(dst, init, override);
      var m := Merge(dst, init, override);
      HasIsIn(m, e.name);
      assert Names(src)[..|src| - 1] == Names(init);
      assert Names(m + [e]) == Names(m) + [e.name];
    }
  }

  /** Main result: with override the last source value of a name wins, at the first place of that
      name; every other entry of the destination stays; new names follow in order of appearance. */
  lemma {:induction false} MergeMeaning(dst: Envs, src: Envs, i: nat)
    requires i < |Merge(dst, src, true)|
    ensures var m := Merge(dst, src, true);
            m[i] == if FirstIndex(m, m[i].name) == i && Has(src, m[i].name) then LastWith(src, m[i].name)
                    else if i < |dst| then dst[i] else m[i]
    ensures |dst| <= i ==> FirstIndex(Merge(dst, src, true), Merge(dst, src, true)[i].name) == i
                           && Has(src, Merge(dst, src, true)[i].name)
  {
    var m := Merge(dst, src, true);
    MergeNames(dst, src, true);
    if src == [] {
    } else {
      var init, e := src[..|src| - 1], src[|src| - 1];
      var p := Merge(dst, init, true);
      MergeNames(dst, init, true);
      var name := m[i].name;
      if i < |p| {
        MergeMeaning(dst, init, i);
        MergeOneAt(p, e, i);
        if name == e.name {
          assert src[|src| - 1].name == name;
        } else {
          HasInit(src, name);
        }
      } else {
        assert m == p + [e];
      }
    }
  }

  /** What one source variable does to an entry. */
  lemma MergeOneAt(p: Envs, e: EnvVar, i: nat)
    requires i < |p|
    ensures var m := MergeOne(p, e, true);
            && i < |m| && m[i].name == p[i].name
            && (FirstIndex(m, m[i].name) == i <==> FirstIndex(p, m[i].name) == i)
            && m[i] == if p[i].name == e.name && FirstIndex(p, e.name) == i then e else p[i]
  {
    var m := MergeOne(p, e, true);
    assert forall k :: 0 <= k < |p| ==> m[k].name == p[k].name;
    var was, now := FirstIndex(p, m[i].name), FirstIndex(m, m[i].name);
    assert was < |p| && m[was].name == m[i].name && p[now].name == m[i].name;
  }

  lemma HasInit(src: Envs, name: string)
    requires src != [] && src[|src| - 1].name != name
    ensures Has(src[..|src| - 1], name) <==> Has(src, name)
    ensures Has(src, name) ==> LastWith(src, name) == LastWith(src[..|src| - 1], name)
  {
  }

  /** A variable added without override has a name no earlier source entry has. */
  lemma AddedIsFirst(dst: Envs, src: Envs)
    requires src != [] && !Has(Merge(dst, src[..|src| - 1], false), src[|src| - 1].name)
    ensures FirstIndex(src, src[|src| - 1].name) == |src| - 1
  {
    var init, e := src[..|src| - 1], src[|src| - 1];
    MergeNames(dst, init, false);
    HasIsIn(Merge(dst, init, false), e.name);
    HasIsIn(init, e.name);
    assert !Has(init, e.name);
    assert forall k :: 0 <= k < |init| ==> src[k] == init[k];
  }

  lemma {:induction false} DestinationStays(dst: Envs, src: Envs)
    ensures dst <= Merge(dst, src, false)
  {
    if src != [] { DestinationStays(dst, src[..|src| - 1]); }
  }

  lemma {:induction false} AddedVariable(dst: Envs, src: Envs, i: nat)
    requires |dst| <= i < |Merge(dst, src, false)|
    ensures var e := Merge(dst, src, false)[i];
            Has(src, e.name) && e == src[FirstIndex(src, e.name)]
  {
    var init, e := src[..|src| - 1], src[|src| - 1];
    var p := Merge(dst, init, false);
    if i < |p| {
      AddedVariable(dst, init, i);
      assert src == init + [e];
      FirstInLonger(init, e, p[i].name);
    } else {
      AddedIsFirst(dst, src);
    }
  }

  /** Without override the destination is a prefix of the result, and what follows are first entries of
      the source. */
  lemma KeepMeaning(dst: Envs, src: Envs)
    ensures dst <= Merge(dst, src, false)
    ensures forall i :: |dst| <= i < |Merge(dst, src, false)| ==>
              var e := Merge(dst, src, false)[i];
              Has(src, e.name) && e == src[FirstIndex(src, e.name)]
  {
    DestinationStays(dst, src);
    forall i | |dst| <= i < |Merge(dst, src, false)|
      ensures var e := Merge(dst, src, false)[i]; Has(src, e.name) && e == src[FirstIndex(src, e.name)]
    {
      AddedVariable(dst, src, i);
    }
  }

  lemma FirstInLonger(init: Envs, e: EnvVar, name: string)
    requires Has(init, name)
    ensures FirstIndex(init + [e], name) == FirstIndex(init, name)
  {
    var i := FirstIndex(init, name);
    assert (init + [e])[i].name == name;
    assert forall j :: 0 <= j < i ==> (init + [e])[j].name != name;
  }

  /** Merging the same source twice is merging it once, for all lists and both modes. */
  lemma MergeIdempotent(dst: Envs, src: Envs, override: bool)
    ensures Merge(Merge(dst, src, override), src, override) == Merge(dst, src, override)
  {
    var once := Merge(dst, src, override);
    var twice := Merge(once, src, override);
    MergeNames(dst, src, override);
    MergeNames(once, src, override);
    NothingNew(Names(once), Names(src));
    if override {
      forall i | 0 <= i < |once|
        ensures once[i] == twice[i]
      {
        MergeMeaning(dst, src, i);
        MergeMeaning(once, src, i);
        SameNamesSameIndex(once, twice, once[i].name);
        assert Names(once)[i] == Names(twice)[i];
      }
    } else {
      KeepMeaning(once, src);
      assert |Names(once)| == |Names(twice)|;
    }
  }

  /** A merge into a list with unique names has unique names, whatever the source repeats. */
  lemma {:induction false} MergeKeepsUnique(dst: Envs, src: Envs, override: bool)
    requires UniqueNames(dst)
    ensures UniqueNames(Merge(dst, src, override))
  {
    if src != [] {
      MergeKeepsUnique(dst, src[..|src| - 1], override);
    }
  }

  lemma {:induction false} NothingNew(names: seq<string>, more: seq<string>)
    requires forall x :: x in more ==> x in names
    ensures Union(names, more) == names
  {
    if more != [] {
      assert more[|more| - 1] in more;
      NothingNew(names, more[..|more| - 1]);
    }
  }

  lemma {:induction false} UnionAppend(names: seq<string>, a: seq<string>, b: seq<string>)
    ensures Union(names, a + b) == Union(Union(names, a), b)
  {
    if b == [] {
      assert a + b == a;
    } else {
      assert (a + b)[..|a + b| - 1] == a + b[..|b| - 1];
      UnionAppend(names, a, b[..|b| - 1]);
    }
  }

  lemma {:induction false} UnionAssociative(a: seq<string>, b: seq<string>, c: seq<string>)
    ensures Union(Union(a, b), c) == Union(a, Union(b, c))
  {
    if c != [] {
      var init, x := c[..|c| - 1], c[|c| - 1];
      UnionAssociative(a, b, init);
      var u := Union(b, init);
      assert c == init + [x];
      UnionAppend(a, u, [x]);
      assert [x][..0] == [];
      assert Union(Union(a, u), [x]) == if x in Union(a, u) then Union(a, u) else Union(a, u) + [x];
    }
  }

  predicate Duplicated(list: Envs, name: string) {
    exists i :: FirstIndex(list, name) < i < |list| && list[i].name == name
  }

  /** A name that occurs twice in `b` and also in `c` has the same last entry in both. */
  ghost predicate RepeatsAgree(b: Envs, c: Envs) {
    forall name :: Duplicated(b, name) && Has(c, name) ==> LastWith(b, name) == LastWith(c, name)
  }

  /** The last entry of a name in a merge. */
  lemma LastOfMerge(b: Envs, c: Envs, name: string)
    requires Has(b, name) || Has(c, name)
    ensures Has(Merge(b, c, true), name)
    ensures LastWith(Merge(b, c, true), name)
            == if Has(c, name) && !Duplicated(b, name) then LastWith(c, name) else LastWith(b, name)
  {
    var m := Merge(b, c, true);
    MergeNames(b, c, true);
    HasIsIn(m, name); HasIsIn(b, name); HasIsIn(c, name);
    var i := LastPosition(m, name);
    MergeMeaning(b, c, i);
    if Has(b, name) {
      var j := LastPosition(b, name);
      assert Names(m)[j] == Names(b)[j];
      assert forall k :: 0 <= k < |b| ==> Names(m)[k] == Names(b)[k];
      assert i == j;
      assert FirstIndex(m, name) == FirstIndex(b, name) by {
        var f := FirstIndex(b, name);
        assert Names(m)[f] == name;
        forall k | 0 <= k < f ensures m[k].name != name { assert Names(m)[k] == Names(b)[k]; }
      }
    }
  }

  lemma {:induction false} LastPosition(list: Envs, name: string) returns (i: nat)
    requires Has(list, name)
    ensures i < |list| && list[i].name == name && LastWith(list, name) == list[i]
    ensures forall j :: i < j < |list| ==> list[j].name != name
  {
    i := |list| - 1;
    if list[i].name != name {
      HasShorter(list, name);
      i := LastPosition(list[..i], name);
    }
  }

  /** Main result: merging is associative exactly when the repeats of the middle list agree with
      the last list; the first list plays no part. */
  lemma MergeAssociative(a: Envs, b: Envs, c: Envs)
    ensures Merge(Merge(a, b, true), c, true) == Merge(a, Merge(b, c, true), true) <==> RepeatsAgree(b, c)
  {
    var left, right := Merge(Merge(a, b, true), c, true), Merge(a, Merge(b, c, true), true);
    AssociativeNames(a, b, c);
    if RepeatsAgree(b, c) {
      forall i | 0 <= i < |left|
        ensures left[i] == right[i]
      {
        AssociativeAt(a, b, c, i);
      }
    } else {
      var name :| Duplicated(b, name) && Has(c, name) && LastWith(b, name) != LastWith(c, name);
      HasIsIn(c, name); HasIsIn(left, name);
      MergeNames(Merge(a, b, true), c, true);
      AssociativeAt(a, b, c, FirstIndex(left, name));
    }
  }

  lemma AssociativeNames(a: Envs, b: Envs, c: Envs)
    ensures Names(Merge(Merge(a, b, true), c, true)) == Names(Merge(a, Merge(b, c, true), true))
  {
    MergeNames(Merge(a, b, true), c, true);
    MergeNames(a, b, true);
    MergeNames(a, Merge(b, c, true), true);
    MergeNames(b, c, true);
    UnionAssociative(Names(a), Names(b), Names(c));
  }

  lemma AssociativeAt(a: Envs, b: Envs, c: Envs, i: nat)
    requires i < |Merge(Merge(a, b, true), c, true)|
    ensures i < |Merge(a, Merge(b, c, true), true)|
    ensures var left, right := Merge(Merge(a, b, true), c, true), Merge(a, Merge(b, c, true), true);
            var name := left[i].name;
            if FirstIndex(left, name) == i && Has(c, name) && Duplicated(b, name)
            then left[i] == LastWith(c, name) && right[i] == LastWith(b, name)
            else left[i] == right[i]
  {
    var ab, bc := Merge(a, b, true), Merge(b, c, true);
    var left, right := Merge(ab, c, true), Merge(a, bc, true);
    AssociativeNames(a, b, c);
    assert |Names(left)| == |Names(right)|;
    var name := left[i].name;
    assert Names(left)[i] == Names(right)[i];
    SameNamesSameIndex(left, right, name);
    MergeMeaning(ab, c, i);
    MergeMeaning(a, bc, i);
    MergeNames(ab, c, true); MergeNames(a, b, true); MergeNames(b, c, true); MergeNames(a, bc, true);
    HasIsIn(b, name); HasIsIn(c, name); HasIsIn(bc, name);
    if Has(bc, name) { LastOfMerge(b, c, name); }
    if i < |ab| {
      MergeMeaning(a, b, i);
      assert Names(left)[i] == Names(ab)[i];
      PrefixIndex(Names(ab), ab, left, i);
    }
  }

  /** In a list that extends another by names, first positions within the shorter one agree. */
  lemma PrefixIndex(names: seq<string>, short: Envs, long: Envs, i: nat)
    requires names == Names(short) && names <= Names(long) && i < |short|
    ensures FirstIndex(short, short[i].name) == FirstIndex(long, short[i].name)
  {
  }

  /** The case the operator relies on: unique names in the middle. */
  lemma UniqueMiddleAssociates(a: Envs, b: Envs, c: Envs)
    requires UniqueNames(b)
    ensures Merge(Merge(a, b, true), c, true) == Merge(a, Merge(b, c, true), true)
  {
    MergeAssociative(a, b, c);
  }

  /** A repeated name in the middle breaks it. */
  lemma RepeatedMiddleDoesNotAssociate(old1: EnvVar, old2: EnvVar, new3: EnvVar)
    requires old1.name == old2.name == new3.name && old2 != new3
    ensures Merge(Merge([], [old1, old2], true), [new3], true) != Merge([], Merge([old1, old2], [new3], true), true)
  {
    var b, c := [old1, old2], [new3];
    assert FirstIndex(b, old1.name) == 0 && b[1].name == old1.name;
    assert Duplicated(b, old1.name) && Has(c, old1.name);
    assert LastWith(b, old1.name) == old2 && LastWith(c, old1.name) == new3;
    MergeAssociative([], b, c);
  }

  // --------------------------------------------------------------------------
  // Business variables.

  /** The entries whose name is not in `biz`. */
  function Clean(list: Envs, biz: set<string>): Envs {
    if list == [] then []
    else
      var init, e := Clean(list[..|list| - 1], biz), list[|list| - 1];
      if e.name in biz then init else init + [e]
  }

  method CleanEnv(envs: Envs, biz: set<string>) returns (kept: Envs)
    ensures kept == Clean(envs, biz)
  {
    kept := [];
    for i := 0 to |envs|
      invariant kept == Clean(envs[..i], biz)
    {
      assert envs[..i + 1][..i] == envs[..i];
      if envs[i].name !in biz {
        kept := kept + [envs[i]];
      }
    }
    assert envs[..|envs|] == envs;
  }

  /** Kept are exactly the entries that name no business variable, so nothing is lost exactly when there
      is none. */
  lemma {:induction false} CleanMeaning(list: Envs, biz: set<string>)
    ensures forall e :: e in Clean(list, biz) <==> e in list && e.name !in biz
    ensures Clean(list, biz) == list <==> forall i :: 0 <= i < |list| ==> list[i].name !in biz
  {
    if list != [] {
      var init, e := list[..|list| - 1], list[|list| - 1];
      CleanMeaning(init, biz);
      assert list == init + [e];
      if e.name in biz { assert e !in Clean(list, biz); }
    }
  }

  lemma {:induction false} CleanAppend(a: Envs, b: Envs, biz: set<string>)
    ensures Clean(a + b, biz) == Clean(a, biz) + Clean(b, biz)
  {
    if b == [] {
      assert a + b == a;
    } else {
      assert (a + b)[..|a + b| - 1] == a + b[..|b| - 1];
      CleanAppend(a, b[..|b| - 1], biz);
    }
  }

  lemma {:induction false} CleanKeeps(list: Envs, biz: set<string>, name: string)
    requires name !in biz
    ensures Has(Clean(list, biz), name) <==> Has(list, name)
  {
    HasIsIn(list, name);
    HasIsIn(Clean(list, biz), name);
    if list != [] {
      var init, e := list[..|list| - 1], list[|list| - 1];
      CleanKeeps(init, biz, name);
      HasIsIn(init, name);
      HasIsIn(Clean(init, biz), name);
      assert Names(list) == Names(init) + [e.name];
      assert Names(Clean(init, biz) + [e]) == Names(Clean(init, biz)) + [e.name];
    }
  }

  lemma MergeOneInFront(init: Envs, x: EnvVar, e: EnvVar, override: bool)
    requires Has(init, e.name)
    ensures MergeOne(init + [x], e, override) == MergeOne(init, e, override) + [x]
  {
    FirstInLonger(init, x, e.name);
  }

  lemma MergeOneAtEnd(init: Envs, x: EnvVar, e: EnvVar, override: bool)
    requires !Has(init, e.name) && x.name == e.name
    ensures MergeOne(init + [x], e, override) == init + [if override then e else x]
  {
    assert (init + [x])[|init|] == x;
    assert forall j :: 0 <= j < |init| ==> (init + [x])[j].name != e.name;
    assert FirstIndex(init + [x], e.name) == |init|;
  }

  lemma CleanLonger(init: Envs, e: EnvVar, biz: set<string>)
    ensures Clean(init + [e], biz) == if e.name in biz then Clean(init, biz) else Clean(init, biz) + [e]
  {
  }

  lemma {:induction false} CleanOne(list: Envs, e: EnvVar, biz: set<string>, override: bool)
    ensures Clean(MergeOne(list, e, override), biz)
            == if e.name in biz then Clean(list, biz) else MergeOne(Clean(list, biz), e, override)
  {
    CleanLonger(list, e, biz);
    if e.name !in biz { CleanKeeps(list, biz, e.name); }
    if Has(list, e.name) {
      var init, x := list[..|list| - 1], list[|list| - 1];
      assert list == init + [x];
      if Has(init, e.name) {
        CleanOne(init, e, biz, override);
        MergeOneInFront(init, x, e, override);
        CleanInFront(init, x, e, biz, override);
      } else {
        assert x.name == e.name;
        MergeOneAtEnd(init, x, e, override);
        CleanLonger(init, x, biz);
        CleanLonger(init, if override then e else x, biz);
        if e.name !in biz {
          CleanKeeps(init, biz, e.name);
          MergeOneAtEnd(Clean(init, biz), x, e, override);
        }
      }
    }
  }

  lemma CleanInFront(init: Envs, x: EnvVar, e: EnvVar, biz: set<string>, override: bool)
    requires Has(init, e.name)
    requires Clean(MergeOne(init, e, override), biz)
             == if e.name in biz then Clean(init, biz) else MergeOne(Clean(init, biz), e, override)
    ensures Clean(MergeOne(init, e, override) + [x], biz)
            == if e.name in biz then Clean(init + [x], biz) else MergeOne(Clean(init + [x], biz), e, override)
  {
    CleanLonger(MergeOne(init, e, override), x, biz);
    CleanLonger(init, x, biz);
    if e.name !in biz {
      CleanKeeps(init, biz, e.name);
      MergeOneInFront(Clean(init, biz), x, e, override);
    }
  }

  /** Main result: cleaning commutes with merging, for all lists and both modes. */
  lemma {:induction false} CleanCommutesWithMerge(dst: Envs, src: Envs, biz: set<string>, override: bool)
    ensures Clean(Merge(dst, src, override), biz) == Merge(Clean(dst, biz), Clean(src, biz), override)
  {
    if src != [] {
      var init, e := src[..|src| - 1], src[|src| - 1];
      CleanCommutesWithMerge(dst, init, biz, override);
      CleanOne(Merge(dst, init, override), e, biz, override);
      assert (Clean(init, biz) + [e])[..|Clean(init, biz)|] == Clean(init, biz);
    }
  }

  // --------------------------------------------------------------------------
  // Decoding.

  function DecodeVar(v: Values, e: EnvVar): EnvVar {
    e.(value := Decode(v, e.value).text)
  }

  function DecodeAll(v: Values, list: Envs): (decoded: Envs)
    ensures |decoded| == |list|
    ensures forall i :: 0 <= i < |list| ==> decoded[i] == DecodeVar(v, list[i])
  {
    seq(|list|, i requires 0 <= i < |list| => DecodeVar(v, list[i]))
  }

  /** Decoding replaces values; names and sources stay. */
  lemma DecodingKeepsRest(v: Values, list: Envs, i: nat)
    requires i < |list|
    ensures DecodeAll(v, list)[i] == EnvVar(list[i].name, Decode(v, list[i].value).text, list[i].valueFrom)
  {
  }

  ghost predicate AnyMentions(list: Envs) {
    exists i :: 0 <= i < |list| && Mentions(list[i].value)
  }

  method DecodeEnvs(v: Values, envVars: array<EnvVar>) returns (updated: bool)
    modifies envVars
    ensures envVars[..] == DecodeAll(v, old(envVars[..]))
    ensures updated == AnyMentions(old(envVars[..]))
  {
    updated := false;
    ghost var was := envVars[..];
    for i := 0 to envVars.Length
      invariant forall k :: 0 <= k < i ==> envVars[k] == DecodeVar(v, was[k])
      invariant forall k :: i <= k < envVars.Length ==> envVars[k] == was[k]
      invariant updated <==> exists k :: 0 <= k < i && Mentions(was[k].value)
    {
      var result := Decode(v, envVars[i].value);
      ReplacedExactly(v, was[i].value);
      if result.replaced {
        updated := true;
      }
      envVars[i] := envVars[i].(value := result.text);
    }
  }

  /** A decoded list holds no placeholder, and decoding it again changes nothing. */
  lemma DecodeAllEliminates(v: Values, w: Values, list: Envs)
    requires SafeValues(v)
    ensures !AnyMentions(DecodeAll(v, list))
    ensures DecodeAll(w, DecodeAll(v, list)) == DecodeAll(v, list)
  {
    forall i | 0 <= i < |list|
      ensures !Mentions(DecodeAll(v, list)[i].value)
      ensures DecodeVar(w, DecodeAll(v, list)[i]) == DecodeAll(v, list)[i]
    {
      DecodeEliminates(v, w, list[i].value);
    }
  }

  lemma DecodeOne(v: Values, list: Envs, e: EnvVar)
    ensures DecodeAll(v, MergeOne(list, e, true)) == MergeOne(DecodeAll(v, list), DecodeVar(v, e), true)
  {
  }

  /** Decoding commutes with merging. */
  lemma {:induction false} DecodeCommutesWithMerge(v: Values, dst: Envs, src: Envs)
    ensures DecodeAll(v, Merge(dst, src, true)) == Merge(DecodeAll(v, dst), DecodeAll(v, src), true)
  {
    if src != [] {
      var init, e := src[..|src| - 1], src[|src| - 1];
      DecodeCommutesWithMerge(v, dst, init);
      DecodeOne(v, Merge(dst, init, true), e);
      assert DecodeAll(v, src)[..|src| - 1] == DecodeAll(v, init);
    }
  }

  /** Decoding commutes with cleaning: it leaves names alone. */
  lemma {:induction false} DecodeCommutesWithClean(v: Values, list: Envs, biz: set<string>)
    ensures DecodeAll(v, Clean(list, biz)) == Clean(DecodeAll(v, list), biz)
  {
    if list != [] {
      var init := list[..|list| - 1];
      DecodeCommutesWithClean(v, init, biz);
      assert DecodeAll(v, list)[..|list| - 1] == DecodeAll(v, init);
      assert DecodeAll(v, Clean(init, biz) + [list[|list| - 1]])
          == DecodeAll(v, Clean(init, biz)) + [DecodeVar(v, list[|list| - 1])];
    }
  }
}
