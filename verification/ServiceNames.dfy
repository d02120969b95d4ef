/** The text listing the services of a boot (`TransferServiceNames` in pkg/logan/operator/boot.go):
    sorted names joined by commas, the same for every order in which the API server lists them. */
module ServiceNames {

  /** Byte-wise string order, as sort.Strings uses it. */
  predicate AtMost(a: string, b: string) {
    a == [] || (b != [] && (a[0] < b[0] || (a[0] == b[0] && AtMost(a[1..], b[1..]))))
  }

  lemma {:induction false} OrderTotal(a: string, b: string)
    ensures AtMost(a, b) || AtMost(b, a)
  {
    if a != [] && b != [] && a[0] == b[0] {
      OrderTotal(a[1..], b[1..]);
    }
  }

  lemma {:induction false} OrderAntisymmetric(a: string, b: string)
    requires AtMost(a, b) && AtMost(b, a)
    ensures a == b
  {
    if a != [] && b != [] {
      OrderAntisymmetric(a[1..], b[1..]);
      assert a == [a[0]] + a[1..] && b == [b[0]] + b[1..];
    }
  }

  lemma {:induction false} OrderTransitive(a: string, b: string, c: string)
    requires AtMost(a, b) && AtMost(b, c)
    ensures AtMost(a, c)
  {
    if a != [] && a[0] == b[0] && b[0] == c[0] {
      OrderTransitive(a[1..], b[1..], c[1..]);
    }
  }

  function Insert(x: string, sorted: seq<string>): seq<string> {
    if sorted == [] || AtMost(x, sorted[0]) then [x] + sorted
    else [sorted[0]] + Insert(x, sorted[1..])
  }

  function Sort(list: seq<string>): seq<string> {
    if list == [] then [] else Insert(list[0], Sort(list[1..]))
  }

  predicate Sorted(list: seq<string>) {
    forall i, j :: 0 <= i < j < |list| ==> AtMost(list[i], list[j])
  }

  lemma {:induction false} InsertSorts(x: string, sorted: seq<string>)
    requires Sorted(sorted)
    ensures Sorted(Insert(x, sorted))
    ensures multiset(Insert(x, sorted)) == multiset(sorted) + multiset{x}
  {
    if sorted == [] {
    } else if AtMost(x, sorted[0]) {
      forall j | 0 <= j < |sorted| ensures AtMost(x, sorted[j]) {
        if j > 0 { OrderTransitive(x, sorted[0], sorted[j]); }
      }
    } else {
      OrderTotal(x, sorted[0]);
      InsertSorts(x, sorted[1..]);
      assert sorted == [sorted[0]] + sorted[1..];
      var rest := Insert(x, sorted[1..]);
      forall j | 0 <= j < |rest| ensures AtMost(sorted[0], rest[j]) {
        assert rest[j] in multiset(rest);
        assert rest[j] == x || rest[j] in sorted[1..];
      }
    }
  }

  lemma {:induction false} SortSorts(list: seq<string>)
    ensures Sorted(Sort(list)) && multiset(Sort(list)) == multiset(list)
  {
    if list != [] {
      SortSorts(list[1..]);
      InsertSorts(list[0], Sort(list[1..]));
      assert list == [list[0]] + list[1..];
    }
  }

  lemma HeadsAgree(a: seq<string>, b: seq<string>)
    requires Sorted(a) && Sorted(b) && multiset(a) == multiset(b)
    requires a != [] && b != []
    ensures a[0] == b[0]
  {
    assert a[0] in multiset(b) && b[0] in multiset(a);
    var i :| 0 <= i < |b| && b[i] == a[0];
    var j :| 0 <= j < |a| && a[j] == b[0];
    if i > 0 && j > 0 {
      OrderAntisymmetric(a[0], b[0]);
    }
  }

  lemma {:induction false} SortedIsUnique(a: seq<string>, b: seq<string>)
    requires Sorted(a) && Sorted(b) && multiset(a) == multiset(b)
    ensures a == b
  {
    assert |multiset(a)| == |a| && |multiset(b)| == |b|;
    if a != [] {
      HeadsAgree(a, b);
      assert a == [a[0]] + a[1..] && b == [b[0]] + b[1..];
      assert multiset(a[1..]) == multiset(a) - multiset{a[0]};
      assert multiset(b[1..]) == multiset(b) - multiset{b[0]};
      SortedIsUnique(a[1..], b[1..]);
    }
  }

  function Join(list: seq<string>): string {
    if list == [] then "" else if |list| == 1 then list[0] else list[0] + "," + Join(list[1..])
  }

  function TransferServiceNames(names: seq<string>): string {
    Join(Sort(names))
  }

  /** Main result: the text depends on which services there are, not on the order they are listed in. */
  lemma OrderDoesNotShow(a: seq<string>, b: seq<string>)
    requires multiset(a) == multiset(b)
    ensures TransferServiceNames(a) == TransferServiceNames(b)
  {
    SortSorts(a);
    SortSorts(b);
    SortedIsUnique(Sort(a), Sort(b));
  }

  predicate NoComma(s: string) {
    s != "" && forall i :: 0 <= i < |s| ==> s[i] != ','
  }

  lemma ShorterDiffers(x: string, rest: string, y: string, more: string)
    requires NoComma(y) && |x| < |y|
    ensures x + "," + rest != y + "," + more
  {
    assert (x + "," + rest)[|x|] == ',';
    assert (y + "," + more)[|x|] == y[|x|];
  }

  lemma FirstCommaDecides(x: string, rest: string, y: string, more: string)
    requires NoComma(x) && NoComma(y) && x + "," + rest == y + "," + more
    ensures x == y && rest == more
  {
    if |x| < |y| { ShorterDiffers(x, rest, y, more); }
    if |y| < |x| { ShorterDiffers(y, more, x, rest); }
    var s := x + "," + rest;
    assert s[..|x|] == x && s[..|y|] == y && s[|x| + 1..] == rest && s[|y| + 1..] == more;
  }

  lemma LongerHasComma(a: seq<string>, x: string)
    requires |a| >= 2 && NoComma(x)
    ensures Join(a) != x
  {
    assert Join(a)[|a[0]|] == ',';
  }

  /** A list of names without commas can be read back from its text. */
  lemma {:induction false} JoinTells(a: seq<string>, b: seq<string>)
    requires forall i :: 0 <= i < |a| ==> NoComma(a[i])
    requires forall i :: 0 <= i < |b| ==> NoComma(b[i])
    requires Join(a) == Join(b)
    ensures a == b
  {
    if |a| >= 2 && |b| >= 2 {
      FirstCommaDecides(a[0], Join(a[1..]), b[0], Join(b[1..]));
      JoinTells(a[1..], b[1..]);
      assert a == [a[0]] + a[1..] && b == [b[0]] + b[1..];
    } else if |a| >= 2 && |b| == 1 {
      LongerHasComma(a, b[0]);
    } else if |b| >= 2 && |a| == 1 {
      LongerHasComma(b, a[0]);
    }
  }

  lemma Sorting(s: set<string>)
    ensures forall x :: x in Sort(Listing(s)) <==> x in s
  {
    SortSorts(Listing(s));
    forall x
      ensures x in Sort(Listing(s)) <==> x in s
    {
      assert x in Sort(Listing(s)) <==> x in multiset(Sort(Listing(s)));
    }
  }

  /** Main result: different sets of names have different texts. */
  lemma NamesTextTells(a: set<string>, b: set<string>)
    requires forall x :: x in a || x in b ==> NoComma(x)
    ensures NamesText(a) == NamesText(b) <==> a == b
  {
    Sorting(a);
    Sorting(b);
    if NamesText(a) == NamesText(b) {
      JoinTells(Sort(Listing(a)), Sort(Listing(b)));
      assert forall x :: x in a <==> x in b;
    }
  }

  /** The text lists the names in ascending order. */
  lemma TextIsAscending(a: string, b: string)
    requires AtMost(a, b)
    ensures TransferServiceNames([b, a]) == a + "," + b
  {
    if AtMost(b, a) { OrderAntisymmetric(a, b); }
    assert [b, a][1..] == [a] && [a][1..] == [];
    assert Sort([a]) == [a];
    assert Sort([b, a]) == Insert(b, [a]);
    assert Insert(b, [a]) == [a, b];
    assert [a, b][1..] == [b] && Join([b]) == b;
    assert Join([a, b]) == a + "," + Join([a, b][1..]);
  }

  /** A name comes before its extensions, so an app service before its external one. */
  lemma PrefixComesFirst(name: string, more: string)
    ensures TransferServiceNames([name + more, name]) == name + "," + (name + more)
  {
    PrefixIsAtMost(name, more);
    TextIsAscending(name, name + more);
  }

  /** Otherwise the first character in which two names differ decides. */
  lemma SmallerComesFirst(start: string, c: char, x: string, d: char, y: string)
    requires c < d
    ensures var first, second := start + [c] + x, start + [d] + y;
            TransferServiceNames([second, first]) == first + "," + second
  {
    FirstDifference(start, c, x, d, y);
    TextIsAscending(start + [c] + x, start + [d] + y);
  }

  lemma {:induction false} FirstDifference(start: string, c: char, x: string, d: char, y: string)
    requires c < d
    ensures AtMost(start + [c] + x, start + [d] + y)
  {
    if start != [] {
      FirstDifference(start[1..], c, x, d, y);
      assert (start + [c] + x)[1..] == start[1..] + [c] + x;
      assert (start + [d] + y)[1..] == start[1..] + [d] + y;
    }
  }

  lemma {:induction false} PrefixIsAtMost(a: string, more: string)
    ensures AtMost(a, a + more)
  {
    if a != [] {
      PrefixIsAtMost(a[1..], more);
      assert (a + more)[1..] == a[1..] + more;
    }
  }

  /** Some listing of a set, each member once. */
  ghost function Listing(s: set<string>): (list: seq<string>)
    ensures multiset(list) == multiset(s)
  {
    if s == {} then [] else
      var x :| x in s;
      assert s == {x} + (s - {x});
      [x] + Listing(s - {x})
  }

  /** The text of a set of names. */
  ghost function NamesText(s: set<string>): string {
    TransferServiceNames(Listing(s))
  }

  lemma ListedInAnyOrder(s: set<string>, list: seq<string>)
    requires multiset(list) == multiset(s)
    ensures TransferServiceNames(list) == NamesText(s)
  {
    OrderDoesNotShow(list, Listing(s));
  }
}
