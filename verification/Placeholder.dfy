/** The placeholders `${APP}`, `${ENV}` and `${PORT}` of the operator's configuration and
    their replacement (`Decode` in pkg/logan/operator/boot.go). */
module Placeholder {
  import opened Strconv
  import opened Wrappers

  datatype Token = App | Env | Port

  const ALL_TOKENS: set<Token> := {App, Env, Port}

  function Text(t: Token): string {
    match t
    case App => "${APP}"
    case Env => "${ENV}"
    case Port => "${PORT}"
  }

  /** The values a boot gives to the placeholders. */
  datatype Values = Values(app: string, env: string, port: int) {
    function Of(t: Token): string {
      match t
      case App => app
      case Env => env
      case Port => Itoa(port)
    }
  }

  predicate SafeChar(c: char) {
    c != '$' && c != '{' && c != '}' && !('A' <= c <= 'Z')
  }

  predicate NoDollar(s: string) {
    forall i :: 0 <= i < |s| ==> s[i] != '$'
  }

  /** Characters that a placeholder may hold behind its `$`. */
  predicate TailChars(s: string) {
    forall i :: 0 <= i < |s| ==> s[i] != '$' && !SafeChar(s[i])
  }

  /** Non-empty, no upper-case letter and none of `$`, `{`, `}`. */
  predicate Safe(s: string) {
    s != [] && forall i :: 0 <= i < |s| ==> SafeChar(s[i])
  }

  predicate SafeValues(v: Values) {
    Safe(v.app) && Safe(v.env)
  }

  predicate Contains(s: string, t: string) {
    t <= s || (s != [] && Contains(s[1..], t))
  }

  /** strings.ReplaceAll for a non-empty pattern: leftmost, non-overlapping. */
  function ReplaceAll(s: string, t: string, x: string): string
    requires t != []
    decreases |s|
  {
    if s == [] then []
    else if t <= s then x + ReplaceAll(s[|t|..], t, x)
    else [s[0]] + ReplaceAll(s[1..], t, x)
  }

  datatype Decoded = Decoded(text: string, replaced: bool)

  /** Each test looks at the original text, each replacement at the text so far. */
  function Decode(v: Values, origin: string): Decoded {
    var afterApp := if Contains(origin, Text(App)) then ReplaceAll(origin, Text(App), v.app) else origin;
    var afterEnv := if Contains(origin, Text(Env)) then ReplaceAll(afterApp, Text(Env), v.env) else afterApp;
    var afterPort := if Contains(origin, Text(Port)) then ReplaceAll(afterEnv, Text(Port), Itoa(v.port)) else afterEnv;
    Decoded(afterPort,
            Contains(origin, Text(App)) || Contains(origin, Text(Env)) || Contains(origin, Text(Port)))
  }

  predicate Mentions(s: string) {
    exists t: Token :: Contains(s, Text(t))
  }

  lemma ReplacedExactly(v: Values, origin: string)
    ensures Decode(v, origin).replaced <==> Mentions(origin)
  {
  }

  /** Which text stands for which value. */
  lemma PlaceholdersMean(v: Values)
    requires SafeValues(v)
    ensures Decode(v, "${APP}").text == v.app && Decode(v, "${ENV}").text == v.env
    ensures Decode(v, "${PORT}").text == Itoa(v.port)
  {
    assert Text(App)[2] == 'A' && Text(Env)[2] == 'E' && Text(Port)[2] == 'P';
    forall t: Token
      ensures Decode(v, Text(t)).text == v.Of(t)
    {
      DecodeIsSubstitution(v, Text(t));
      assert Text(t)[|Text(t)|..] == "";
    }
  }

  // --------------------------------------------------------------------------
  // The meaning of a replacement: one simultaneous pass over the text.

  /** The placeholder a text begins with. */
  function Head(s: string): (r: Option<Token>)
    ensures r.Some? ==> Text(r.value) <= s
    ensures forall t :: Text(t) <= s ==> r == Some(t)
    ensures s == [] || s[0] != '$' ==> r == None
  {
    assert Text(App)[2] == 'A' && Text(Env)[2] == 'E' && Text(Port)[2] == 'P';
    if Text(App) <= s then Some(App)
    else if Text(Env) <= s then Some(Env)
    else if Text(Port) <= s then Some(Port)
    else None
  }

  /** Replaces every placeholder of `which` in one left-to-right pass. */
  function Substitute(s: string, which: set<Token>, v: Values): string
    decreases |s|
  {
    if s == [] then []
    else
      match Head(s)
      case Some(t) => Put(t, which, v) + Substitute(s[|Text(t)|..], which, v)
      case None => [s[0]] + Substitute(s[1..], which, v)
  }

  function Put(t: Token, which: set<Token>, v: Values): string {
    if t in which then v.Of(t) else Text(t)
  }

  lemma ValuesAreSafe(t: Token, v: Values)
    requires SafeValues(v)
    ensures Safe(v.Of(t))
  {
    NatTextIsDigits(if v.port < 0 then -v.port else v.port);
  }

  /** Replacement passes over text that holds no `$`. */
  lemma {:induction false} ReplaceSkips(x: string, s: string, t: Token, y: string)
    requires NoDollar(x)
    ensures ReplaceAll(x + s, Text(t), y) == x + ReplaceAll(s, Text(t), y)
  {
    if x == [] {
      assert x + s == s;
    } else {
      var all, rest := x + s, x[1..];
      assert all[0] == x[0] && x[0] != Text(t)[0] && all[1..] == rest + s;
      ReplaceSkipsOne(all, Text(t), y);
      ReplaceSkips(rest, s, t, y);
      assert x == [x[0]] + rest;
    }
  }

  /** Replacing one placeholder passes over the text of another. */
  lemma ReplaceSkipsToken(k: Token, s: string, t: Token, y: string)
    requires k != t
    ensures ReplaceAll(Text(k) + s, Text(t), y) == Text(k) + ReplaceAll(s, Text(t), y)
  {
    TokenSplits(k, t);
    var middle := Text(k)[1..];
    assert Text(k) == ['$'] + middle;
    ReplaceSkipsDollar(middle, s, t, y);
  }

  /** A dollar, then text without one that differs from the placeholder in its second character. */
  lemma ReplaceSkipsDollar(middle: string, s: string, t: Token, y: string)
    requires NoDollar(middle) && |middle| >= 2 && middle[1] != Text(t)[2]
    ensures ReplaceAll(['$'] + middle + s, Text(t), y) == ['$'] + middle + ReplaceAll(s, Text(t), y)
  {
    var all := ['$'] + middle + s;
    assert all[2] == middle[1] && all[1..] == middle + s;
    ReplaceSkips(middle, s, t, y);
    ReplaceSkipsOne(all, Text(t), y);
  }

  lemma TokenSplits(k: Token, t: Token)
    ensures NoDollar(Text(k)[1..]) && |Text(k)| > 2 && |Text(t)| > 2
    ensures k != t ==> Text(k)[2] != Text(t)[2]
  {
  }

  /** A pass creates no new continuation of a placeholder: its replacements start with a
      character no placeholder contains. */
  lemma {:induction false} NoNewTail(w: string, s: string, which: set<Token>, v: Values)
    requires SafeValues(v)
    requires TailChars(w)
    requires w <= Substitute(s, which, v)
    ensures w <= s
  {
    if w != [] && s != [] {
      ValuesAreSafe(App, v); ValuesAreSafe(Env, v); ValuesAreSafe(Port, v);
      var r := Substitute(s, which, v);
      assert r[0] == w[0];
      if Head(s) == None {
        assert r == [s[0]] + Substitute(s[1..], which, v);
        assert w[1..] <= Substitute(s[1..], which, v);
        NoNewTail(w[1..], s[1..], which, v);
        assert w == [w[0]] + w[1..];
      }
    }
  }

  lemma TokenTails(t: Token)
    ensures TailChars(Text(t)[1..])
  {
  }

  lemma TokenFromTail(t: Token, s: string)
    requires s != [] && s[0] == '$' && Text(t)[1..] <= s[1..]
    ensures Text(t) <= s
  {
  }

  /** No placeholder starts at a character that started none before. */
  lemma NoNewToken(t: Token, s: string, which: set<Token>, v: Values)
    requires SafeValues(v)
    requires s != [] && Head(s) == None
    ensures !(Text(t) <= [s[0]] + Substitute(s[1..], which, v))
  {
    var r := [s[0]] + Substitute(s[1..], which, v);
    if Text(t) <= r {
      assert r[1..] == Substitute(s[1..], which, v);
      assert Text(t)[1..] <= r[1..];
      TokenTails(t);
      NoNewTail(Text(t)[1..], s[1..], which, v);
      TokenFromTail(t, s);
    }
  }

  /** Replacing one more placeholder after a pass is the pass that also replaces it. */
  lemma {:induction false} ReplaceExtends(s: string, which: set<Token>, t: Token, v: Values)
    requires SafeValues(v)
    ensures ReplaceAll(Substitute(s, which - {t}, v), Text(t), v.Of(t)) == Substitute(s, which + {t}, v)
    decreases |s|
  {
    if s != [] {
      if Head(s).Some? {
        var k := Head(s).value;
        ReplaceExtendsAtToken(s, k, which, t, v);
      } else {
        NoNewToken(t, s, which - {t}, v);
        ReplaceExtends(s[1..], which, t, v);
      }
    }
  }

  lemma {:induction false} ReplaceExtendsAtToken(s: string, k: Token, which: set<Token>, t: Token, v: Values)
    requires SafeValues(v)
    requires Text(k) <= s
    ensures ReplaceAll(Substitute(s, which - {t}, v), Text(t), v.Of(t)) == Substitute(s, which + {t}, v)
    decreases |s|, 0
  {
    var rest := s[|Text(k)|..];
    var inner := Substitute(rest, which - {t}, v);
    ReplaceExtends(rest, which, t, v);
    assert Substitute(s, which - {t}, v) == Put(k, which - {t}, v) + inner;
    assert Substitute(s, which + {t}, v) == Put(k, which + {t}, v) + Substitute(rest, which + {t}, v);
    if k == t {
      assert (Text(t) + inner)[|Text(t)|..] == inner;
    } else if k in which {
      ValuesAreSafe(k, v);
      ReplaceSkips(v.Of(k), inner, t, v.Of(t));
    } else {
      ReplaceSkipsToken(k, inner, t, v.Of(t));
    }
  }

  lemma {:induction false} SubstituteNothing(s: string, v: Values)
    ensures Substitute(s, {}, v) == s
    decreases |s|
  {
    if s != [] {
      if Head(s).Some? {
        var k := Head(s).value;
        SubstituteNothing(s[|Text(k)|..], v);
      } else {
        SubstituteNothing(s[1..], v);
      }
    }
  }

  lemma {:induction false} ContainsAfter(s: string, t: Token, n: nat)
    requires n <= |s|
    requires Contains(s[n..], Text(t))
    ensures Contains(s, Text(t))
  {
    if n > 0 {
      assert s[1..][n - 1..] == s[n..];
      ContainsAfter(s[1..], t, n - 1);
    }
  }

  /** A placeholder that does not occur makes no difference to a pass. */
  lemma {:induction false} AbsentToken(s: string, t: Token, which: set<Token>, v: Values)
    requires !Contains(s, Text(t))
    ensures Substitute(s, which + {t}, v) == Substitute(s, which - {t}, v)
    decreases |s|
  {
    if s != [] {
      if Head(s).Some? {
        var k := Head(s).value;
        var n := |Text(k)|;
        if Contains(s[n..], Text(t)) { ContainsAfter(s, t, n); }
        AbsentToken(s[n..], t, which, v);
      } else {
        AbsentToken(s[1..], t, which, v);
      }
    }
  }

  /** Main result: the three guarded replacements are one simultaneous substitution. */
  lemma DecodeIsSubstitution(v: Values, s: string)
    requires SafeValues(v)
    ensures Decode(v, s).text == Substitute(s, ALL_TOKENS, v)
    ensures Decode(v, s).replaced <==> Mentions(s)
  {
    SubstituteNothing(s, v);
    OneReplacement(s, {}, App, v);
    OneReplacement(s, {App}, Env, v);
    OneReplacement(s, {App, Env}, Port, v);
    assert {App, Env} + {Port} == ALL_TOKENS && {App} + {Env} == {App, Env} && {} + {App} == {App};
    assert {App, Env} - {Port} == {App, Env} && {App} - {Env} == {App};
    if t: Token :| Contains(s, Text(t)) {
      assert t == App || t == Env || t == Port;
    }
  }

  lemma OneReplacement(s: string, which: set<Token>, t: Token, v: Values)
    requires SafeValues(v)
    requires t !in which
    ensures var before := Substitute(s, which, v);
            (if Contains(s, Text(t)) then ReplaceAll(before, Text(t), v.Of(t)) else before)
            == Substitute(s, which + {t}, v)
  {
    assert which - {t} == which;
    ReplaceExtends(s, which, t, v);
    if !Contains(s, Text(t)) {
      AbsentToken(s, t, which, v);
    }
  }

  /** The three replacements commute: any order without repetition gives the decoded text. */
  lemma ReplacementsCommute(v: Values, s: string, a: Token, b: Token, c: Token)
    requires SafeValues(v)
    requires {a, b, c} == ALL_TOKENS
    ensures ReplaceAll(ReplaceAll(ReplaceAll(s, Text(a), v.Of(a)), Text(b), v.Of(b)), Text(c), v.Of(c))
            == Decode(v, s).text
  {
    DecodeIsSubstitution(v, s);
    SubstituteNothing(s, v);
    ReplaceExtends(s, {}, a, v);
    ReplaceExtends(s, {a}, b, v);
    ReplaceExtends(s, {a, b}, c, v);
    AllDifferent(a, b, c);
    assert {} - {a} == {} && {} + {a} == {a} && {a} - {b} == {a} && {a} + {b} == {a, b};
    assert {a, b} - {c} == {a, b} && {a, b} + {c} == {a, b, c};
  }

  lemma AllDifferent(a: Token, b: Token, c: Token)
    requires {a, b, c} == ALL_TOKENS
    ensures a != b && b != c && a != c
  {
  }

  /** No placeholder is left, wherever it could have come from. */
  lemma {:induction false} NothingLeft(s: string, t: Token, v: Values)
    requires SafeValues(v)
    ensures !Contains(Substitute(s, ALL_TOKENS, v), Text(t))
    decreases |s|
  {
    if s != [] {
      if Head(s).Some? {
        var k := Head(s).value;
        NothingLeft(s[|Text(k)|..], t, v);
        ValuesAreSafe(k, v);
        AbsentBehind(v.Of(k), Substitute(s[|Text(k)|..], ALL_TOKENS, v), t);
      } else {
        NothingLeft(s[1..], t, v);
        NoNewToken(t, s, ALL_TOKENS, v);
        assert ([s[0]] + Substitute(s[1..], ALL_TOKENS, v))[1..] == Substitute(s[1..], ALL_TOKENS, v);
      }
    }
  }

  lemma {:induction false} AbsentBehind(x: string, s: string, t: Token)
    requires NoDollar(x)
    requires !Contains(s, Text(t))
    ensures !Contains(x + s, Text(t))
  {
    if x == [] {
      assert x + s == s;
    } else {
      assert (x + s)[0] != Text(t)[0];
      assert (x + s)[1..] == x[1..] + s;
      AbsentBehind(x[1..], s, t);
    }
  }

  /** Decoded text holds no placeholder, so a second `Decode` changes nothing and says so,
      whatever values it is given. */
  lemma DecodeEliminates(v: Values, w: Values, s: string)
    requires SafeValues(v)
    ensures !Mentions(Decode(v, s).text)
    ensures Decode(w, Decode(v, s).text) == Decoded(Decode(v, s).text, false)
  {
    DecodeIsSubstitution(v, s);
    forall t: Token
      ensures !Contains(Decode(v, s).text, Text(t))
    {
      NothingLeft(s, t, v);
    }
  }

  /** `Decode` leaves a text alone exactly when it mentions no placeholder. */
  lemma DecodeFixes(v: Values, s: string)
    requires SafeValues(v)
    ensures Decode(v, s).text == s <==> !Mentions(s)
  {
    DecodeEliminates(v, v, s);
  }

  /** Only `${PORT}` makes the result depend on the port. */
  lemma DecodeIgnoresPort(v: Values, port: int, s: string)
    requires !Contains(s, Text(Port))
    ensures Decode(v, s) == Decode(v.(port := port), s)
  {
  }

  lemma ItoaOfPositive(p: int, q: int)
    requires p <= 0 < q
    ensures Itoa(p) != Itoa(q)
  {
    NatTextIsDigits(q);
    assert IsDigit(Itoa(q)[0]);
    if p < 0 {
      assert Itoa(p)[0] == '-';
    } else if q < 10 {
      assert Itoa(q)[0] == DigitChar(q) && Itoa(p)[0] == DigitChar(0);
    } else {
      NatTextIsDigits(q / 10);
      assert |Itoa(q)| > |Itoa(p)|;
    }
  }

  /** A text with `${PORT}` shows which port decoded it. */
  lemma PortShows(v: Values, q: int, s: string)
    requires SafeValues(v)
    requires Contains(s, Text(Port))
    requires Itoa(v.port) != Itoa(q)
    ensures Decode(v, s).text != Decode(v.(port := q), s).text
  {
    var w := v.(port := q);
    DecodeIsSubstitution(v, s);
    DecodeIsSubstitution(w, s);
    if |Itoa(v.port)| == |Itoa(q)| {
      SameLengthPortShows(v, w, s);
    } else if |Itoa(v.port)| < |Itoa(q)| {
      LongerPortShows(v, w, s);
    } else {
      LongerPortShows(w, v, s);
    }
  }

  lemma {:induction false} SameLengthPortShows(v: Values, w: Values, s: string)
    requires w == v.(port := w.port)
    requires |Itoa(v.port)| == |Itoa(w.port)| && Itoa(v.port) != Itoa(w.port)
    requires Contains(s, Text(Port))
    ensures Substitute(s, ALL_TOKENS, v) != Substitute(s, ALL_TOKENS, w)
    decreases |s|
  {
    if Head(s).Some? {
      var k := Head(s).value;
      var rest := s[|Text(k)|..];
      if k == Port {
        assert Substitute(s, ALL_TOKENS, v) == Itoa(v.port) + Substitute(rest, ALL_TOKENS, v);
        assert Substitute(s, ALL_TOKENS, w) == Itoa(w.port) + Substitute(rest, ALL_TOKENS, w);
        assert Substitute(s, ALL_TOKENS, v)[..|Itoa(v.port)|] == Itoa(v.port);
        assert Substitute(s, ALL_TOKENS, w)[..|Itoa(w.port)|] == Itoa(w.port);
      } else {
        PortIsBehind(s, k);
        SameLengthPortShows(v, w, rest);
        SameFront(v.Of(k), Substitute(rest, ALL_TOKENS, v), Substitute(rest, ALL_TOKENS, w));
      }
    } else {
      SameLengthPortShows(v, w, s[1..]);
      SameFront([s[0]], Substitute(s[1..], ALL_TOKENS, v), Substitute(s[1..], ALL_TOKENS, w));
    }
  }

  lemma SameFront(x: string, a: string, b: string)
    requires a != b
    ensures x + a != x + b
  {
    assert (x + a)[|x|..] == a && (x + b)[|x|..] == b;
  }

  /** Behind another placeholder at the front, `${PORT}` occurs in the rest. */
  lemma PortIsBehind(s: string, k: Token)
    requires Text(k) <= s && k != Port && Contains(s, Text(Port))
    ensures Contains(s[|Text(k)|..], Text(Port))
  {
    assert s == Text(k) + s[|Text(k)|..];
    if !Contains(s[|Text(k)|..], Text(Port)) {
      assert s[2] == Text(k)[2] && Text(k)[2] != Text(Port)[2];
      assert s[1..] == Text(k)[1..] + s[|Text(k)|..];
      AbsentBehind(Text(k)[1..], s[|Text(k)|..], Port);
    }
  }

  lemma {:induction false} LongerPortShows(v: Values, w: Values, s: string)
    requires w == v.(port := w.port)
    requires |Itoa(v.port)| < |Itoa(w.port)|
    ensures |Substitute(s, ALL_TOKENS, v)| <= |Substitute(s, ALL_TOKENS, w)|
    ensures Contains(s, Text(Port)) ==> |Substitute(s, ALL_TOKENS, v)| < |Substitute(s, ALL_TOKENS, w)|
    decreases |s|
  {
    if Head(s).Some? {
      var k := Head(s).value;
      LongerPortShows(v, w, s[|Text(k)|..]);
      if k != Port && Contains(s, Text(Port)) { PortIsBehind(s, k); }
    } else if s != [] {
      LongerPortShows(v, w, s[1..]);
    }
  }

  /** Without the restrictions on names the elimination fails: an empty name makes this text
      decode to a placeholder. */
  lemma EmptyNameRebuildsPlaceholder(v: Values, s: string)
    requires v.app == "" && s == "${A${APP}PP}"
    ensures Decode(v, s).text == Text(App)
  {
    EmptyNameLeavesPlaceholder(s);
    OnlyAppIn(s, Env);
    OnlyAppIn(s, Port);
    assert s[3..] == Text(App) + s[9..];
    ContainsAfter(s, App, 3);
  }

  lemma EmptyNameLeavesPlaceholder(s: string)
    requires s == "${A${APP}PP}"
    ensures ReplaceAll(s, Text(App), "") == Text(App)
  {
    var front, tail := "{A", "PP}";
    var inner := Text(App) + tail;
    assert s == ['$'] + front + inner && s[3] == '$';
    SplitAround(s, front, inner, tail, "");
  }

  /** A dollar that starts no placeholder, some more text, the placeholder, and the rest. */
  lemma SplitAround(s: string, front: string, inner: string, tail: string, x: string)
    requires s == ['$'] + front + inner && !(Text(App) <= s) && NoDollar(front)
    requires inner == Text(App) + tail && NoDollar(tail)
    ensures ReplaceAll(s, Text(App), x) == ['$'] + (front + (x + tail))
  {
    assert s[1..] == front + inner && tail + [] == tail;
    ReplaceSkips(tail, [], App, x);
    ReplaceAtStart(Text(App), tail, x);
    ReplaceSkips(front, inner, App, x);
    ReplaceSkipsOne(s, Text(App), x);
  }

  lemma ReplaceAtStart(t: string, s: string, x: string)
    requires t != []
    ensures ReplaceAll(t + s, t, x) == x + ReplaceAll(s, t, x)
  {
  }

  lemma ReplaceSkipsOne(s: string, t: string, x: string)
    requires t != [] && s != [] && !(t <= s)
    ensures ReplaceAll(s, t, x) == [s[0]] + ReplaceAll(s[1..], t, x)
  {
  }

  lemma OnlyAppIn(s: string, t: Token)
    requires s == "${A${APP}PP}" && t != App
    ensures !Contains(s, Text(t))
  {
    var inner, tail := s[3..], s[9..];
    assert inner == ['$'] + "{APP}" + tail && s == ['$'] + "{A" + inner;
    assert tail + "" == tail;
    AbsentBehind(tail, "", t);
    AbsentAfterDollar(inner, "{APP}", tail, t);
    AbsentAfterDollar(s, "{A", inner, t);
  }

  /** A dollar and an `A` two characters on, then nothing that mentions the placeholder. */
  lemma AbsentAfterDollar(s: string, middle: string, rest: string, t: Token)
    requires t != App && s == ['$'] + middle + rest && !Contains(rest, Text(t))
    requires NoDollar(middle) && |middle| >= 2 && middle[1] == 'A'
    ensures !Contains(s, Text(t))
  {
    assert s[1..] == middle + rest && s[2] == middle[1];
    AbsentBehind(middle, rest, t);
    NotAtDollar(s, t);
  }

  /** A text whose third character is an `A` begins with no other placeholder. */
  lemma NotAtDollar(s: string, t: Token)
    requires |s| > 2 && s[2] == 'A' && t != App && !Contains(s[1..], Text(t))
    ensures !Contains(s, Text(t))
  {
    assert Text(t)[2] != 'A';
  }
}
