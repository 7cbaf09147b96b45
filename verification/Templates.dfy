/** Template interpolation on strings: the `strings.ReplaceAll` rewriting of
    internal/workflows/engine.go and what it means. */
module Templates {

  /** `strings.ReplaceAll`: every leftmost, non-overlapping occurrence of `pat`. */
  function ReplaceAll(s: string, pat: string, text: string): string
    requires pat != ""
  {
    if |s| < |pat| then s
    else if pat <= s then text + ReplaceAll(s[|pat|..], pat, text)
    else [s[0]] + ReplaceAll(s[1..], pat, text)
  }

  /** `{{name}}`. */
  function Pattern(name: string): (p: string)
    ensures |p| == |name| + 4
    ensures p[0] == '{' && p[1] == '{' && p[|p| - 2] == '}' && p[|p| - 1] == '}'
    ensures p[2..|p| - 2] == name
  {
    "{{" + name + "}}"
  }

  predicate BraceFree(s: string) {
    '{' !in s && '}' !in s
  }

  /** The bindings of one event and session, in the order they are rewritten. */
  datatype Binding = Binding(name: string, text: string)

  /** One `ReplaceAll` per binding, first to last. */
  function Rewrite(s: string, bs: seq<Binding>): string
    decreases bs
  {
    if bs == [] then s
    else Rewrite(ReplaceAll(s, Pattern(bs[0].name), bs[0].text), bs[1..])
  }

  lemma {:induction false} RewriteConcat(s: string, bs: seq<Binding>, cs: seq<Binding>)
    ensures Rewrite(s, bs + cs) == Rewrite(Rewrite(s, bs), cs)
    decreases bs
  {
    if bs == [] {
      assert bs + cs == cs;
    } else {
      assert (bs + cs)[1..] == bs[1..] + cs;
      RewriteConcat(ReplaceAll(s, Pattern(bs[0].name), bs[0].text), bs[1..], cs);
    }
  }

  // ---- The meaning: templates as tokens, substituted simultaneously ----

  datatype Token = Lit(text: string) | Hole(name: string)

  function Show(t: Token): string {
    match t
    case Lit(text) => text
    case Hole(name) => Pattern(name)
  }

  function Render(ts: seq<Token>): string {
    if ts == [] then "" else Show(ts[0]) + Render(ts[1..])
  }

  function FillToken(t: Token, env: map<string, string>): Token {
    if t.Hole? && t.name in env then Lit(env[t.name]) else t
  }

  /** Simultaneous substitution: each known hole becomes its text; nothing else changes. */
  function Fill(ts: seq<Token>, env: map<string, string>): (us: seq<Token>)
    ensures |us| == |ts|
  {
    seq(|ts|, i requires 0 <= i < |ts| => FillToken(ts[i], env))
  }

  predicate Comparable(s: string, t: string) {
    s <= t || t <= s
  }

  /** A text is inert for a name when `{{name}}` cannot start inside it, whatever follows. */
  ghost predicate Inert(text: string, name: string) {
    forall i :: 0 <= i < |text| ==> !Comparable(Pattern(name), text[i..])
  }

  ghost predicate InertToken(t: Token, name: string) {
    match t
    case Lit(text) => Inert(text, name)
    case Hole(n) => BraceFree(n)
  }

  ghost predicate InertFor(ts: seq<Token>, name: string) {
    forall i :: 0 <= i < |ts| ==> InertToken(ts[i], name)
  }

  /** A simple sufficient test: no `{{`, and no `{` at the very end. */
  predicate Plain(text: string) {
    && (text != "" ==> text[|text| - 1] != '{')
    && forall i :: 0 <= i < |text| - 1 ==> !(text[i] == '{' && text[i + 1] == '{')
  }

  lemma PlainIsInert(text: string, name: string)
    requires Plain(text)
    ensures Inert(text, name)
  {
    forall i | 0 <= i < |text|
      ensures !Comparable(Pattern(name), text[i..])
    {
      var p, t := Pattern(name), text[i..];
      assert t[0] == text[i];
      assert i == |text| - 1 || (|t| > 1 && t[1] == text[i + 1]);
    }
  }

  // ---- One ReplaceAll ----

  lemma NotPrefixOfConcat(p: string, w: string, rest: string)
    requires !Comparable(p, w)
    ensures !(p <= w + rest)
  {
    assert forall j :: 0 <= j < |w| ==> (w + rest)[j] == w[j];
  }

  lemma ConsConcat(w: string, rest: string)
    requires w != ""
    ensures [w[0]] + (w[1..] + rest) == w + rest
  {
  }

  /** Rewriting passes over an inert prefix without touching it. */
  lemma {:induction false} SkipInert(w: string, rest: string, name: string, text: string)
    requires Inert(w, name)
    ensures ReplaceAll(w + rest, Pattern(name), text) == w + ReplaceAll(rest, Pattern(name), text)
  {
    var p := Pattern(name);
    if w == "" {
      assert w + rest == rest;
    } else {
      var s := w + rest;
      assert s[1..] == w[1..] + rest;
      assert Inert(w[1..], name) by {
        forall i | 0 <= i < |w[1..]|
          ensures !Comparable(p, w[1..][i..])
        {
          assert w[1..][i..] == w[i + 1..];
        }
      }
      SkipInert(w[1..], rest, name, text);
      assert w[0..] == w;
      NotPrefixOfConcat(p, w, rest);
      if |s| >= |p| {
        assert ReplaceAll(s, p, text) == [w[0]] + ReplaceAll(s[1..], p, text);
        ConsConcat(w, ReplaceAll(rest, p, text));
      }
    }
  }

  lemma {:induction false} ReplaceLength(s: string, pat: string, text: string)
    requires pat != ""
    ensures |text| <= |pat| ==> |ReplaceAll(s, pat, text)| <= |s|
    ensures |text| >= |pat| ==> |ReplaceAll(s, pat, text)| >= |s|
  {
    if |s| < |pat| {
    } else if pat <= s {
      ReplaceLength(s[|pat|..], pat, text);
    } else {
      ReplaceLength(s[1..], pat, text);
    }
  }

  /** Replacing an occurrence by anything else changes the text. */
  lemma {:induction false} ReplacingChanges(s: string, pat: string, text: string)
    requires pat != "" && text != pat && exists i :: 0 <= i <= |s| && pat <= s[i..]
    ensures ReplaceAll(s, pat, text) != s
  {
    var i :| 0 <= i <= |s| && pat <= s[i..];
    if pat <= s {
      var rest := ReplaceAll(s[|pat|..], pat, text);
      ReplaceLength(s[|pat|..], pat, text);
      assert ReplaceAll(s, pat, text) == text + rest;
      if |text| == |pat| { assert (text + rest)[..|pat|] == text && s[..|pat|] == pat; }
    } else {
      assert s[0..] == s;
      assert s[1..][i - 1..] == s[i..];
      ReplacingChanges(s[1..], pat, text);
      assert ReplaceAll(s, pat, text)[1..] == ReplaceAll(s[1..], pat, text);
    }
  }

  /** A text in which `{{n}}` can start, followed by what is missing of it, is rewritten. */
  lemma Completed(w: string, n: string, text: string) returns (k: nat)
    requires !Inert(w, n) && text != Pattern(n)
    ensures 0 < k <= |n| + 4
    ensures ReplaceAll(w + Pattern(n)[k..], Pattern(n), text) != w + Pattern(n)[k..]
  {
    var p := Pattern(n);
    var i :| 0 <= i < |w| && Comparable(p, w[i..]);
    hide ReplaceAll, Inert, Pattern;
    k := if p <= w[i..] then |p| else |w| - i;
    if p <= w[i..] {
      assert p[k..] == "";
    } else {
      assert w[i..] == p[..k];
    }
    var s := w + p[k..];
    assert s[i..] == w[i..] + p[k..];
    assert p <= s[i..] by { assert w[i..] + p[k..] == if p <= w[i..] then w[i..] else p; }
    ReplacingChanges(s, p, text);
  }

  /** `Inert` is exact: it holds of a text precisely when rewriting `{{name}}` never reaches
      into it, whatever follows the text and whatever the replacement. */
  lemma InertExact(w: string, name: string)
    ensures Inert(w, name) <==>
            forall rest, text :: ReplaceAll(w + rest, Pattern(name), text) == w + ReplaceAll(rest, Pattern(name), text)
  {
    var p := Pattern(name);
    if Inert(w, name) {
      forall rest, text
        ensures ReplaceAll(w + rest, p, text) == w + ReplaceAll(rest, p, text)
      {
        SkipInert(w, rest, name, text);
      }
    } else {
      var k := Completed(w, name, "");
      var rest := p[k..];
      assert ReplaceAll(rest, p, "") == rest;
      assert ReplaceAll(w + rest, p, "") != w + ReplaceAll(rest, p, "");
    }
  }

  /** Another hole's text is passed over. */
  lemma SkipHole(n: string, rest: string, name: string, text: string)
    requires BraceFree(n) && BraceFree(name) && n != name
    ensures ReplaceAll(Pattern(n) + rest, Pattern(name), text)
         == Pattern(n) + ReplaceAll(rest, Pattern(name), text)
  {
    var h, p := Pattern(n), Pattern(name);
    forall i | 0 <= i < |h|
      ensures !Comparable(p, h[i..])
    {
      var t := h[i..];
      if i == 0 {
        assert t == h;
        HolesDiffer(n, name);
      } else if i == 1 {
        assert t[1] == h[2] == (n + "}}")[0] != '{';
      } else {
        assert t[0] == h[i] == (n + "}}")[i - 2] != '{';
      }
    }
    SkipInert(h, rest, name, text);
  }

  /** Neither of two different brace-free holes is a prefix of the other. */
  lemma HolesDiffer(n: string, name: string)
    requires BraceFree(n) && BraceFree(name) && n != name
    ensures !Comparable(Pattern(name), Pattern(n))
  {
    var h, p := Pattern(n), Pattern(name);
    if |n| < |name| {
      assert h[|n| + 2] == '}' && p[|n| + 2] == name[|n|];
    } else if |name| < |n| {
      assert p[|name| + 2] == '}' && h[|name| + 2] == n[|name|];
    } else {
      var k :| 0 <= k < |n| && n[k] != name[k];
      assert h[k + 2] == n[k] && p[k + 2] == name[k];
    }
  }

  /** One rewriting is one substitution. */
  lemma {:induction false} ReplaceIsFill(ts: seq<Token>, name: string, text: string)
    requires BraceFree(name) && InertFor(ts, name)
    ensures ReplaceAll(Render(ts), Pattern(name), text) == Render(Fill(ts, map[name := text]))
  {
    var env, p := map[name := text], Pattern(name);
    if ts != [] {
      var t, rest := ts[0], ts[1..];
      assert InertFor(rest, name);
      ReplaceIsFill(rest, name, text);
      assert Fill(ts, env)[1..] == Fill(rest, env);
      var s := Show(t) + Render(rest);
      match t {
        case Lit(w) => SkipInert(w, Render(rest), name, text);
        case Hole(n) =>
          if n == name {
            assert p <= s && s[|p|..] == Render(rest);
          } else {
            SkipHole(n, Render(rest), name, text);
          }
      }
    }
  }

  // ---- All of them, in any order ----

  /** The environment a sequence of bindings denotes. */
  function EnvOf(bs: seq<Binding>): map<string, string> {
    if bs == [] then map[] else EnvOf(bs[1..])[bs[0].name := bs[0].text]
  }

  lemma {:induction false} EnvNames(bs: seq<Binding>, n: string)
    ensures n in EnvOf(bs) <==> exists i :: 0 <= i < |bs| && bs[i].name == n
  {
    if bs != [] {
      EnvNames(bs[1..], n);
      assert forall i :: 0 <= i < |bs| - 1 ==> bs[i + 1] == bs[1..][i];
    }
  }

  ghost predicate DistinctNames(bs: seq<Binding>) {
    forall i, j :: 0 <= i < j < |bs| ==> bs[i].name != bs[j].name
  }

  /** Known names are brace-free, and no known hole can start inside a literal or inside the
      replacement of another name. */
  ghost predicate Safe(ts: seq<Token>, env: map<string, string>) {
    && (forall n :: n in env ==> BraceFree(n) && InertFor(ts, n))
    && forall m, n :: m in env && n in env && m != n ==> Inert(env[m], n)
  }

  /** A binding that puts a hole back in its own place. */
  predicate Idle(b: Binding) {
    b.text == Pattern(b.name)
  }

  /** The same for one order: a hole must not start inside a text that is put in before it is rewritten;
      what is put in later it never sees, and an idle binding does no harm. */
  ghost predicate SafeInOrder(ts: seq<Token>, bs: seq<Binding>) {
    forall j :: 0 <= j < |bs| ==>
      && BraceFree(bs[j].name)
      && (Idle(bs[j]) || (InertFor(ts, bs[j].name) && forall i :: 0 <= i < j ==> Inert(bs[i].text, bs[j].name)))
  }

  lemma SafeInAnyOrder(ts: seq<Token>, bs: seq<Binding>)
    requires DistinctNames(bs) && Safe(ts, EnvOf(bs))
    ensures SafeInOrder(ts, bs)
  {
    hide InertFor, Inert;
    forall j | 0 <= j < |bs|
      ensures BraceFree(bs[j].name) && InertFor(ts, bs[j].name)
      ensures forall i :: 0 <= i < j ==> Inert(bs[i].text, bs[j].name)
    {
      EnvAt(bs, j);
      forall i | 0 <= i < j ensures Inert(bs[i].text, bs[j].name) { EnvAt(bs, i); }
    }
  }

  lemma {:induction false} EnvAt(bs: seq<Binding>, i: nat)
    requires DistinctNames(bs) && i < |bs|
    ensures bs[i].name in EnvOf(bs) && EnvOf(bs)[bs[i].name] == bs[i].text
  {
    if i > 0 { EnvAt(bs[1..], i - 1); }
  }

  lemma {:induction false} ReplaceBySelf(s: string, pat: string)
    requires pat != ""
    ensures ReplaceAll(s, pat, pat) == s
  {
    if |s| < |pat| {
    } else if pat <= s {
      ReplaceBySelf(s[|pat|..], pat);
    } else {
      ReplaceBySelf(s[1..], pat);
    }
  }

  /** After one substitution the remaining bindings are still safe. */
  lemma SafeAfterOne(ts: seq<Token>, bs: seq<Binding>)
    requires bs != [] && SafeInOrder(ts, bs)
    ensures SafeInOrder(ts, bs[1..]) && SafeInOrder(Fill(ts, map[bs[0].name := bs[0].text]), bs[1..])
  {
    hide Inert, Pattern;
    var us, rest := Fill(ts, map[bs[0].name := bs[0].text]), bs[1..];
    forall j | 0 <= j < |rest| && !Idle(rest[j])
      ensures InertFor(ts, rest[j].name) && InertFor(us, rest[j].name)
      ensures forall i :: 0 <= i < j ==> Inert(rest[i].text, rest[j].name)
    {
      assert rest[j] == bs[j + 1] && Inert(bs[0].text, rest[j].name);
      forall i | 0 <= i < |us| ensures InertToken(us[i], rest[j].name) { assert InertToken(ts[i], rest[j].name); }
      forall i | 0 <= i < j ensures Inert(rest[i].text, rest[j].name) { assert rest[i] == bs[i + 1]; }
    }
  }

  lemma {:induction false} SameShow(ts: seq<Token>, us: seq<Token>)
    requires |ts| == |us| && forall i :: 0 <= i < |ts| ==> Show(ts[i]) == Show(us[i])
    ensures Render(ts) == Render(us)
  {
    if ts != [] { SameShow(ts[1..], us[1..]); }
  }

  lemma FillNone(ts: seq<Token>)
    ensures Fill(ts, map[]) == ts
  {
  }

  lemma FillTwice(ts: seq<Token>, name: string, text: string, env: map<string, string>)
    requires name !in env
    ensures Fill(Fill(ts, map[name := text]), env) == Fill(ts, env[name := text])
  {
  }

  lemma FreshName(bs: seq<Binding>)
    requires bs != [] && DistinctNames(bs)
    ensures bs[0].name !in EnvOf(bs[1..]) && DistinctNames(bs[1..])
  {
    EnvNames(bs[1..], bs[0].name);
  }

  /** Rewriting the holes one after the other is substituting them all at once. */
  lemma {:induction false} RewriteInOrder(ts: seq<Token>, bs: seq<Binding>)
    requires DistinctNames(bs) && SafeInOrder(ts, bs)
    ensures Rewrite(Render(ts), bs) == Render(Fill(ts, EnvOf(bs)))
    decreases bs
  {
    hide ReplaceAll, Pattern, Render, InertFor;
    if bs == [] {
      FillNone(ts);
    } else {
      var b, env := bs[0], EnvOf(bs[1..]);
      FreshName(bs);
      SafeAfterOne(ts, bs);
      if Idle(b) {
        ReplaceBySelf(Render(ts), Pattern(b.name));
        RewriteInOrder(ts, bs[1..]);
        SameShow(Fill(ts, env), Fill(ts, env[b.name := b.text]));
      } else {
        ReplaceIsFill(ts, b.name, b.text);
        RewriteInOrder(Fill(ts, map[b.name := b.text]), bs[1..]);
        FillTwice(ts, b.name, b.text, env);
      }
    }
  }

  /** In whatever order, if no hole can start inside any other's text. */
  lemma RewriteIsFill(ts: seq<Token>, bs: seq<Binding>)
    requires DistinctNames(bs) && Safe(ts, EnvOf(bs))
    ensures Rewrite(Render(ts), bs) == Render(Fill(ts, EnvOf(bs)))
  {
    SafeInAnyOrder(ts, bs);
    RewriteInOrder(ts, bs);
  }

  /** What is missing of `{{name}}` after a text that ends within it is itself harmless. */
  lemma RemainderIsInert(name: string, k: nat, other: string)
    requires BraceFree(name) && BraceFree(other) && 0 < k <= |name| + 4
    ensures Inert(Pattern(name)[k..], other)
  {
    var p := Pattern(name);
    forall i | 0 <= i < |p[k..]| ensures !Comparable(Pattern(other), p[k..][i..]) {
      var t := p[k..][i..];
      assert t == p[k + i..] && t[0] == p[k + i];
      if k + i == 1 {
        assert t[1] == p[2] == (name + "}}")[0] != '{';
      } else {
        assert p[k + i] == (name + "}}")[k + i - 2] != '{';
      }
    }
  }

  /** Exactly when a value may stand next to another name: rewriting `{{m}}` to `w` and then
      `{{n}}` is substitution, on every template of safe literals and for every text of `n`, if and
      only if no `{{n}}` can start inside `w`. */
  lemma ValueSafeExactly(m: string, w: string, n: string)
    requires BraceFree(m) && BraceFree(n) && m != n
    ensures Inert(w, n) <==> forall ts, text :: InertFor(ts, m) && InertFor(ts, n) ==>
              Rewrite(Render(ts), [Binding(m, w), Binding(n, text)]) == Render(Fill(ts, map[m := w, n := text]))
  {
    hide ReplaceAll, Pattern;
    if Inert(w, n) {
      forall ts, text | InertFor(ts, m) && InertFor(ts, n)
        ensures Rewrite(Render(ts), [Binding(m, w), Binding(n, text)]) == Render(Fill(ts, map[m := w, n := text]))
      {
        TwoRewrites(ts, m, w, n, text);
      }
    } else {
      var rest := BreaksOut(m, w, n);
      var ts := [Hole(m), Lit(rest)];
      assert InertFor(ts, m) && InertFor(ts, n);
    }
  }

  lemma TwoSteps(s: string, m: string, w: string, n: string, text: string)
    ensures Rewrite(s, [Binding(m, w), Binding(n, text)]) == ReplaceAll(ReplaceAll(s, Pattern(m), w), Pattern(n), text)
  {
    hide ReplaceAll, Pattern;
    var bs, once := [Binding(m, w), Binding(n, text)], ReplaceAll(s, Pattern(m), w);
    assert bs[1..] == [Binding(n, text)];
    assert Rewrite(s, bs) == Rewrite(once, bs[1..]);
    RewriteLast(once, Binding(n, text));
  }

  lemma RewriteLast(s: string, b: Binding)
    ensures Rewrite(s, [b]) == ReplaceAll(s, Pattern(b.name), b.text)
  {
    assert [b][1..] == [];
  }

  lemma TwoRewrites(ts: seq<Token>, m: string, w: string, n: string, text: string)
    requires BraceFree(m) && BraceFree(n) && m != n && Inert(w, n) && InertFor(ts, m) && InertFor(ts, n)
    ensures Rewrite(Render(ts), [Binding(m, w), Binding(n, text)]) == Render(Fill(ts, map[m := w, n := text]))
  {
    hide ReplaceAll, Pattern, Render;
    TwoSteps(Render(ts), m, w, n, text);
    ReplaceIsFill(ts, m, w);
    ReplaceIsFill(Fill(ts, map[m := w]), n, text);
    FillTwice(ts, m, w, map[n := text]);
    assert map[n := text][m := w] == map[m := w, n := text];
  }

  lemma BreaksOut(m: string, w: string, n: string) returns (rest: string)
    requires BraceFree(m) && BraceFree(n) && m != n && !Inert(w, n)
    ensures Inert(rest, m) && Inert(rest, n)
    ensures Rewrite(Render([Hole(m), Lit(rest)]), [Binding(m, w), Binding(n, "")])
         != Render(Fill([Hole(m), Lit(rest)], map[m := w, n := ""]))
  {
    hide ReplaceAll, Pattern, Inert, Render, Rewrite;
    var k := Completed(w, n, "");
    rest := Pattern(n)[k..];
    RemainderIsInert(n, k, m);
    RemainderIsInert(n, k, n);
    var ts := [Hole(m), Lit(rest)];
    TwoPieces(Lit(w), Lit(rest));
    assert Fill(ts, map[m := w]) == [Lit(w), Lit(rest)];
    assert Fill(ts, map[m := w, n := ""]) == [Lit(w), Lit(rest)];
    ReplaceIsFill(ts, m, w);
    TwoSteps(Render(ts), m, w, n, "");
  }

  lemma TwoPieces(t: Token, u: Token)
    ensures Render([t, u]) == Show(t) + Show(u)
  {
    var ts := [t, u];
    assert ts[1..] == [u] && ts[1..][1..] == [];
    assert Render([u]) == Show(u) + "" == Show(u);
  }

  /** The order in which bindings are rewritten does not matter. */
  lemma OrderIrrelevant(ts: seq<Token>, bs: seq<Binding>, cs: seq<Binding>)
    requires DistinctNames(bs) && DistinctNames(cs) && EnvOf(bs) == EnvOf(cs)
    requires Safe(ts, EnvOf(bs))
    ensures Rewrite(Render(ts), bs) == Rewrite(Render(ts), cs)
  {
    RewriteIsFill(ts, bs);
    RewriteIsFill(ts, cs);
  }

  // ---- Doing it twice ----

  /** A value may stand in its own place: its own hole cannot start inside it, or it is that hole. */
  ghost predicate Settled(value: string, name: string) {
    Inert(value, name) || value == Pattern(name)
  }

  /** What a token becomes, except that a hole whose value is the hole itself stays one. */
  function SettleToken(t: Token, env: map<string, string>): Token {
    if t.Hole? && t.name in env && env[t.name] != Pattern(t.name) then Lit(env[t.name]) else t
  }

  function Settle(ts: seq<Token>, env: map<string, string>): (us: seq<Token>)
    ensures |us| == |ts|
  {
    seq(|ts|, i requires 0 <= i < |ts| => SettleToken(ts[i], env))
  }

  lemma SettledIsFilled(ts: seq<Token>, env: map<string, string>)
    ensures Render(Settle(ts, env)) == Render(Fill(ts, env))
    ensures Render(Fill(Settle(ts, env), env)) == Render(Settle(ts, env))
  {
    hide Pattern, Render;
    SameShow(Settle(ts, env), Fill(ts, env));
    SameShow(Fill(Settle(ts, env), env), Settle(ts, env));
  }

  lemma SettledStaysSafe(ts: seq<Token>, env: map<string, string>)
    requires Safe(ts, env) && forall n :: n in env ==> Settled(env[n], n)
    ensures Safe(Settle(ts, env), env)
  {
    hide Pattern, Inert;
    forall n | n in env ensures BraceFree(n) && InertFor(Settle(ts, env), n) {
      forall i | 0 <= i < |ts| ensures InertToken(Settle(ts, env)[i], n) {
        assert InertToken(ts[i], n);
        if ts[i].Hole? && ts[i].name in env { assert Settled(env[ts[i].name], ts[i].name); }
      }
    }
  }

  /** Interpolating twice is interpolating once, when every value may stand in its own place. */
  lemma RewriteIdempotent(ts: seq<Token>, bs: seq<Binding>)
    requires DistinctNames(bs) && Safe(ts, EnvOf(bs))
    requires forall n :: n in EnvOf(bs) ==> Settled(EnvOf(bs)[n], n)
    ensures Rewrite(Rewrite(Render(ts), bs), bs) == Rewrite(Render(ts), bs)
  {
    hide Rewrite, Render, Safe, Settled;
    RewriteIsFill(ts, bs);
    SettledIsFilled(ts, EnvOf(bs));
    SettledStaysSafe(ts, EnvOf(bs));
    RewriteIsFill(Settle(ts, EnvOf(bs)), bs);
  }

  lemma {:induction false} EnvOfPush(bs: seq<Binding>, b: Binding)
    requires b.name !in EnvOf(bs)
    ensures EnvOf(bs + [b]) == EnvOf(bs)[b.name := b.text]
  {
    if bs == [] {
      assert [b][1..] == [] && [] + [b] == [b];
    } else {
      assert (bs + [b])[1..] == bs[1..] + [b];
      EnvOfPush(bs[1..], b);
    }
  }

  lemma PushDistinct(bs: seq<Binding>, b: Binding)
    requires DistinctNames(bs) && b.name !in EnvOf(bs)
    ensures DistinctNames(bs + [b])
  {
    EnvNames(bs, b.name);
  }

  /** Every environment can be written down. */
  lemma {:induction false} BindingsOf(env: map<string, string>) returns (bs: seq<Binding>)
    ensures DistinctNames(bs) && EnvOf(bs) == env
    decreases |env.Keys|
  {
    if env == map[] {
      bs := [];
    } else {
      var n :| n in env;
      assert (env - {n}).Keys == env.Keys - {n};
      var less := BindingsOf(env - {n});
      EnvOfPush(less, Binding(n, env[n]));
      PushDistinct(less, Binding(n, env[n]));
      bs := less + [Binding(n, env[n])];
      assert (env - {n})[n := env[n]] == env;
    }
  }

  /** A value that may not stand in its own place is rewritten again, next to the right literal and
      when its name comes last. */
  lemma RewritesAgain(env: map<string, string>, n: string) returns (ts: seq<Token>, bs: seq<Binding>)
    requires Safe([], env) && n in env && !Settled(env[n], n)
    ensures DistinctNames(bs) && EnvOf(bs) == env && Safe(ts, env)
    ensures Rewrite(Rewrite(Render(ts), bs), bs) != Rewrite(Render(ts), bs)
  {
    hide ReplaceAll, Pattern, Inert, Render, Rewrite;
    var w, others := env[n], env - {n};
    var k := Completed(w, n, w);
    var rest := Pattern(n)[k..];
    forall m | m in env ensures Inert(rest, m) { RemainderIsInert(n, k, m); }
    var pre := BindingsOf(others);
    EnvOfPush(pre, Binding(n, w));
    PushDistinct(pre, Binding(n, w));
    ts, bs := [Hole(n), Lit(rest)], pre + [Binding(n, w)];
    assert others[n := w] == env;
    var us := [Lit(w), Lit(rest)];
    RewriteIsFill(ts, bs);
    assert Fill(ts, env) == us;
    assert Safe(us, others);
    RewriteIsFill(us, pre);
    assert Fill(us, others) == us;
    RewriteConcat(Render(us), pre, [Binding(n, w)]);
    RewriteLast(Render(us), Binding(n, w));
    TwoPieces(Lit(w), Lit(rest));
  }

  /** Exactly when interpolating twice is interpolating once, on every safe template and in every
      order: if and only if every value may stand in its own place. */
  lemma IdempotentExactly(env: map<string, string>)
    requires Safe([], env)
    ensures (forall ts, bs :: DistinctNames(bs) && EnvOf(bs) == env && Safe(ts, env) ==>
               Rewrite(Rewrite(Render(ts), bs), bs) == Rewrite(Render(ts), bs))
            <==> forall n :: n in env ==> Settled(env[n], n)
  {
    hide Rewrite, Render, Safe, Settled, DistinctNames, EnvOf;
    if forall n :: n in env ==> Settled(env[n], n) {
      forall ts, bs | DistinctNames(bs) && EnvOf(bs) == env && Safe(ts, env)
        ensures Rewrite(Rewrite(Render(ts), bs), bs) == Rewrite(Render(ts), bs)
      {
        RewriteIdempotent(ts, bs);
      }
    } else {
      var n :| n in env && !Settled(env[n], n);
      var ts, bs := RewritesAgain(env, n);
    }
  }

  /** The everyday case: plain literals and plain replacements are always safe. */
  lemma PlainIsSafe(ts: seq<Token>, env: map<string, string>)
    requires forall t :: t in ts ==> if t.Lit? then Plain(t.text) else BraceFree(t.name)
    requires forall n :: n in env ==> BraceFree(n) && Plain(env[n])
    ensures Safe(ts, env)
    ensures forall n :: n in env ==> Inert(env[n], n)
  {
    forall n | n in env ensures InertFor(ts, n) {
      forall i | 0 <= i < |ts| ensures InertToken(ts[i], n) {
        if ts[i].Lit? { PlainIsInert(ts[i].text, n); }
      }
    }
    forall m, n | m in env && n in env ensures Inert(env[m], n) {
      PlainIsInert(env[m], n);
    }
  }

  // ---- Why the hypotheses are there ----

  /** A value that spells another hole is rewritten or not, depending on the order. */
  lemma ValueHypothesisNeeded()
    ensures var a, b := Binding("a", "{{b}}"), Binding("b", "x");
            Rewrite("{{a}}", [a, b]) == "x" && Rewrite("{{a}}", [b, a]) == "{{b}}"
  {
    var a, b := Binding("a", "{{b}}"), Binding("b", "x");
    WholeHole("a", "{{b}}");
    WholeHole("b", "x");
    assert Pattern("a") == "{{a}}" && Pattern("b") == "{{b}}";
    assert [a, b][1..] == [b] && [b, a][1..] == [a] && [a][1..] == [] && [b][1..] == [];
    HolesDiffer("a", "b");
    assert Rewrite("{{a}}", [a, b]) == Rewrite("{{b}}", [b]) == "x";
    SkipHole("a", "", "b", "x");
    assert Pattern("a") + "" == "{{a}}";
    assert ReplaceAll("{{a}}", Pattern("b"), "x") == "{{a}}";
    assert Rewrite("{{a}}", [b, a]) == Rewrite("{{a}}", [a]) == "{{b}}";
  }

  /** A value that contains its own placeholder grows every time. */
  lemma SelfHypothesisNeeded()
    ensures var bs := [Binding("a", "x{{a}}")];
            Rewrite("{{a}}", bs) == "x{{a}}" && Rewrite(Rewrite("{{a}}", bs), bs) == "xx{{a}}"
  {
    var b, p := Binding("a", "x{{a}}"), Pattern("a");
    RewriteLast("{{a}}", b);
    RewriteLast("x{{a}}", b);
    WholeHole("a", "x{{a}}");
    assert p == "{{a}}";
    assert "x{{a}}"[1..] == "{{a}}";
    assert ReplaceAll("x{{a}}", p, "x{{a}}") == ['x'] + ReplaceAll("{{a}}", p, "x{{a}}");
  }

  /** A hole nested in braces builds a new hole out of its replacement. */
  lemma LiteralHypothesisNeeded()
    ensures var ts := [Lit("{{"), Hole("a"), Lit("}}")];
            var bs := [Binding("a", "b"), Binding("b", "x")];
            Rewrite(Render(ts), bs) == "x" && Render(Fill(ts, EnvOf(bs))) == "{{b}}"
  {
    NestedHoleRewritten();
    NestedHoleFilled();
    var bs := [Binding("a", "b"), Binding("b", "x")];
    assert bs[1..] == [Binding("b", "x")] && bs[1..][1..] == [];
  }

  lemma NestedHoleRewritten()
    ensures Rewrite(Render([Lit("{{"), Hole("a"), Lit("}}")]), [Binding("a", "b"), Binding("b", "x")]) == "x"
  {
    hide ReplaceAll;
    var ts := [Lit("{{"), Hole("a"), Lit("}}")];
    assert ts[1..] == [Hole("a"), Lit("}}")] && ts[1..][1..] == [Lit("}}")] && ts[1..][1..][1..] == [];
    BracesThenHole("a", "b", "}}");
    assert Render(ts) == "{{" + (Pattern("a") + ("}}" + ""));
    assert "}}" + "" == "}}";
    assert ReplaceAll(Render(ts), Pattern("a"), "b") == "{{" + ("b" + "}}") == Pattern("b");
    WholeHole("b", "x");
    var bs := [Binding("a", "b"), Binding("b", "x")];
    assert bs[1..] == [Binding("b", "x")] && bs[1..][1..] == [];
  }

  lemma NestedHoleFilled()
    ensures Render(Fill([Lit("{{"), Hole("a"), Lit("}}")], map["b" := "x"]["a" := "b"])) == "{{b}}"
  {
    var ts := [Lit("{{"), Hole("a"), Lit("}}")];
    var us := Fill(ts, map["b" := "x"]["a" := "b"]);
    assert us == [Lit("{{"), Lit("b"), Lit("}}")];
    var u1, u2 := [Lit("b"), Lit("}}")], [Lit("}}")];
    assert us[1..] == u1 && u1[1..] == u2 && u2[1..] == [];
    assert Render(u2) == "}}" + "" == "}}";
    assert Render(u1) == "b" + "}}" == "b}}";
    assert Render(us) == "{{" + "b}}" == "{{b}}";
  }

  lemma BracesThenHole(name: string, text: string, rest: string)
    requires name != "" && BraceFree(name) && |rest| < 4
    ensures ReplaceAll("{{" + (Pattern(name) + rest), Pattern(name), text) == "{{" + (text + rest)
  {
    var p, h := Pattern(name), Pattern(name) + rest;
    assert h[|p|..] == rest;
    assert ReplaceAll(h, p, text) == text + rest;
    var s1, s2 := "{" + h, "{{" + h;
    assert s1[1..] == h && s2[1..] == s1;
    assert p[2] == name[0] && s1[2] == h[1] == '{' && s2[2] == h[0] == '{';
    assert ReplaceAll(s1, p, text) == ['{'] + (text + rest);
    assert ReplaceAll(s2, p, text) == ['{'] + (['{'] + (text + rest));
  }

  lemma WholeHole(name: string, text: string)
    ensures ReplaceAll(Pattern(name), Pattern(name), text) == text
  {
    assert Pattern(name)[|Pattern(name)|..] == "";
  }
}
