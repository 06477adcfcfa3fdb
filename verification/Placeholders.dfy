/** Bracketed placeholders inside text. A text is a sequence of tokens, literal characters and holes;
  * a hole renders as its name in brackets. The module proves what a chain of plain string
  * replacements does to such a text, and exactly when it does what was meant. */
module Placeholders {
  import opened Options
  import opened Strings

  datatype Token = Raw(c: char) | Hole(name: string)

  function Key(name: string): string { "[" + name + "]" }

  predicate Plain(name: string) { '[' !in name && ']' !in name }

  function RenderToken(x: Token): string { match x case Raw(c) => [c] case Hole(n) => Key(n) }

  function Render(t: seq<Token>): string { if t == [] then "" else RenderToken(t[0]) + Render(t[1..]) }

  function Raws(s: string): (t: seq<Token>)
    ensures |t| == |s| && forall i :: 0 <= i < |s| ==> t[i] == Raw(s[i])
  {
    if s == "" then [] else [Raw(s[0])] + Raws(s[1..])
  }

  // --- joining ------------------------------------------------------------------------------------

  lemma {:induction false} RenderJoin(a: seq<Token>, b: seq<Token>)
    ensures Render(a + b) == Render(a) + Render(b)
  {
    hide RenderToken;
    if a == [] {
      assert a + b == b;
    } else {
      RenderJoin(a[1..], b);
      assert (a + b)[0] == a[0] && (a + b)[1..] == a[1..] + b;
      Associate(RenderToken(a[0]), Render(a[1..]), Render(b));
    }
  }

  lemma {:induction false} RenderRaws(s: string)
    ensures Render(Raws(s)) == s
  {
    if s != "" {
      RenderRaws(s[1..]);
      assert Raws(s)[1..] == Raws(s[1..]);
    }
  }

  lemma RawsJoin(a: string, b: string)
    ensures Raws(a + b) == Raws(a) + Raws(b)
  {
  }

  predicate NoHoles(t: seq<Token>) { forall i :: 0 <= i < |t| ==> t[i].Raw? }

  // --- one replacement --------------------------------------------------------------------------------

  predicate StartsRaw(t: seq<Token>, s: string) { |s| <= |t| && t[..|s|] == Raws(s) }

  /** The key of this name is spelled out somewhere in the literal characters. */
  predicate Clashes(t: seq<Token>, n: string) { t != [] && (StartsRaw(t, Key(n)) || Clashes(t[1..], n)) }

  /** What replacing the key does: holes of that name go, and literal spellings of the key go too. */
  function Put(t: seq<Token>, n: string, sub: seq<Token>): seq<Token> {
    if t == [] then []
    else if StartsRaw(t, Key(n)) then sub + Put(t[|Key(n)|..], n, sub)
    else if t[0] == Hole(n) then sub + Put(t[1..], n, sub)
    else [t[0]] + Put(t[1..], n, sub)
  }

  /** What was meant: only the holes of that name go. */
  function PutHoles(t: seq<Token>, n: string, sub: seq<Token>): seq<Token> {
    if t == [] then [] else (if t[0] == Hole(n) then sub else [t[0]]) + PutHoles(t[1..], n, sub)
  }

  ghost predicate PlainHoles(t: seq<Token>) { forall i :: 0 <= i < |t| && t[i].Hole? ==> Plain(t[i].name) }

  /** A text without the first character of the pattern is skipped. */
  lemma {:induction false} ReplaceSkips(u: string, s: string, k: string, v: string)
    requires k != "" && k[0] !in u
    ensures Replace(u + s, k, v) == u + Replace(s, k, v)
  {
    if u == "" {
      assert u + s == s;
    } else {
      ReplaceSkips(u[1..], s, k, v);
      assert (u + s)[1..] == u[1..] + s;
      assert !(k <= u + s) by { assert (u + s)[0] == u[0]; }
      assert u == [u[0]] + u[1..];
    }
  }

  lemma HoleOpens(t: seq<Token>)
    ensures t != [] ==> Render(t) != "" && Render(t)[0] == match t[0] case Raw(c) => c case Hole(n) => '['
  {
  }

  /** A text without opening brackets at the front of a rendering is literal. */
  lemma {:induction false} PrefixIsRaw(u: string, t: seq<Token>)
    requires '[' !in u && u <= Render(t)
    ensures StartsRaw(t, u)
  {
    HoleOpens(t);
    if u != "" {
      assert Render(t)[0] == u[0] && t[0].Raw?;
      assert Render(t)[1..] == Render(t[1..]);
      assert u[1..] <= Render(t)[1..];
      PrefixIsRaw(u[1..], t[1..]);
      ConsRaw(t, u);
    }
  }

  lemma ConsRaw(t: seq<Token>, u: string)
    requires u != "" && t != [] && t[0] == Raw(u[0]) && StartsRaw(t[1..], u[1..])
    ensures StartsRaw(t, u)
  {
    assert t[..|u|] == [t[0]] + t[1..][..|u| - 1];
    assert Raws(u) == [Raw(u[0])] + Raws(u[1..]);
  }

  lemma StartsRawMatches(t: seq<Token>, k: string)
    requires StartsRaw(t, k)
    ensures k <= Render(t) && Render(t)[|k|..] == Render(t[|k|..])
  {
    assert t == Raws(k) + t[|k|..];
    RenderJoin(Raws(k), t[|k|..]);
    RenderRaws(k);
  }

  /** At a literal character the key matches only where it is spelled out. */
  lemma MatchAtRaw(t: seq<Token>, n: string)
    requires t != [] && t[0].Raw? && Plain(n)
    ensures Key(n) <= Render(t) <==> StartsRaw(t, Key(n))
  {
    var k := Key(n);
    assert Render(t)[0] == t[0].c && Render(t)[1..] == Render(t[1..]);
    if k <= Render(t) {
      assert k[0] == '[' && k[1..] == n + "]" && k[1..] <= Render(t)[1..];
      PrefixIsRaw(k[1..], t[1..]);
      ConsRaw(t, k);
    }
    if StartsRaw(t, k) { StartsRawMatches(t, k); }
  }

  /** At a hole the key matches only its own name. */
  lemma MatchAtHole(m: string, n: string, rest: string)
    requires Plain(m) && Plain(n)
    ensures Key(n) <= Key(m) + rest <==> m == n
  {
    var s := Key(m) + rest;
    if Key(n) <= s {
      var after := s[|Key(n)|..];
      assert s == Key(n) + after;
      assert s[1..] == m + [']'] + rest && s[1..] == n + [']'] + after;
      UntilFinds(m, ']', rest);
      UntilFinds(n, ']', after);
    }
  }

  lemma ReplaceAtHole(m: string, rest: string, n: string, v: string)
    requires Plain(m) && Plain(n)
    ensures Replace(Key(m) + rest, Key(n), v) == (if m == n then v else Key(m)) + Replace(rest, Key(n), v)
  {
    var s, k := Key(m) + rest, Key(n);
    MatchAtHole(m, n, rest);
    if m == n {
      assert s[|k|..] == rest;
    } else {
      var u := m + "]";
      assert s[1..] == u + rest && Key(m) == "[" + u;
      ReplaceSkips(u, rest, k, v);
      assert "[" + (u + Replace(rest, k, v)) == "[" + u + Replace(rest, k, v);
    }
  }

  /** A string replacement of a key, on tokens. */
  lemma {:induction false} ReplaceIsPut(t: seq<Token>, n: string, sub: seq<Token>)
    requires Plain(n) && PlainHoles(t)
    ensures Replace(Render(t), Key(n), Render(sub)) == Render(Put(t, n, sub))
    decreases |t|
  {
    hide Key, Clashes;
    if t != [] {
      var k, v, s := Key(n), Render(sub), Render(t);
      KeyIsLong(n);
      if t[0].Hole? {
        ReplaceAtHole(t[0].name, Render(t[1..]), n, v);
        ReplaceIsPut(t[1..], n, sub);
        SpelledIsRaw(t, k);
        RenderJoin(if t[0].name == n then sub else [t[0]], Put(t[1..], n, sub));
        RenderOne(t[0]);
      } else {
        MatchAtRaw(t, n);
        if StartsRaw(t, k) {
          var rest := t[|k|..];
          StartsRawMatches(t, k);
          ReplaceIsPut(rest, n, sub);
          RenderJoin(sub, Put(rest, n, sub));
        } else {
          assert s[1..] == Render(t[1..]);
          ReplaceIsPut(t[1..], n, sub);
          RenderJoin([t[0]], Put(t[1..], n, sub));
          RenderOne(t[0]);
        }
      }
    }
  }

  lemma KeyIsLong(n: string)
    ensures |Key(n)| >= 2
  {
  }

  lemma SpelledIsRaw(t: seq<Token>, k: string)
    requires k != ""
    ensures StartsRaw(t, k) ==> t != [] && t[0].Raw?
  {
    if StartsRaw(t, k) { assert t[..|k|][0] == Raws(k)[0]; }
  }

  lemma RenderOne(x: Token)
    ensures Render([x]) == RenderToken(x)
  {
    assert [x][1..] == [];
  }

  lemma {:induction false} NoClashPutsHoles(t: seq<Token>, n: string, sub: seq<Token>)
    requires !Clashes(t, n)
    ensures Put(t, n, sub) == PutHoles(t, n, sub)
  {
    if t != [] { NoClashPutsHoles(t[1..], n, sub); }
  }

  // --- chains of replacements ------------------------------------------------------------------------------

  /** One replacement: the name whose key is replaced, and what comes in its place. */
  type Op = (string, seq<Token>)

  function Apply(t: seq<Token>, ops: seq<Op>): seq<Token>
    decreases |ops|
  {
    if ops == [] then t else Apply(Put(t, ops[0].0, ops[0].1), ops[1..])
  }

  /** The chain as it was meant. */
  function Meant(t: seq<Token>, ops: seq<Op>): seq<Token>
    decreases |ops|
  {
    if ops == [] then t else Meant(PutHoles(t, ops[0].0, ops[0].1), ops[1..])
  }

  /** The chain as the string replacements it is. */
  function ApplyText(s: string, ops: seq<Op>): string
    decreases |ops|
  {
    if ops == [] then s else ApplyText(Replace(s, Key(ops[0].0), Render(ops[0].1)), ops[1..])
  }

  /** No key is spelled out in the literal text at the moment it is replaced. */
  predicate ClashFree(t: seq<Token>, ops: seq<Op>)
    decreases |ops|
  {
    ops == [] || (!Clashes(t, ops[0].0) && ClashFree(PutHoles(t, ops[0].0, ops[0].1), ops[1..]))
  }

  ghost predicate PlainOps(ops: seq<Op>) {
    forall i :: 0 <= i < |ops| ==> Plain(ops[i].0) && PlainHoles(ops[i].1)
  }

  lemma {:induction false} PutIsPlain(t: seq<Token>, n: string, sub: seq<Token>)
    requires PlainHoles(t) && PlainHoles(sub)
    ensures PlainHoles(Put(t, n, sub)) && PlainHoles(PutHoles(t, n, sub))
    decreases |t|
  {
    hide Key, Plain;
    if t != [] {
      KeyIsLong(n);
      PutIsPlain(t[1..], n, sub);
      if StartsRaw(t, Key(n)) { PutIsPlain(t[|Key(n)|..], n, sub); }
    }
  }

  lemma {:induction false} ApplyTextIsApply(t: seq<Token>, ops: seq<Op>)
    requires PlainHoles(t) && PlainOps(ops)
    ensures ApplyText(Render(t), ops) == Render(Apply(t, ops))
    decreases |ops|
  {
    hide Put, Replace, Render, Plain, PlainHoles;
    if ops != [] {
      assert Plain(ops[0].0) && PlainHoles(ops[0].1);
      ReplaceIsPut(t, ops[0].0, ops[0].1);
      PutIsPlain(t, ops[0].0, ops[0].1);
      assert PlainOps(ops[1..]);
      ApplyTextIsApply(Put(t, ops[0].0, ops[0].1), ops[1..]);
    }
  }

  lemma {:induction false} ClashFreeIsMeant(t: seq<Token>, ops: seq<Op>)
    requires ClashFree(t, ops)
    ensures Apply(t, ops) == Meant(t, ops)
    decreases |ops|
  {
    if ops != [] {
      NoClashPutsHoles(t, ops[0].0, ops[0].1);
      ClashFreeIsMeant(PutHoles(t, ops[0].0, ops[0].1), ops[1..]);
    }
  }

  predicate Targeted(n: string, ops: seq<Op>) { exists i :: 0 <= i < |ops| && ops[i].0 == n }

  // --- what was meant, piece by piece ---------------------------------------------------------------------

  lemma {:induction false} PutHolesJoin(a: seq<Token>, b: seq<Token>, n: string, sub: seq<Token>)
    ensures PutHoles(a + b, n, sub) == PutHoles(a, n, sub) + PutHoles(b, n, sub)
  {
    if a == [] {
      assert a + b == b;
    } else {
      PutHolesJoin(a[1..], b, n, sub);
      assert (a + b)[0] == a[0] && (a + b)[1..] == a[1..] + b;
      Associate(if a[0] == Hole(n) then sub else [a[0]], PutHoles(a[1..], n, sub), PutHoles(b, n, sub));
    }
  }

  lemma {:induction false} MeantJoin(a: seq<Token>, b: seq<Token>, ops: seq<Op>)
    ensures Meant(a + b, ops) == Meant(a, ops) + Meant(b, ops)
    decreases |ops|
  {
    hide PutHoles;
    if ops != [] {
      var n, sub := ops[0].0, ops[0].1;
      PutHolesJoin(a, b, n, sub);
      MeantJoin(PutHoles(a, n, sub), PutHoles(b, n, sub), ops[1..]);
    }
  }

  lemma {:induction false} PutHolesKeepsText(t: seq<Token>, n: string, sub: seq<Token>)
    requires NoHoles(t)
    ensures PutHoles(t, n, sub) == t
  {
    if t != [] { PutHolesKeepsText(t[1..], n, sub); }
  }

  lemma {:induction false} MeantKeepsText(t: seq<Token>, ops: seq<Op>)
    requires NoHoles(t)
    ensures Meant(t, ops) == t
    decreases |ops|
  {
    if ops != [] {
      PutHolesKeepsText(t, ops[0].0, ops[0].1);
      MeantKeepsText(t, ops[1..]);
    }
  }

  // --- weighing ------------------------------------------------------------------------------------------

  type Weight = char -> int

  function Weigh(s: string, w: Weight): int { if s == "" then 0 else w(s[0]) + Weigh(s[1..], w) }

  lemma {:induction false} WeighJoin(a: string, b: string, w: Weight)
    ensures Weigh(a + b, w) == Weigh(a, w) + Weigh(b, w)
  {
    if a == "" {
      assert a + b == b;
    } else {
      WeighJoin(a[1..], b, w);
      assert (a + b)[1..] == a[1..] + b;
    }
  }

  /** What the text that is meant weighs. */
  function Mass(t: seq<Token>, ops: seq<Op>, w: Weight): int { Weigh(Render(Meant(t, ops)), w) }

  lemma MassJoin(a: seq<Token>, b: seq<Token>, ops: seq<Op>, w: Weight)
    ensures Mass(a + b, ops, w) == Mass(a, ops, w) + Mass(b, ops, w)
  {
    hide Meant, Render, Weigh;
    MeantJoin(a, b, ops);
    RenderJoin(Meant(a, ops), Meant(b, ops));
    WeighJoin(Render(Meant(a, ops)), Render(Meant(b, ops)), w);
  }

  lemma MassOfText(s: string, ops: seq<Op>, w: Weight)
    ensures Mass(Raws(s), ops, w) == Weigh(s, w)
  {
    hide Meant, Weigh;
    MeantKeepsText(Raws(s), ops);
    RenderRaws(s);
  }

  /** Whatever a replacement puts in ends up lighter than the key it puts it in for. */
  ghost predicate Lighter(ops: seq<Op>, w: Weight)
    decreases |ops|
  {
    ops == [] || (Mass(ops[0].1, ops[1..], w) < Weigh(Key(ops[0].0), w) && Lighter(ops[1..], w))
  }

  /** Then every literal spelling that is hit takes weight away from the result. */
  lemma {:induction false} PutLosesMass(t: seq<Token>, n: string, sub: seq<Token>, ops: seq<Op>, w: Weight)
    requires Mass(sub, ops, w) < Weigh(Key(n), w)
    ensures Mass(Put(t, n, sub), ops, w) <= Mass(PutHoles(t, n, sub), ops, w)
    ensures Clashes(t, n) ==> Mass(Put(t, n, sub), ops, w) < Mass(PutHoles(t, n, sub), ops, w)
    decreases |t|
  {
    hide Key, Mass, Weigh, StartsRaw;
    if t != [] {
      var k := Key(n);
      KeyIsLong(n);
      if StartsRaw(t, k) {
        var rest := SpelledSplits(t, n, sub);
        PutLosesMass(rest, n, sub, ops, w);
        MassJoin(sub, Put(rest, n, sub), ops, w);
        MassJoin(Raws(k), PutHoles(rest, n, sub), ops, w);
        MassOfText(k, ops, w);
      } else {
        PutLosesMass(t[1..], n, sub, ops, w);
        var x := if t[0] == Hole(n) then sub else [t[0]];
        MassJoin(x, Put(t[1..], n, sub), ops, w);
        MassJoin(x, PutHoles(t[1..], n, sub), ops, w);
      }
    }
  }

  lemma SpelledSplits(t: seq<Token>, n: string, sub: seq<Token>) returns (rest: seq<Token>)
    requires StartsRaw(t, Key(n))
    ensures |rest| < |t| && Put(t, n, sub) == sub + Put(rest, n, sub)
    ensures PutHoles(t, n, sub) == Raws(Key(n)) + PutHoles(rest, n, sub)
  {
    hide PutHoles;
    var k := Key(n);
    rest := t[|k|..];
    assert t == Raws(k) + rest;
    PutHolesJoin(Raws(k), rest, n, sub);
    PutHolesKeepsText(Raws(k), n, sub);
  }

  lemma {:induction false} ApplyLosesMass(t: seq<Token>, ops: seq<Op>, w: Weight)
    requires Lighter(ops, w)
    ensures Weigh(Render(Apply(t, ops)), w) <= Mass(t, ops, w)
    ensures !ClashFree(t, ops) ==> Weigh(Render(Apply(t, ops)), w) < Mass(t, ops, w)
    decreases |ops|
  {
    hide Put, PutHoles, Weigh, Render, Clashes, Key;
    if ops != [] {
      var n, sub, rest := ops[0].0, ops[0].1, ops[1..];
      ApplyLosesMass(Put(t, n, sub), rest, w);
      PutLosesMass(t, n, sub, rest, w);
      if !Clashes(t, n) { NoClashPutsHoles(t, n, sub); }
    }
  }

  /** A chain of string replacements gives the text that was meant if and only if no key is spelled out
    * literally when its turn comes, as soon as characters can be weighed such that everything put in is
    * lighter than the key it is put in for. */
  lemma ChainIsExactIff(t: seq<Token>, ops: seq<Op>, w: Weight)
    requires PlainHoles(t) && PlainOps(ops) && Lighter(ops, w)
    ensures ApplyText(Render(t), ops) == Render(Meant(t, ops)) <==> ClashFree(t, ops)
  {
    hide Apply, Meant, ClashFree, Weigh, Render, Lighter, ApplyText;
    ApplyTextIsApply(t, ops);
    ApplyLosesMass(t, ops, w);
    if ClashFree(t, ops) { ClashFreeIsMeant(t, ops); }
  }

  // --- a check before the call ----------------------------------------------------------------------------------

  predicate Occurs(k: string, s: string) { k <= s || (s != "" && Occurs(k, s[1..])) }

  lemma {:induction false} OccursInside(a: string, k: string, b: string)
    ensures Occurs(k, a + k + b)
  {
    if a != "" {
      OccursInside(a[1..], k, b);
      assert (a + k + b)[1..] == a[1..] + k + b;
    } else {
      assert a + k + b == k + b;
    }
  }

  lemma {:induction false} ClashSplits(t: seq<Token>, n: string) returns (a: seq<Token>, b: seq<Token>)
    requires Clashes(t, n)
    ensures t == a + Raws(Key(n)) + b
  {
    var k := Key(n);
    if StartsRaw(t, k) {
      a, b := [], t[|k|..];
      assert t == t[..|k|] + b;
    } else {
      a, b := ClashSplits(t[1..], n);
      assert t == [t[0]] + t[1..];
      assert [t[0]] + (a + Raws(k) + b) == [t[0]] + a + Raws(k) + b;
      a := [t[0]] + a;
    }
  }

  /** A key spelled out in the tokens stays spelled out in the text that was meant. */
  lemma ClashShowsInText(t: seq<Token>, n: string, ops: seq<Op>)
    requires Clashes(t, n)
    ensures Occurs(Key(n), Render(Meant(t, ops)))
  {
    hide Key, Clashes, Meant, Occurs;
    var a, b := ClashSplits(t, n);
    var k := Key(n);
    MeantJoin(a + Raws(k), b, ops);
    MeantJoin(a, Raws(k), ops);
    MeantKeepsText(Raws(k), ops);
    RenderJoin(Meant(a, ops) + Raws(k), Meant(b, ops));
    RenderJoin(Meant(a, ops), Raws(k));
    RenderRaws(k);
    OccursInside(Render(Meant(a, ops)), k, Render(Meant(b, ops)));
  }

  /** If none of the keys occurs in the text that is meant, nothing can go wrong. */
  lemma {:induction false} KeyFreeTextIsClashFree(t: seq<Token>, ops: seq<Op>)
    requires forall i :: 0 <= i < |ops| ==> !Occurs(Key(ops[i].0), Render(Meant(t, ops)))
    ensures ClashFree(t, ops)
    decreases |ops|
  {
    hide Key, Clashes, PutHoles, Occurs, Render;
    if ops != [] {
      if Clashes(t, ops[0].0) { ClashShowsInText(t, ops[0].0, ops); }
      KeyFreeTextIsClashFree(PutHoles(t, ops[0].0, ops[0].1), ops[1..]);
    }
  }
}
