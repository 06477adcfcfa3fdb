/** Masking for a language model: prompt and system are masked apart, colliding system placeholders
  * are renamed, and one merged mapping undoes both. */
module SaibGuard {
  import opened Options
  import opened Strings
  import opened Placeholders
  import opened SaibMask
  import opened SaibScan

  // --- merging --------------------------------------------------------------------------------------------

  function NewName(p: Dict, n: string): string { if Has(p, n) then n + "_SYS" else n }

  /** What the merge adds to the prompt's mapping. */
  function Added(p: Dict, s: Dict): (r: Dict)
    ensures |r| == |s|
  {
    if s == [] then [] else [(NewName(p, s[0].0), s[0].1)] + Added(p, s[1..])
  }

  function Merged(p: Dict, s: Dict): Dict { p + Added(p, s) }

  /** What the merge does to the masked system text. */
  function Renames(p: Dict, s: Dict): seq<Op> {
    if s == [] then []
    else (if Has(p, s[0].0) then [(s[0].0, [Hole(NewName(p, s[0].0))])] else []) + Renames(p, s[1..])
  }

  ghost predicate GoodNames(m: Dict) { IsDict(m) && forall i :: 0 <= i < |m| ==> Numbered(m[i].0) && Plain(m[i].0) }

  lemma {:induction false} AddedIs(p: Dict, s: Dict)
    ensures |Added(p, s)| == |s| && forall i :: 0 <= i < |s| ==> Added(p, s)[i] == (NewName(p, s[i].0), s[i].1)
  {
    if s != [] { AddedIs(p, s[1..]); }
  }

  lemma SuffixIsNotNumbered(n: string)
    ensures !Numbered(n + "_SYS")
  {
    assert (n + "_SYS")[|n| + 3] == 'S';
  }

  lemma NewNameDiffers(p: Dict, a: string, b: string)
    requires Numbered(a) && Numbered(b)
    ensures NewName(p, a) == NewName(p, b) ==> a == b
    ensures Has(p, b) && GoodNames(p) ==> NewName(p, a) != b
  {
    SuffixIsNotNumbered(a);
    SuffixIsNotNumbered(b);
    assert (a + "_SYS")[..|a|] == a && (b + "_SYS")[..|b|] == b;
  }

  /** No two placeholders of the merged mapping are the same. */
  lemma MergedIsDict(p: Dict, s: Dict)
    requires GoodNames(p) && GoodNames(s)
    ensures IsDict(Merged(p, s))
  {
    hide NewName, Numbered;
    AddedIs(p, s);
    var m := Merged(p, s);
    forall i, k | 0 <= i < k < |m| ensures m[i].0 != m[k].0 {
      if i >= |p| {
        NewNameDiffers(p, s[i - |p|].0, s[k - |p|].0);
      } else if k >= |p| {
        assert Has(p, p[i].0);
        NewNameDiffers(p, s[k - |p|].0, p[i].0);
      }
    }
  }

  /** The rename of one placeholder string. */
  lemma RenamedKey(n: string)
    requires Plain(n)
    ensures Replace(Key(n), "]", "_SYS]") == Key(n + "_SYS")
  {
    var u := "[" + n;
    assert Key(n) == u + "]";
    ReplaceSkips(u, "]", "]", "_SYS]");
    assert "]"[1..] == "" && Replace("]", "]", "_SYS]") == "_SYS]" + "";
    assert Key(n + "_SYS") == u + "_SYS]";
  }

  lemma NotYetAdded(p: Dict, s: Dict, i: nat)
    requires GoodNames(p) && GoodNames(s) && i < |s|
    ensures !Has(p + Added(p, s)[..i], NewName(p, s[i].0))
    ensures Has(p + Added(p, s)[..i], s[i].0) <==> Has(p, s[i].0)
  {
    hide NewName, Numbered;
    AddedIs(p, s);
    var m, n := p + Added(p, s)[..i], s[i].0;
    forall k | 0 <= k < |m| ensures m[k].0 != NewName(p, n) && (k >= |p| ==> m[k].0 != n) {
      if k < |p| {
        assert Has(p, p[k].0);
        NewNameDiffers(p, n, p[k].0);
      } else {
        NewNameDiffers(p, s[k - |p|].0, n);
        NewNameIsFresh(p, s[k - |p|].0, n);
      }
    }
    if Has(p, n) {
      var k :| 0 <= k < |p| && p[k].0 == n;
      assert m[k].0 == n;
    }
  }

  lemma NewNameIsFresh(p: Dict, a: string, b: string)
    requires Numbered(a) && Numbered(b) && a != b
    ensures NewName(p, a) != b
  {
    SuffixIsNotNumbered(a);
  }

  lemma AddedSplits(p: Dict, s: Dict, i: nat)
    requires i < |s|
    ensures |Added(p, s)| == |s| && Added(p, s)[..i + 1] == Added(p, s)[..i] + [(NewName(p, s[i].0), s[i].1)]
  {
    AddedIs(p, s);
  }

  /** The merge loop of `process`: a system placeholder the mapping already has is renamed in the text
    * and added under its new name. */
  method Merge(promptMapping: Dict, maskedSystem: string, systemMapping: Dict, ghost p: Dict, ghost s: Dict)
    returns (safe: string, mapping: Dict)
    requires GoodNames(p) && GoodNames(s) && promptMapping == Keyed(p) && systemMapping == Keyed(s)
    ensures safe == ApplyText(maskedSystem, Renames(p, s)) && mapping == Keyed(Merged(p, s))
  {
    hide NewName, Numbered, Key, Has, IsDict, Replace, Render, Plain;
    KeyedIs(s);
    AddedIs(p, s);
    safe, mapping := maskedSystem, promptMapping;
    assert p + Added(p, s)[..0] == p && s[0..] == s;
    for i := 0 to |systemMapping|
      invariant mapping == Keyed(p + Added(p, s)[..i])
      invariant ApplyText(safe, Renames(p, s[i..])) == ApplyText(maskedSystem, Renames(p, s))
    {
      var k, v := systemMapping[i].0, systemMapping[i].1;
      ghost var n := s[i].0;
      NotYetAdded(p, s, i);
      KeyedHas(p + Added(p, s)[..i], n);
      AssignKeyed(p + Added(p, s)[..i], NewName(p, n), v);
      AddedSplits(p, s, i);
      Associate(p, Added(p, s)[..i], [(NewName(p, n), v)]);
      RenameOne(p, s[i..], safe);
      assert s[i..][1..] == s[i + 1..];
      KeyIsLong(n);
      if Has(mapping, k) {
        RenamedKey(n);
        var newKey := Replace(k, "]", "_SYS]");
        safe := Replace(safe, k, newKey);
        mapping := Assign(mapping, newKey, v);
      } else {
        mapping := Assign(mapping, k, v);
      }
    }
    assert Added(p, s)[..|s|] == Added(p, s);
  }

  lemma RenameOne(p: Dict, s: Dict, safe: string)
    requires s != []
    ensures var n := s[0].0;
            NewName(p, n) == (if Has(p, n) then n + "_SYS" else n)
            && ApplyText(safe, Renames(p, s))
               == ApplyText(if Has(p, n) then Replace(safe, Key(n), Key(NewName(p, n))) else safe, Renames(p, s[1..]))
  {
    hide Key;
    var n := s[0].0;
    if Has(p, n) {
      var op := (n, [Hole(NewName(p, n))]);
      assert ([op] + Renames(p, s[1..]))[1..] == Renames(p, s[1..]);
      RenderOne(op.1[0]);
    } else {
      assert [] + Renames(p, s[1..]) == Renames(p, s[1..]);
    }
  }

  // --- unmasking --------------------------------------------------------------------------------------------

  ghost predicate NonEmptyKeys(d: Dict) { forall i :: 0 <= i < |d| ==> d[i].0 != "" }

  ghost function ReplaceAll(s: string, d: Dict): string
    requires NonEmptyKeys(d)
    decreases |d|
  {
    if d == [] then s else assert d[0].0 != ""; ReplaceAll(Replace(s, d[0].0, d[0].1), d[1..])
  }

  /** `unmask`. */
  method Unmask(text: string, mapping: Dict) returns (result: string)
    requires NonEmptyKeys(mapping)
    ensures result == ReplaceAll(text, mapping)
  {
    result := text;
    assert mapping[0..] == mapping;
    for i := 0 to |mapping|
      invariant ReplaceAll(result, mapping[i..]) == ReplaceAll(text, mapping)
    {
      assert mapping[i..][1..] == mapping[i + 1..];
      result := Replace(result, mapping[i].0, mapping[i].1);
    }
  }

  function Fills(m: Dict): seq<Op> { if m == [] then [] else [(m[0].0, Raws(m[0].1))] + Fills(m[1..]) }

  lemma {:induction false} FillsAre(m: Dict)
    ensures |Fills(m)| == |m| && forall i :: 0 <= i < |m| ==> Fills(m)[i] == (m[i].0, Raws(m[i].1))
  {
    if m != [] { FillsAre(m[1..]); }
  }

  lemma KeyedIsNonEmpty(m: Dict)
    ensures NonEmptyKeys(Keyed(m))
  {
    KeyedIs(m);
  }

  lemma {:induction false} UnmaskIsFills(s: string, m: Dict)
    ensures NonEmptyKeys(Keyed(m)) && ReplaceAll(s, Keyed(m)) == ApplyText(s, Fills(m))
    decreases |m|
  {
    hide Key, Replace, Render;
    KeyedIsNonEmpty(m);
    if m != [] {
      KeyIsLong(m[0].0);
      RenderRaws(m[0].1);
      assert Keyed(m)[1..] == Keyed(m[1..]) && Fills(m)[1..] == Fills(m[1..]);
      UnmaskIsFills(Replace(s, Key(m[0].0), m[0].1), m[1..]);
    }
  }

  // --- what the merged mapping means --------------------------------------------------------------------------

  lemma {:induction false} UntargetedStays(n: string, ops: seq<Op>)
    requires !Targeted(n, ops)
    ensures Meant([Hole(n)], ops) == [Hole(n)]
    decreases |ops|
  {
    if ops != [] {
      assert ops[0].0 != n;
      PutHolesOne(n, ops[0].0, ops[0].1);
      assert ops == [ops[0]] + ops[1..];
      TargetedSplits(n, ops[0], ops[1..]);
      UntargetedStays(n, ops[1..]);
    }
  }

  lemma PutHolesOne(n: string, m: string, sub: seq<Token>)
    ensures PutHoles([Hole(n)], m, sub) == if n == m then sub else [Hole(n)]
  {
    assert [Hole(n)][1..] == [];
  }

  lemma RawsHaveNoHoles(s: string)
    ensures NoHoles(Raws(s))
  {
  }

  /** A hole is filled with the value its name has in the mapping. */
  lemma {:induction false} FillMeans(m: Dict, i: nat)
    requires IsDict(m) && i < |m|
    ensures Meant([Hole(m[i].0)], Fills(m)) == Raws(m[i].1)
    decreases |m|
  {
    PutHolesOne(m[i].0, m[0].0, Raws(m[0].1));
    assert Fills(m)[1..] == Fills(m[1..]);
    if i == 0 {
      RawsHaveNoHoles(m[0].1);
      MeantKeepsText(Raws(m[0].1), Fills(m[1..]));
    } else {
      assert m[0].0 != m[i].0 && m[1..][i - 1] == m[i];
      FillMeans(m[1..], i - 1);
    }
  }

  lemma {:induction false} MeantChain(t: seq<Token>, a: seq<Op>, b: seq<Op>)
    ensures Meant(t, a + b) == Meant(Meant(t, a), b)
    decreases |a|
  {
    if a == [] {
      assert a + b == b;
    } else {
      assert (a + b)[1..] == a[1..] + b;
      MeantChain(PutHoles(t, a[0].0, a[0].1), a[1..], b);
    }
  }

  lemma {:induction false} RenamesTargetOnly(p: Dict, s: Dict, n: string)
    ensures Targeted(n, Renames(p, s)) <==> Has(p, n) && Has(s, n)
  {
    hide NewName;
    if s != [] {
      var rest := Renames(p, s[1..]);
      RenamesTargetOnly(p, s[1..], n);
      HasSplits(s, n);
      if Has(p, s[0].0) {
        var op := (s[0].0, [Hole(NewName(p, s[0].0))]);
        TargetedSplits(n, op, rest);
      } else {
        assert [] + rest == rest;
      }
    }
  }

  lemma TargetedSplits(n: string, op: Op, rest: seq<Op>)
    ensures Targeted(n, [op] + rest) <==> op.0 == n || Targeted(n, rest)
  {
    var ops := [op] + rest;
    if Targeted(n, ops) && op.0 != n {
      var i :| 0 <= i < |ops| && ops[i].0 == n;
      assert rest[i - 1].0 == n;
    }
    if op.0 == n { assert ops[0].0 == n; }
    if Targeted(n, rest) {
      var i :| 0 <= i < |rest| && rest[i].0 == n;
      assert ops[i + 1].0 == n;
    }
  }

  /** Renaming takes a hole of the system to its new name. */
  lemma {:induction false} RenameMeans(p: Dict, s: Dict, i: nat)
    requires GoodNames(p) && GoodNames(s) && i < |s|
    ensures Meant([Hole(s[i].0)], Renames(p, s)) == [Hole(NewName(p, s[i].0))]
    decreases |s|
  {
    hide Numbered, Plain;
    var n, rest := s[i].0, Renames(p, s[1..]);
    assert GoodNames(s[1..]);
    if i == 0 {
      if Has(p, n) {
        var op := (n, [Hole(NewName(p, n))]);
        assert ([op] + rest)[1..] == rest;
        PutHolesOne(n, n, op.1);
        NewNameNotThere(p, n);
        RenamesTargetOnly(p, s[1..], NewName(p, n));
        UntargetedStays(NewName(p, n), rest);
      } else {
        assert [] + rest == rest;
        RenamesTargetOnly(p, s[1..], n);
        UntargetedStays(n, rest);
      }
    } else {
      assert s[1..][i - 1] == s[i] && s[0].0 != n;
      RenameMeans(p, s[1..], i - 1);
      if Has(p, s[0].0) {
        var op := (s[0].0, [Hole(NewName(p, s[0].0))]);
        assert ([op] + rest)[1..] == rest;
        PutHolesOne(n, op.0, op.1);
      } else {
        assert [] + rest == rest;
      }
    }
  }

  lemma NewNameNotThere(p: Dict, n: string)
    requires GoodNames(p) && Has(p, n)
    ensures !Has(p, NewName(p, n))
  {
    SuffixIsNotNumbered(n);
  }

  /** Every hole means its entity's value. */
  ghost predicate HolesMean(text: string, es: seq<Entity>, ops: seq<Op>)
    requires Spans(text, es)
  {
    forall j :: 0 <= j < |es| ==> Meant([Hole(NameAt(es, j))], ops) == Raws(text[es[j].start..es[j].end])
  }

  /** Then the tokens mean the text. */
  lemma {:induction false} TokensMean(text: string, es: seq<Entity>, k: nat, ops: seq<Op>)
    requires Spans(text, es) && k <= |es| && HolesMean(text, es, ops)
    ensures Meant(Tokens(text, es, k), ops) == Raws(text[Last(es, k)..])
    decreases |es| - k
  {
    hide NameAt, Meant, HolesMean, Tokens, Raws;
    if k == |es| {
      LastTokenMeans(text, es, ops);
    } else {
      SpanFits(text, es, k);
      TokensMean(text, es, k + 1, ops);
      TokensUnfold(text, es, k);
      HoleMeans(text, es, k, ops);
      var from, start, end := Last(es, k), es[k].start, es[k].end;
      ThreeMean(text[from..start], NameAt(es, k), text[start..end], Tokens(text, es, k + 1), text[end..], ops);
      CutInThree(text, from, start, end);
    }
  }

  lemma LastTokenMeans(text: string, es: seq<Entity>, ops: seq<Op>)
    requires Spans(text, es)
    ensures Meant(Tokens(text, es, |es|), ops) == Raws(text[Last(es, |es|)..])
  {
    hide Meant;
    var tail := text[Last(es, |es|)..];
    RawsHaveNoHoles(tail);
    MeantKeepsText(Raws(tail), ops);
  }

  lemma HoleMeans(text: string, es: seq<Entity>, k: nat, ops: seq<Op>)
    requires Spans(text, es) && HolesMean(text, es, ops) && k < |es|
    ensures Meant([Hole(NameAt(es, k))], ops) == Raws(text[es[k].start..es[k].end])
  {
  }

  lemma CutInThree(s: string, a: nat, b: nat, c: nat)
    requires a <= b <= c <= |s|
    ensures s[a..] == s[a..b] + s[b..c] + s[c..]
  {
  }

  lemma TokensUnfold(text: string, es: seq<Entity>, k: nat)
    requires Spans(text, es) && k < |es|
    ensures Last(es, k) <= es[k].start <= |text|
    ensures Tokens(text, es, k)
            == Raws(text[Last(es, k)..es[k].start]) + [Hole(NameAt(es, k))] + Tokens(text, es, k + 1)
  {
  }

  lemma ThreeMean(lead: string, n: string, value: string, rest: seq<Token>, after: string, ops: seq<Op>)
    requires Meant([Hole(n)], ops) == Raws(value) && Meant(rest, ops) == Raws(after)
    ensures Meant(Raws(lead) + [Hole(n)] + rest, ops) == Raws(lead + value + after)
  {
    hide Meant;
    MeantJoin(Raws(lead) + [Hole(n)], rest, ops);
    MeantJoin(Raws(lead), [Hole(n)], ops);
    RawsHaveNoHoles(lead);
    MeantKeepsText(Raws(lead), ops);
    RawsJoin(lead, value);
    RawsJoin(lead + value, after);
  }

  lemma ValuesAreGood(text: string, es: seq<Entity>)
    requires Spans(text, es) && PlainKinds(es)
    ensures GoodNames(Values(text, es))
  {
    hide NameAt, Plain, Numbered;
    EntriesAre(text, es, |es|);
    var m := Values(text, es);
    forall i | 0 <= i < |m| ensures Numbered(m[i].0) && Plain(m[i].0) { NameIsPlain(es, i); }
    forall i, k | 0 <= i < k < |m| ensures m[i].0 != m[k].0 { NamesDiffer(es, i, k); }
  }

  /** What `unmask` does to the masked prompt, and what the merge and `unmask` together do to the
    * masked system. */
  function PromptOps(p: Dict, s: Dict): seq<Op> { Fills(Merged(p, s)) }
  function SystemOps(p: Dict, s: Dict): seq<Op> { Renames(p, s) + Fills(Merged(p, s)) }

  /** The merged mapping means the prompt's own values for the prompt. */
  lemma PromptMeans(text: string, es: seq<Entity>, s: Dict)
    requires Spans(text, es) && PlainKinds(es) && GoodNames(s)
    ensures Meant(Masked(text, es), PromptOps(Values(text, es), s)) == Raws(text)
  {
    hide NameAt, Meant, Fills, Tokens, Added;
    var p := Values(text, es);
    ValuesAreGood(text, es);
    EntriesAre(text, es, |es|);
    var m := Merged(p, s);
    MergedIsDict(p, s);
    forall j | 0 <= j < |es| ensures Meant([Hole(NameAt(es, j))], Fills(m)) == Raws(text[es[j].start..es[j].end]) {
      assert m[j] == p[j];
      FillMeans(m, j);
    }
    TokensMean(text, es, 0, Fills(m));
    assert text[0..] == text;
  }

  /** And the system's own values for the system, whatever names collide. */
  lemma SystemMeans(text: string, es: seq<Entity>, p: Dict)
    requires Spans(text, es) && PlainKinds(es) && GoodNames(p)
    ensures Meant(Masked(text, es), SystemOps(p, Values(text, es))) == Raws(text)
  {
    hide NameAt, Meant, Fills, Tokens, Renames, NewName;
    var s := Values(text, es);
    ValuesAreGood(text, es);
    EntriesAre(text, es, |es|);
    var m := Merged(p, s);
    MergedIsDict(p, s);
    AddedIs(p, s);
    var ops := SystemOps(p, s);
    forall j | 0 <= j < |es| ensures Meant([Hole(NameAt(es, j))], ops) == Raws(text[es[j].start..es[j].end]) {
      assert m[|p| + j] == Added(p, s)[j];
      MeantChain([Hole(NameAt(es, j))], Renames(p, s), Fills(m));
      RenameMeans(p, s, j);
      FillMeans(m, |p| + j);
    }
    TokensMean(text, es, 0, ops);
    assert text[0..] == text;
  }

  // --- both chains --------------------------------------------------------------------------------------------------

  /** Holes of a masked text are its entities' names. */
  lemma {:induction false} TokenHoles(text: string, es: seq<Entity>, k: nat, i: nat)
    requires Spans(text, es) && k <= |es| && i < |Tokens(text, es, k)| && Tokens(text, es, k)[i].Hole?
    ensures exists j :: 0 <= j < |es| && Tokens(text, es, k)[i].name == NameAt(es, j)
    decreases |es| - k
  {
    hide NameAt;
    if k < |es| {
      var lead := Raws(text[Last(es, k)..es[k].start]);
      if i > |lead| { TokenHoles(text, es, k + 1, i - |lead| - 1); }
    }
  }

  lemma MaskedIsPlain(text: string, es: seq<Entity>)
    requires Spans(text, es) && PlainKinds(es)
    ensures PlainHoles(Masked(text, es))
  {
    hide NameAt, Tokens, Plain;
    var t := Masked(text, es);
    forall i | 0 <= i < |t| && t[i].Hole? ensures Plain(t[i].name) {
      TokenHoles(text, es, 0, i);
      var j :| 0 <= j < |es| && t[i].name == NameAt(es, j);
      NameIsPlain(es, j);
    }
  }

  ghost predicate PlainNames(m: Dict) { forall i :: 0 <= i < |m| ==> Plain(m[i].0) }

  lemma MergedIsPlain(p: Dict, s: Dict)
    requires PlainNames(p) && PlainNames(s)
    ensures PlainNames(Merged(p, s))
  {
    AddedIs(p, s);
  }

  lemma FillsArePlain(m: Dict)
    requires PlainNames(m)
    ensures PlainOps(Fills(m))
  {
    hide Plain;
    FillsAre(m);
    forall i | 0 <= i < |m| ensures PlainHoles(Fills(m)[i].1) { RawsHaveNoHoles(m[i].1); }
  }

  lemma {:induction false} RenamesArePlain(p: Dict, s: Dict)
    requires PlainNames(s)
    ensures PlainOps(Renames(p, s))
  {
    if s != [] { RenamesArePlain(p, s[1..]); }
  }

  lemma JoinPlain(a: seq<Op>, b: seq<Op>)
    requires PlainOps(a) && PlainOps(b)
    ensures PlainOps(a + b)
  {
    hide Plain, PlainHoles;
  }

  lemma ChainsArePlain(p: Dict, s: Dict)
    requires GoodNames(p) && GoodNames(s)
    ensures PlainOps(PromptOps(p, s)) && PlainOps(SystemOps(p, s))
  {
    hide Plain, Numbered, Fills, Renames, Added, PlainOps;
    MergedIsPlain(p, s);
    FillsArePlain(Merged(p, s));
    RenamesArePlain(p, s);
    JoinPlain(Renames(p, s), Fills(Merged(p, s)));
  }

  // --- weighing values against placeholders ----------------------------------------------------------------------

  /** Every value is lighter than its placeholder. */
  ghost predicate Outweighed(m: Dict, w: Weight) {
    forall i :: 0 <= i < |m| ==> Weigh(m[i].1, w) < Weigh(Key(m[i].0), w)
  }

  lemma {:induction false} FillsAreLighter(m: Dict, w: Weight)
    requires Outweighed(m, w)
    ensures Lighter(Fills(m), w)
  {
    hide Mass, Weigh;
    if m != [] {
      MassOfText(m[0].1, Fills(m[1..]), w);
      assert Fills(m)[1..] == Fills(m[1..]);
      FillsAreLighter(m[1..], w);
    }
  }

  /** A renamed placeholder ends up as the value it stands for. */
  lemma RenamedMeans(p: Dict, s: Dict, k: nat)
    requires GoodNames(p) && GoodNames(s) && k < |s| && Has(p, s[k].0)
    ensures Meant([Hole(NewName(p, s[k].0))], Renames(p, s[k + 1..]) + Fills(Merged(p, s))) == Raws(s[k].1)
  {
    hide NewName, Meant, Fills, Renames, Numbered, Plain;
    var m, n := Merged(p, s), NewName(p, s[k].0);
    NewNameNotThere(p, s[k].0);
    RenamesTargetOnly(p, s[k + 1..], n);
    UntargetedStays(n, Renames(p, s[k + 1..]));
    MeantChain([Hole(n)], Renames(p, s[k + 1..]), Fills(m));
    MergedIsDict(p, s);
    AddedIs(p, s);
    assert m[|p| + k] == Added(p, s)[k];
    FillMeans(m, |p| + k);
  }

  lemma {:induction false} RenamesAreLighter(p: Dict, s: Dict, k: nat, w: Weight)
    requires GoodNames(p) && GoodNames(s) && k <= |s| && Outweighed(s, w) && Lighter(Fills(Merged(p, s)), w)
    ensures Lighter(Renames(p, s[k..]) + Fills(Merged(p, s)), w)
    decreases |s| - k
  {
    hide NewName, Meant, Fills, Numbered, Plain, Weigh, Added, Has, Renames, Lighter;
    var fills := Fills(Merged(p, s));
    if k == |s| {
      NoRenames(p, s[k..], fills);
    } else {
      var rest, op := Renames(p, s[k + 1..]), (s[k].0, [Hole(NewName(p, s[k].0))]);
      RenamesAreLighter(p, s, k + 1, w);
      RenamesUnfold(p, s, k);
      if Has(p, s[k].0) {
        RenamedMeans(p, s, k);
        RenderRaws(s[k].1);
        LighterFirst(op, rest + fills, w);
        Associate([op], rest, fills);
      }
    }
  }

  lemma NoRenames(p: Dict, s: Dict, fills: seq<Op>)
    requires s == []
    ensures Renames(p, s) + fills == fills
  {
  }

  lemma RenamesUnfold(p: Dict, s: Dict, k: nat)
    requires k < |s|
    ensures var rest, op := Renames(p, s[k + 1..]), (s[k].0, [Hole(NewName(p, s[k].0))]);
            Renames(p, s[k..]) == if Has(p, s[k].0) then [op] + rest else rest
  {
    hide Has, NewName;
    var rest := Renames(p, s[k + 1..]);
    assert s[k..][1..] == s[k + 1..] && [] + rest == rest;
  }

  lemma LighterFirst(op: Op, ops: seq<Op>, w: Weight)
    requires Lighter(ops, w) && Mass(op.1, ops, w) < Weigh(Key(op.0), w)
    ensures Lighter([op] + ops, w)
  {
    hide Mass, Weigh;
    assert ([op] + ops)[1..] == ops;
  }

  lemma ChainsAreLighter(p: Dict, s: Dict, w: Weight)
    requires GoodNames(p) && GoodNames(s) && Outweighed(Merged(p, s), w) && Outweighed(s, w)
    ensures Lighter(PromptOps(p, s), w) && Lighter(SystemOps(p, s), w)
  {
    hide Lighter, Fills, Renames, Numbered, Plain, Outweighed;
    FillsAreLighter(Merged(p, s), w);
    RenamesAreLighter(p, s, 0, w);
    assert s[0..] == s;
  }

  // --- three weights -----------------------------------------------------------------------------------------------

  function Opening(c: char): int { if c == '[' then 1 else 0 }
  function Long(c: char): int { 1 }
  function Short(c: char): int { -1 }

  lemma {:induction false} WeighSimple(v: string)
    ensures Weigh(v, Long) == |v| && Weigh(v, Short) == -|v|
    ensures Weigh(v, Opening) >= 0 && ('[' !in v <==> Weigh(v, Opening) == 0)
  {
    if v != "" {
      WeighSimple(v[1..]);
      assert v == [v[0]] + v[1..];
    }
  }

  /** Values without an opening bracket, values shorter than their placeholders and values longer than
    * them are outweighed, each under a weight of its own. */
  lemma SimpleValuesAreOutweighed(m: Dict)
    ensures (forall i :: 0 <= i < |m| ==> '[' !in m[i].1) ==> Outweighed(m, Opening)
    ensures (forall i :: 0 <= i < |m| ==> |m[i].1| < |Key(m[i].0)|) ==> Outweighed(m, Long)
    ensures (forall i :: 0 <= i < |m| ==> |m[i].1| > |Key(m[i].0)|) ==> Outweighed(m, Short)
  {
    hide Weigh;
    forall i | 0 <= i < |m|
      ensures Weigh(m[i].1, Long) == |m[i].1| && Weigh(m[i].1, Short) == -|m[i].1|
      ensures '[' !in m[i].1 ==> Weigh(m[i].1, Opening) == 0
      ensures Weigh(Key(m[i].0), Long) == |Key(m[i].0)| && Weigh(Key(m[i].0), Short) == -|Key(m[i].0)|
      ensures Weigh(Key(m[i].0), Opening) > 0
    {
      WeighSimple(m[i].1);
      WeighSimple(Key(m[i].0));
      assert Key(m[i].0)[0] == '[';
    }
  }

  // --- the theorems ------------------------------------------------------------------------------------------------

  /** What `process` hands out and `unmask` gives back, for both texts. */
  ghost function PromptBack(prompt: string, pes: seq<Entity>, system: string, ses: seq<Entity>): string
    requires Spans(prompt, pes) && Spans(system, ses)
  {
    ApplyText(Render(Masked(prompt, pes)), PromptOps(Values(prompt, pes), Values(system, ses)))
  }

  ghost function SystemBack(prompt: string, pes: seq<Entity>, system: string, ses: seq<Entity>): string
    requires Spans(prompt, pes) && Spans(system, ses)
  {
    ApplyText(Render(Masked(system, ses)), SystemOps(Values(prompt, pes), Values(system, ses)))
  }

  /** No placeholder of the merged mapping is spelled out in the text. */
  ghost predicate FreeOf(text: string, m: Dict) { forall i :: 0 <= i < |m| ==> !Occurs(Key(m[i].0), text) }

  /** Whatever placeholders collide, the one merged mapping restores both texts exactly, provided no
    * placeholder of the mapping is spelled out in the texts themselves. */
  lemma UnmaskRestoresBoth(prompt: string, pes: seq<Entity>, system: string, ses: seq<Entity>)
    requires Spans(prompt, pes) && Spans(system, ses) && PlainKinds(pes) && PlainKinds(ses)
    requires var m := Merged(Values(prompt, pes), Values(system, ses)); FreeOf(prompt, m) && FreeOf(system, m)
    ensures PromptBack(prompt, pes, system, ses) == prompt && SystemBack(prompt, pes, system, ses) == system
  {
    hide Meant, ClashFree, Apply, ApplyText, Render, Tokens, Plain, Numbered, Fills, Renames, Values, Occurs, Key;
    var p, s := Values(prompt, pes), Values(system, ses);
    var m := Merged(p, s);
    ValuesAreGood(prompt, pes);
    ValuesAreGood(system, ses);
    MaskedIsPlain(prompt, pes);
    MaskedIsPlain(system, ses);
    ChainsArePlain(p, s);
    PromptMeans(prompt, pes, s);
    SystemMeans(system, ses, p);
    RenderRaws(prompt);
    RenderRaws(system);
    TargetsAreKeys(p, s);
    KeyFreeTextIsClashFree(Masked(prompt, pes), PromptOps(p, s));
    KeyFreeTextIsClashFree(Masked(system, ses), SystemOps(p, s));
    ApplyTextIsApply(Masked(prompt, pes), PromptOps(p, s));
    ApplyTextIsApply(Masked(system, ses), SystemOps(p, s));
    ClashFreeIsMeant(Masked(prompt, pes), PromptOps(p, s));
    ClashFreeIsMeant(Masked(system, ses), SystemOps(p, s));
  }

  /** Everything either chain replaces is a placeholder of the merged mapping. */
  lemma TargetsAreKeys(p: Dict, s: Dict)
    ensures forall i :: 0 <= i < |PromptOps(p, s)| ==> Has(Merged(p, s), PromptOps(p, s)[i].0)
    ensures forall i :: 0 <= i < |SystemOps(p, s)| ==> Has(Merged(p, s), SystemOps(p, s)[i].0)
  {
    hide Fills, Renames;
    var m := Merged(p, s);
    FillsAre(m);
    forall i | 0 <= i < |Fills(m)| ensures Has(m, Fills(m)[i].0) { assert m[i].0 == Fills(m)[i].0; }
    var ops := SystemOps(p, s);
    forall i | 0 <= i < |ops| ensures Has(m, ops[i].0) {
      if i < |Renames(p, s)| {
        assert ops[i] == Renames(p, s)[i];
        assert Targeted(ops[i].0, Renames(p, s));
        RenamesTargetOnly(p, s, ops[i].0);
        var k :| 0 <= k < |p| && p[k].0 == ops[i].0;
        assert m[k].0 == ops[i].0;
      } else {
        assert ops[i] == Fills(m)[i - |Renames(p, s)|];
      }
    }
  }

  /** And exactly: as soon as characters can be weighed such that every masked value is lighter than the
    * placeholder it gets, a text comes back if and only if no placeholder is spelled out literally in it
    * at the moment that placeholder is replaced. */
  lemma UnmaskIsExactIff(prompt: string, pes: seq<Entity>, system: string, ses: seq<Entity>, w: Weight)
    requires Spans(prompt, pes) && Spans(system, ses) && PlainKinds(pes) && PlainKinds(ses)
    requires Outweighed(Merged(Values(prompt, pes), Values(system, ses)), w) && Outweighed(Values(system, ses), w)
    ensures PromptBack(prompt, pes, system, ses) == prompt
            <==> ClashFree(Masked(prompt, pes), PromptOps(Values(prompt, pes), Values(system, ses)))
    ensures SystemBack(prompt, pes, system, ses) == system
            <==> ClashFree(Masked(system, ses), SystemOps(Values(prompt, pes), Values(system, ses)))
  {
    hide Meant, ClashFree, ApplyText, Render, Tokens, Plain, Numbered, Fills, Renames, Values, Lighter, Outweighed;
    var p, s := Values(prompt, pes), Values(system, ses);
    ValuesAreGood(prompt, pes);
    ValuesAreGood(system, ses);
    MaskedIsPlain(prompt, pes);
    MaskedIsPlain(system, ses);
    ChainsArePlain(p, s);
    ChainsAreLighter(p, s, w);
    PromptMeans(prompt, pes, s);
    SystemMeans(system, ses, p);
    RenderRaws(prompt);
    RenderRaws(system);
    ChainIsExactIff(Masked(prompt, pes), PromptOps(p, s), w);
    ChainIsExactIff(Masked(system, ses), SystemOps(p, s), w);
  }

  /** One such text: a prompt that spells out the placeholder its own value will get never comes back,
    * unless the value is that very placeholder. */
  lemma SpelledPlaceholderIsLost(kind: string, value: string)
    requires Plain(kind) && value != ""
    ensures var key := Key(Name(kind, 1));
            var prompt, pes := key + value, [Entity(kind, |key|, |key| + |value|)];
            PromptBack(prompt, pes, "", []) == prompt <==> value == key
  {
    hide Name, Key, Render, Replace, PromptBack;
    var n := Name(kind, 1);
    var key := Key(n);
    var prompt, pes := key + value, [Entity(kind, |key|, |key| + |value|)];
    OneEntity(prompt, pes);
    assert prompt[..|key|] == key && prompt[|key|..|key| + |value|] == value && prompt[|key| + |value|..] == "";
    OnePromptBack(prompt, pes, n, value);
    FirstNameIsPlain(kind);
    RenderSpelled(n);
    ReplaceSpelled(n, value);
    if value + value == key + value { SameFront(value, key, value); }
  }

  lemma RenderSpelled(n: string)
    ensures Render(Raws(Key(n)) + [Hole(n)] + Raws("")) == Key(n) + Key(n)
  {
    hide Key;
    assert Raws(Key(n)) + [Hole(n)] + Raws("") == Raws(Key(n)) + [Hole(n)];
    RenderJoin(Raws(Key(n)), [Hole(n)]);
    RenderRaws(Key(n));
    RenderOne(Hole(n));
  }

  lemma ReplaceSpelled(n: string, value: string)
    requires Plain(n)
    ensures Key(n) != "" && Replace(Key(n) + Key(n), Key(n), value) == value + value
  {
    hide Key;
    KeyIsLong(n);
    ReplaceAtHole(n, Key(n), n, value);
    ReplaceAtHole(n, "", n, value);
    assert Key(n) + "" == Key(n) && value + "" == value;
  }

  lemma SameFront(a: string, b: string, tail: string)
    requires a + tail == b + tail
    ensures a == b
  {
    assert |a| == |b|;
    assert (a + tail)[..|a|] == a && (b + tail)[..|b|] == b;
  }

  lemma FirstNameIsPlain(kind: string)
    requires Plain(kind)
    ensures Plain(Name(kind, 1))
  {
    DigitsAre(1);
  }

  lemma OneEntity(text: string, es: seq<Entity>)
    requires |es| == 1 && Spans(text, es)
    ensures Values(text, es) == [(Name(es[0].kind, 1), text[es[0].start..es[0].end])]
    ensures Masked(text, es)
            == Raws(text[..es[0].start]) + [Hole(Name(es[0].kind, 1))] + Raws(text[es[0].end..])
  {
    hide Name;
    assert es[..1] == es && es[..0] == [];
    assert Count(es, es[0].kind) == Count(es[..0], es[0].kind) + 1;
    assert Entries(text, es, 0) == [];
    assert Tokens(text, es, 1) == Raws(text[es[0].end..]);
  }

  lemma OnePromptBack(text: string, es: seq<Entity>, n: string, value: string)
    requires Spans(text, es) && Values(text, es) == [(n, value)]
    ensures Key(n) != "" && PromptBack(text, es, "", []) == Replace(Render(Masked(text, es)), Key(n), value)
  {
    hide Key, Masked, Replace, Render;
    KeyIsLong(n);
    var m := [(n, value)];
    assert Values("", []) == [] && Merged(m, []) == m && m[1..] == [];
    var ops := [(n, Raws(value))];
    assert Fills(m) == ops && ops[1..] == [] && PromptOps(m, []) == ops;
    RenderRaws(value);
    var t := Render(Masked(text, es));
    assert ApplyText(t, ops) == ApplyText(Replace(t, Key(n), value), []);
  }

  /** Without such a weight two losses can cancel: one value gives back the bracket the other one takes,
    * and a prompt that spells out both placeholders comes back all the same. */
  lemma LossesCanCancel(x: string, y: string)
    requires Plain(x) && Plain(y) && x != y
    ensures var a, b := Name(x, 1), Name(y, 1);
            var lead, u, v := Key(a) + "[" + Key(b), Key(a) + "[", b + "]";
            var prompt := lead + u + v;
            var pes := [Entity(x, |lead|, |lead + u|), Entity(y, |lead + u|, |prompt|)];
            PromptBack(prompt, pes, "", []) == prompt
            && !ClashFree(Masked(prompt, pes), PromptOps(Values(prompt, pes), Values("", [])))
  {
    hide Name, Key, Render, Replace, PromptBack, Clashes, Masked, Values;
    var a, b := Name(x, 1), Name(y, 1);
    var lead, u, v := Key(a) + "[" + Key(b), Key(a) + "[", b + "]";
    var prompt := lead + u + v;
    var pes := [Entity(x, |lead|, |lead + u|), Entity(y, |lead + u|, |prompt|)];
    FirstNameIsPlain(x);
    FirstNameIsPlain(y);
    if a == b { NameIsInjective(x, 1, y, 1); }
    EndsInBracket(b);
    ThreePieces(lead, u, v);
    TwoEntities(prompt, pes);
    TwoPromptBack(prompt, pes, a, u, b, v);
    RenderTwoHoles(lead, a, b);
    Cancelling(a, b);
    SpelledFirst(a, b);
  }

  lemma ThreePieces(a: string, b: string, c: string)
    ensures var s := a + b + c; s[..|a|] == a && s[|a|..|a + b|] == b && s[|a + b|..|s|] == c
  {
  }

  lemma EndsInBracket(n: string)
    ensures Key(n) == "[" + (n + "]") && n + "]" != ""
  {
  }

  lemma SpelledFirst(a: string, b: string)
    ensures Clashes(Raws(Key(a) + "[" + Key(b)) + [Hole(a), Hole(b)], a)
  {
    hide Key;
    var t, rest := Raws(Key(a) + "[" + Key(b)) + [Hole(a), Hole(b)], "[" + Key(b);
    assert Key(a) + "[" + Key(b) == Key(a) + rest;
    RawsJoin(Key(a), rest);
    KeyIsLong(a);
    assert t[..|Key(a)|] == Raws(Key(a));
  }

  lemma TwoEntities(text: string, es: seq<Entity>)
    requires |es| == 2 && Spans(text, es) && es[0].kind != es[1].kind
    requires es[0].end == es[1].start && es[1].end == |text|
    ensures var a, b := Name(es[0].kind, 1), Name(es[1].kind, 1);
            Values(text, es) == [(a, text[es[0].start..es[0].end]), (b, text[es[1].start..es[1].end])]
            && Masked(text, es) == Raws(text[..es[0].start]) + [Hole(a), Hole(b)]
  {
    hide Name;
    FirstOfItsKind(es, 0);
    FirstOfItsKind(es, 1);
    assert Entries(text, es, 0) == [];
    assert Entries(text, es, 1) == [(NameAt(es, 0), text[es[0].start..es[0].end])];
    assert Tokens(text, es, 2) == [];
    assert Tokens(text, es, 1) == [Hole(NameAt(es, 1))];
  }

  lemma FirstOfItsKind(es: seq<Entity>, k: nat)
    requires |es| == 2 && es[0].kind != es[1].kind && k < 2
    ensures NameAt(es, k) == Name(es[k].kind, 1)
  {
    hide Name;
    var kind := es[k].kind;
    assert es[..0] == [] && es[..1][..0] == [] && es[..2][..1] == es[..1];
    assert Count(es[..1], kind) == Count(es[..1][..0], kind) + if k == 0 then 1 else 0;
  }

  lemma TwoPromptBack(text: string, es: seq<Entity>, a: string, u: string, b: string, v: string)
    requires Spans(text, es) && Values(text, es) == [(a, u), (b, v)]
    ensures Key(a) != "" && Key(b) != ""
    ensures PromptBack(text, es, "", []) == Replace(Replace(Render(Masked(text, es)), Key(a), u), Key(b), v)
  {
    hide Key, Masked, Replace, Render;
    KeyIsLong(a);
    KeyIsLong(b);
    var m, ops := [(a, u), (b, v)], [(a, Raws(u)), (b, Raws(v))];
    assert Values("", []) == [] && Merged(m, []) == m && m[1..] == [(b, v)] && m[1..][1..] == [];
    assert Fills([(b, v)]) == [(b, Raws(v))] + Fills([(b, v)][1..]);
    assert Fills(m) == ops && ops[1..] == [(b, Raws(v))] && ops[1..][1..] == [] && PromptOps(m, []) == ops;
    RenderRaws(u);
    RenderRaws(v);
    var t := Render(Masked(text, es));
    var next := Replace(t, Key(a), u);
    assert ApplyText(t, ops) == ApplyText(next, ops[1..]);
    assert ApplyText(next, ops[1..]) == ApplyText(Replace(next, Key(b), v), []);
  }

  lemma RenderTwoHoles(lead: string, a: string, b: string)
    ensures Render(Raws(lead) + [Hole(a), Hole(b)]) == lead + (Key(a) + Key(b))
  {
    hide Key;
    RenderJoin(Raws(lead), [Hole(a), Hole(b)]);
    RenderRaws(lead);
    RenderOne(Hole(b));
    assert [Hole(a), Hole(b)][1..] == [Hole(b)];
  }

  lemma BracketIsSkipped(n: string, rest: string, v: string)
    requires Plain(n) && rest != "" && rest[0] == '['
    ensures Replace("[" + rest, Key(n), v) == "[" + Replace(rest, Key(n), v)
  {
    var s := "[" + rest;
    assert s[1..] == rest && s[1] == '[';
    assert Key(n)[1] == (n + "]")[0] != '[';
  }

  lemma Cancelling(a: string, b: string)
    requires Plain(a) && Plain(b) && a != b
    ensures Key(a) != "" && Key(b) != ""
    ensures var lead, u, v := Key(a) + "[" + Key(b), Key(a) + "[", b + "]";
            Replace(Replace(lead + (Key(a) + Key(b)), Key(a), u), Key(b), v) == lead + u + v
  {
    hide Replace, Plain, Key;
    var ka, kb, u, v := Key(a), Key(b), Key(a) + "[", b + "]";
    EndsInBracket(a);
    EndsInBracket(b);
    var tail, rest := ka + kb, ka + ("[" + kb);
    assert ka + "[" + kb + tail == ka + ("[" + (kb + tail));
    Gaining(a, b);
    Losing(a, b);
    assert ka + ("[" + ("[" + (v + (ka + ("[" + v))))) == ka + "[" + kb + u + v;
  }

  lemma Gaining(a: string, b: string)
    requires Plain(a) && Plain(b) && a != b
    ensures var ka, kb := Key(a), Key(b);
            ka != "" && Replace(ka + ("[" + (kb + (ka + kb))), ka, ka + "[")
                        == ka + ("[" + ("[" + (kb + (ka + ("[" + kb)))))
  {
    hide Replace, Plain, Key;
    var ka, kb, u := Key(a), Key(b), Key(a) + "[";
    EndsInBracket(a);
    EndsInBracket(b);
    ReplaceAtHole(a, "[" + (kb + (ka + kb)), a, u);
    BracketIsSkipped(a, kb + (ka + kb), u);
    ReplaceAtHole(b, ka + kb, a, u);
    ReplaceAtHole(a, kb, a, u);
    ReplaceAtHole(b, "", a, u);
    NothingToReplace(ka, u);
    assert kb + "" == kb;
    Associate(ka, "[", kb);
    Associate(ka, "[", "[" + (kb + (ka + ("[" + kb))));
  }

  lemma Losing(a: string, b: string)
    requires Plain(a) && Plain(b) && a != b
    ensures var ka, kb, v := Key(a), Key(b), b + "]";
            kb != "" && Replace(ka + ("[" + ("[" + (kb + (ka + ("[" + kb))))), kb, v)
                        == ka + ("[" + ("[" + (v + (ka + ("[" + v)))))
  {
    hide Replace, Plain, Key;
    var ka, kb, v := Key(a), Key(b), b + "]";
    EndsInBracket(a);
    EndsInBracket(b);
    var rest := ka + ("[" + kb);
    ReplaceAtHole(a, "[" + ("[" + (kb + rest)), b, v);
    BracketIsSkipped(b, "[" + (kb + rest), v);
    BracketIsSkipped(b, kb + rest, v);
    ReplaceAtHole(b, rest, b, v);
    ReplaceAtHole(a, "[" + kb, b, v);
    BracketIsSkipped(b, kb, v);
    ReplaceAtHole(b, "", b, v);
    NothingToReplace(kb, v);
    assert kb + "" == kb && v + "" == v;
  }

  lemma NothingToReplace(k: string, v: string)
    requires k != ""
    ensures Replace("", k, v) == ""
  {
  }

  // --- process and unmask ---------------------------------------------------------------------------------------

  /** The masking branch of `process`, on minimized texts and the entities scanned in each. */
  method Process(prompt: string, pes: seq<Entity>, system: string, ses: seq<Entity>)
    returns (safePrompt: string, safeSystem: string, mapping: Dict)
    requires Spans(prompt, pes) && Spans(system, ses) && PlainKinds(pes) && PlainKinds(ses)
    ensures mapping == Keyed(Merged(Values(prompt, pes), Values(system, ses))) && NonEmptyKeys(mapping)
    ensures ReplaceAll(safePrompt, mapping) == PromptBack(prompt, pes, system, ses)
    ensures ReplaceAll(safeSystem, mapping) == SystemBack(prompt, pes, system, ses)
  {
    hide Tokens, Keyed, Render, Renames, NameAt, Plain, Numbered;
    ghost var p, s := Values(prompt, pes), Values(system, ses);
    ValuesAreGood(prompt, pes);
    ValuesAreGood(system, ses);
    safePrompt, mapping := Mask(prompt, pes);
    safeSystem := system;
    if system != "" {
      var systemMapping;
      safeSystem, systemMapping := Mask(system, ses);
      safeSystem, mapping := Merge(mapping, safeSystem, systemMapping, p, s);
    } else {
      NothingToMask(ses, p);
    }
    KeyedIsNonEmpty(Merged(p, s));
    UnmaskIsFills(safePrompt, Merged(p, s));
    UnmaskIsFills(safeSystem, Merged(p, s));
    ChainedText(Render(Masked(system, ses)), Renames(p, s), Fills(Merged(p, s)));
  }

  lemma EntitiesNeedText(text: string, es: seq<Entity>)
    requires Spans(text, es) && es != []
    ensures text != ""
  {
    assert es[0].start < es[0].end <= |text|;
  }

  lemma NothingToMask(ses: seq<Entity>, p: Dict)
    requires Spans("", ses)
    ensures Merged(p, Values("", ses)) == p && Render(Masked("", ses)) == ""
    ensures Renames(p, Values("", ses)) == [] && forall t :: ApplyText(t, []) == t
  {
    if ses != [] { EntitiesNeedText("", ses); }
  }

  lemma {:induction false} ChainedText(t: string, a: seq<Op>, b: seq<Op>)
    ensures ApplyText(t, a + b) == ApplyText(ApplyText(t, a), b)
    decreases |a|
  {
    hide Replace, Key, Render;
    if a == [] {
      assert a + b == b;
    } else {
      assert (a + b)[1..] == a[1..] + b;
      KeyIsLong(a[0].0);
      ChainedText(Replace(t, Key(a[0].0), Render(a[0].1)), a[1..], b);
    }
  }

  /** The round trip as a caller sees it. */
  method RoundTrip(prompt: string, pes: seq<Entity>, system: string, ses: seq<Entity>)
    returns (promptBack: string, systemBack: string)
    requires Spans(prompt, pes) && Spans(system, ses) && PlainKinds(pes) && PlainKinds(ses)
    requires var m := Merged(Values(prompt, pes), Values(system, ses)); FreeOf(prompt, m) && FreeOf(system, m)
    ensures promptBack == prompt && systemBack == system
  {
    hide *;
    var safePrompt, safeSystem, mapping := Process(prompt, pes, system, ses);
    UnmaskRestoresBoth(prompt, pes, system, ses);
    promptBack := Unmask(safePrompt, mapping);
    systemBack := Unmask(safeSystem, mapping);
  }
}
