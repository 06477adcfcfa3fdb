/** Masking: spans are numbered per kind and replaced by placeholders. */
module SaibMask {
  import opened Options
  import opened Strings
  import opened Placeholders
  import opened SaibScan

  // --- placeholder names -----------------------------------------------------------------------------

  /** The name inside the brackets: kind, underscore, running number. */
  function Name(kind: string, n: nat): string { kind + "_" + Digits(n) }

  lemma LongerTailHasUnderscore(a: string, b: string, c: string, d: string)
    requires a + "_" + b == c + "_" + d && |b| < |d|
    ensures '_' in d
  {
    var s, i := a + "_" + b, |d| - |b| - 1;
    assert s[|a|] == '_';
    assert s[|c| + 1 + i] == d[i] && |c| + 1 + i == |a|;
  }

  lemma NameIsInjective(a: string, m: nat, b: string, n: nat)
    requires Name(a, m) == Name(b, n)
    ensures a == b && m == n
  {
    var x, y := Digits(m), Digits(n);
    DigitsAre(m);
    DigitsAre(n);
    if |x| < |y| { LongerTailHasUnderscore(a, x, b, y); }
    if |y| < |x| { LongerTailHasUnderscore(b, y, a, x); }
    assert x == Name(a, m)[|a| + 1..] && y == Name(b, n)[|b| + 1..];
    assert a == Name(a, m)[..|a|] && b == Name(b, n)[..|b|];
  }

  /** Ends in a digit, as every name `mask` makes and no renamed one. */
  predicate Numbered(n: string) { n != "" && '0' <= n[|n| - 1] <= '9' }

  function Count(es: seq<Entity>, kind: string): nat {
    if es == [] then 0
    else Count(es[..|es| - 1], kind) + if es[|es| - 1].kind == kind then 1 else 0
  }

  function NameAt(es: seq<Entity>, k: nat): string
    requires k < |es|
  {
    Name(es[k].kind, Count(es[..k + 1], es[k].kind))
  }

  ghost predicate PlainKinds(es: seq<Entity>) { forall k :: 0 <= k < |es| ==> Plain(es[k].kind) }

  lemma {:induction false} CountGrows(es: seq<Entity>, j: nat, k: nat, kind: string)
    requires j <= k <= |es|
    ensures Count(es[..j], kind) <= Count(es[..k], kind)
    ensures j < k && es[k - 1].kind == kind ==> Count(es[..j], kind) < Count(es[..k], kind)
  {
    if j < k {
      CountGrows(es, j, k - 1, kind);
      assert es[..k][..k - 1] == es[..k - 1];
    }
  }

  lemma NamesDiffer(es: seq<Entity>, j: nat, k: nat)
    requires j < k < |es|
    ensures NameAt(es, j) != NameAt(es, k)
  {
    CountGrows(es, j + 1, k + 1, es[k].kind);
    if NameAt(es, j) == NameAt(es, k) {
      NameIsInjective(es[j].kind, Count(es[..j + 1], es[j].kind), es[k].kind, Count(es[..k + 1], es[k].kind));
    }
  }

  lemma NameIsPlain(es: seq<Entity>, k: nat)
    requires k < |es|
    ensures Numbered(NameAt(es, k)) && (Plain(es[k].kind) ==> Plain(NameAt(es, k)))
  {
    DigitsAre(Count(es[..k + 1], es[k].kind));
  }

  // --- masking -------------------------------------------------------------------------------------------

  function Last(es: seq<Entity>, k: nat): nat
    requires k <= |es|
  {
    if k == 0 then 0 else es[k - 1].end
  }

  /** The text from behind entity k - 1, with a hole for every entity from k on. */
  function Tokens(text: string, es: seq<Entity>, k: nat): seq<Token>
    requires Spans(text, es) && k <= |es|
    decreases |es| - k
  {
    if k == |es| then Raws(text[Last(es, k)..])
    else Raws(text[Last(es, k)..es[k].start]) + [Hole(NameAt(es, k))] + Tokens(text, es, k + 1)
  }

  function Masked(text: string, es: seq<Entity>): seq<Token>
    requires Spans(text, es)
  {
    Tokens(text, es, 0)
  }

  /** Name and value of the first k entities. */
  function Entries(text: string, es: seq<Entity>, k: nat): Dict
    requires Spans(text, es) && k <= |es|
  {
    if k == 0 then [] else Entries(text, es, k - 1) + [(NameAt(es, k - 1), text[es[k - 1].start..es[k - 1].end])]
  }

  function Values(text: string, es: seq<Entity>): Dict
    requires Spans(text, es)
  {
    Entries(text, es, |es|)
  }

  lemma {:induction false} EntriesAre(text: string, es: seq<Entity>, k: nat)
    requires Spans(text, es) && k <= |es|
    ensures |Entries(text, es, k)| == k
    ensures forall i :: 0 <= i < k ==> Entries(text, es, k)[i] == (NameAt(es, i), text[es[i].start..es[i].end])
  {
    hide NameAt, Apart;
    if k > 0 { EntriesAre(text, es, k - 1); }
  }

  /** The mapping as the code holds it: bracketed placeholder to value. */
  function Keyed(m: Dict): Dict { if m == [] then [] else [(Key(m[0].0), m[0].1)] + Keyed(m[1..]) }

  lemma {:induction false} KeyedIs(m: Dict)
    ensures |Keyed(m)| == |m| && forall i :: 0 <= i < |m| ==> Keyed(m)[i] == (Key(m[i].0), m[i].1)
  {
    if m != [] { KeyedIs(m[1..]); }
  }

  lemma KeyIsInjective(a: string, b: string)
    ensures Key(a) == Key(b) ==> a == b
  {
    assert Key(a)[1..|Key(a)| - 1] == a && Key(b)[1..|Key(b)| - 1] == b;
  }

  lemma KeyedHas(m: Dict, n: string)
    ensures Has(Keyed(m), Key(n)) <==> Has(m, n)
  {
    KeyedIs(m);
    if Has(m, n) {
      var i :| 0 <= i < |m| && m[i].0 == n;
      assert Keyed(m)[i].0 == Key(n);
    }
    if Has(Keyed(m), Key(n)) {
      var i :| 0 <= i < |m| && Keyed(m)[i].0 == Key(n);
      KeyIsInjective(m[i].0, n);
      assert m[i].0 == n;
    }
  }

  lemma KeyedSnoc(m: Dict, n: string, v: string)
    ensures Keyed(m + [(n, v)]) == Keyed(m) + [(Key(n), v)]
  {
    KeyedIs(m);
    KeyedIs(m + [(n, v)]);
  }

  /** Assigning under a new placeholder. */
  lemma AssignKeyed(m: Dict, n: string, v: string)
    requires !Has(m, n)
    ensures Assign(Keyed(m), Key(n), v) == Keyed(m + [(n, v)])
  {
    KeyedHas(m, n);
    AssignFresh(Keyed(m), Key(n), v);
    KeyedSnoc(m, n, v);
  }

  lemma NextNameIsNew(text: string, es: seq<Entity>, k: nat)
    requires Spans(text, es) && k < |es|
    ensures !Has(Entries(text, es, k), NameAt(es, k))
  {
    EntriesAre(text, es, k);
    forall i | 0 <= i < k ensures Entries(text, es, k)[i].0 != NameAt(es, k) { NamesDiffer(es, i, k); }
  }

  /** One more hole, from the back. */
  lemma OneHole(text: string, es: seq<Entity>, k: nat)
    requires Spans(text, es) && k < |es|
    ensures text[..Last(es, k)] + Render(Tokens(text, es, k))
            == text[..es[k].start] + Key(NameAt(es, k)) + Render(Tokens(text, es, k + 1))
  {
    hide NameAt, Key;
    var lead := text[Last(es, k)..es[k].start];
    var hole := [Hole(NameAt(es, k))];
    var rest := Tokens(text, es, k + 1);
    RenderJoin(Raws(lead) + hole, rest);
    RenderJoin(Raws(lead), hole);
    RenderRaws(lead);
    RenderOne(hole[0]);
    assert text[..es[k].start] == text[..Last(es, k)] + lead;
    Regroup(text[..Last(es, k)], lead, Key(NameAt(es, k)), Render(rest));
  }

  lemma Regroup(a: string, b: string, c: string, d: string)
    ensures a + (b + c + d) == (a + b) + c + d
  {
  }

  function CountOf(counters: map<string, nat>, kind: string): nat { if kind in counters then counters[kind] else 0 }

  ghost predicate Counting(counters: map<string, nat>, es: seq<Entity>) {
    forall kind :: CountOf(counters, kind) == Count(es, kind)
  }

  lemma CountNone(es: seq<Entity>)
    ensures Counting(map[], es[..0])
  {
  }

  lemma CountOne(counters: map<string, nat>, es: seq<Entity>, i: nat)
    requires i < |es| && Counting(counters, es[..i])
    ensures var kind := es[i].kind; var next := counters[kind := CountOf(counters, kind) + 1];
            Counting(next, es[..i + 1]) && NameAt(es, i) == Name(kind, next[kind])
  {
    hide Name;
    var more, kind := es[..i + 1], es[i].kind;
    assert more[..i] == es[..i] && more[|more| - 1] == es[i];
    var next := counters[kind := CountOf(counters, kind) + 1];
    forall k ensures CountOf(next, k) == Count(more, k) {
      assert CountOf(counters, k) == Count(es[..i], k);
      assert CountOf(next, k) == CountOf(counters, k) + if k == kind then 1 else 0;
    }
    assert CountOf(next, kind) == next[kind];
  }

  /** The first loop of `mask`: numbering forward, a counter per kind. */
  method Number(text: string, es: seq<Entity>) returns (placeholders: seq<string>, mapping: Dict)
    requires Spans(text, es)
    ensures |placeholders| == |es| && mapping == Keyed(Values(text, es))
    ensures forall j :: 0 <= j < |es| ==> placeholders[j] == Key(NameAt(es, j))
  {
    hide Key, Name, Keyed, Assign, Has, Counting;
    var counters: map<string, nat> := map[];
    placeholders, mapping := [], Keyed([]);
    CountNone(es);
    for i := 0 to |es|
      invariant mapping == Keyed(Entries(text, es, i)) && |placeholders| == i
      invariant forall j :: 0 <= j < i ==> placeholders[j] == Key(NameAt(es, j))
      invariant Counting(counters, es[..i])
    {
      CountOne(counters, es, i);
      var kind, value := es[i].kind, text[es[i].start..es[i].end];
      counters := counters[kind := CountOf(counters, kind) + 1];
      var placeholder := Key(Name(kind, counters[kind]));
      NextNameIsNew(text, es, i);
      AssignKeyed(Entries(text, es, i), NameAt(es, i), value);
      mapping := Assign(mapping, placeholder, value);
      placeholders := placeholders + [placeholder];
    }
  }

  /** `mask`: numbers forward, replaces backward. */
  method Mask(text: string, es: seq<Entity>) returns (masked: string, mapping: Dict)
    requires Spans(text, es)
    ensures masked == Render(Masked(text, es)) && mapping == Keyed(Values(text, es))
  {
    hide Tokens, Key, Name, NameAt, Render, Keyed, Values;
    var placeholders;
    placeholders, mapping := Number(text, es);
    masked := text;
    TextIsLastToken(text, es);
    for i := |es| downto 0
      invariant masked == text[..Last(es, i)] + Render(Tokens(text, es, i))
    {
      OneHole(text, es, i);
      SpanFits(text, es, i);
      assert masked[..es[i].start] == text[..es[i].start];
      assert masked[es[i].end..] == Render(Tokens(text, es, i + 1));
      masked := masked[..es[i].start] + placeholders[i] + masked[es[i].end..];
    }
  }

  lemma SpanFits(text: string, es: seq<Entity>, k: nat)
    requires Spans(text, es) && k < |es|
    ensures Last(es, k) <= es[k].start < es[k].end == Last(es, k + 1) <= |text|
  {
  }

  lemma TextIsLastToken(text: string, es: seq<Entity>)
    requires Spans(text, es)
    ensures text == text[..Last(es, |es|)] + Render(Tokens(text, es, |es|))
  {
    RenderRaws(text[Last(es, |es|)..]);
  }
}
