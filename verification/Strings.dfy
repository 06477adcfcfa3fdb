/** Strings in code-point order, dictionaries as lists of pairs, and sorting them by key. */
module Strings {
  import opened Options

  type Pair = (string, string)
  type Dict = seq<Pair>

  lemma Associate<T>(a: seq<T>, b: seq<T>, c: seq<T>)
    ensures a + (b + c) == a + b + c
  {
  }

  // --- the order ----------------------------------------------------------------------------

  predicate Less(a: string, b: string) {
    b != "" && (a == "" || a[0] < b[0] || (a[0] == b[0] && Less(a[1..], b[1..])))
  }

  lemma {:induction false} Total(a: string, b: string)
    ensures (if Less(a, b) then 1 else 0) + (if Less(b, a) then 1 else 0) + (if a == b then 1 else 0) == 1
  {
    if a != "" && b != "" {
      Total(a[1..], b[1..]);
      if a[0] == b[0] { assert a == [a[0]] + a[1..] && b == [b[0]] + b[1..]; }
    }
  }

  lemma {:induction false} Transitive(a: string, b: string, c: string)
    requires Less(a, b) && Less(b, c)
    ensures Less(a, c)
  {
    if a != "" && a[0] == b[0] && b[0] == c[0] { Transitive(a[1..], b[1..], c[1..]); }
  }

  // --- trimming and case --------------------------------------------------------------------

  predicate Blank(c: char) { c == ' ' || '\t' <= c <= '\r' || 0x1c <= c as int <= 0x1f }

  /** `strip` over ASCII white space. */
  function Strip(s: string): string {
    if s == "" then ""
    else if Blank(s[0]) then Strip(s[1..])
    else if Blank(s[|s| - 1]) then Strip(s[..|s| - 1])
    else s
  }

  /** `upper` over ASCII letters. */
  function Upper(s: string): string {
    if s == "" then "" else [if 'a' <= s[0] <= 'z' then s[0] - 'a' + 'A' else s[0]] + Upper(s[1..])
  }

  ghost predicate AllBlank(s: string) { forall i :: 0 <= i < |s| ==> Blank(s[i]) }

  predicate Trimmed(s: string) { s == "" || (!Blank(s[0]) && !Blank(s[|s| - 1])) }

  /** Stripping drops the white space around a text and nothing else. */
  lemma {:induction false} StripIs(a: string, s: string, b: string)
    requires AllBlank(a) && AllBlank(b) && Trimmed(s)
    ensures Strip(a + s + b) == s
    decreases |a| + |b|
  {
    var t := a + s + b;
    if a != "" {
      assert t[1..] == a[1..] + s + b;
      StripIs(a[1..], s, b);
    } else if b != "" {
      var n := |b| - 1;
      assert t[..|t| - 1] == a + s + b[..n] && t[|t| - 1] == b[n];
      if s == "" {
        assert t[1..] == a + s + b[1..];
        StripIs(a, s, b[1..]);
      } else {
        assert t[0] == s[0];
        StripIs(a, s, b[..n]);
      }
    } else {
      assert t == s;
    }
  }

  predicate SameLetter(c: char, d: char) {
    c == d || ('a' <= c <= 'z' && d == c - 'a' + 'A') || ('a' <= d <= 'z' && c == d - 'a' + 'A')
  }

  /** Two texts have the same capitals exactly when they differ at most in the case of their letters. */
  lemma {:induction false} SameCapitalsIff(s: string, t: string)
    ensures Upper(s) == Upper(t) <==> |s| == |t| && forall i :: 0 <= i < |s| ==> SameLetter(s[i], t[i])
  {
    if s != "" && t != "" {
      SameCapitalsIff(s[1..], t[1..]);
      assert Upper(s)[1..] == Upper(s[1..]) && Upper(t)[1..] == Upper(t[1..]);
      if |s| == |t| && forall i :: 0 <= i < |s| ==> SameLetter(s[i], t[i]) {
        forall i | 0 <= i < |s| - 1 ensures SameLetter(s[1..][i], t[1..][i]) {
          assert SameLetter(s[i + 1], t[i + 1]);
        }
      } else if Upper(s) == Upper(t) {
        assert Upper(s)[0] == Upper(t)[0];
        forall i | 0 <= i < |s| ensures SameLetter(s[i], t[i]) {
          if i > 0 { assert SameLetter(s[1..][i - 1], t[1..][i - 1]); }
        }
      }
    }
  }

  /** What is in capitals already stays as it is. */
  lemma {:induction false} CapitalsStay(s: string)
    requires forall i :: 0 <= i < |s| ==> !('a' <= s[i] <= 'z')
    ensures Upper(s) == s
  {
    if s != "" { CapitalsStay(s[1..]); assert s == [s[0]] + s[1..]; }
  }

  // --- dictionaries -------------------------------------------------------------------------------

  /** The pairs of a dictionary in insertion order: no key twice. */
  ghost predicate IsDict(d: Dict) { forall i, k :: 0 <= i < k < |d| ==> d[i].0 != d[k].0 }

  function MapOf(d: Dict): map<string, string> {
    if d == [] then map[] else MapOf(d[1..])[d[0].0 := d[0].1]
  }

  lemma {:induction false} MapOfHas(d: Dict, k: string)
    requires IsDict(d)
    ensures k in MapOf(d) <==> exists i :: 0 <= i < |d| && d[i].0 == k
    ensures forall i :: 0 <= i < |d| && d[i].0 == k ==> k in MapOf(d) && MapOf(d)[k] == d[i].1
  {
    if d != [] {
      MapOfHas(d[1..], k);
      forall i | 0 <= i < |d| && d[i].0 == k ensures k in MapOf(d) && MapOf(d)[k] == d[i].1 {
        if i > 0 { assert d[1..][i - 1] == d[i]; }
      }
      if k in MapOf(d) && k != d[0].0 {
        var i :| 0 <= i < |d[1..]| && d[1..][i].0 == k;
        assert d[i + 1].0 == k;
      }
    }
  }

  predicate Has(d: Dict, k: string) { exists i :: 0 <= i < |d| && d[i].0 == k }

  /** `d[k] = v`: the pair keeps its place if the key is there, and is added at the end otherwise. */
  function Assign(d: Dict, k: string, v: string): Dict {
    if d == [] then [(k, v)]
    else if d[0].0 == k then [(k, v)] + d[1..]
    else [d[0]] + Assign(d[1..], k, v)
  }

  lemma HasSplits(d: Dict, k: string)
    requires d != []
    ensures Has(d, k) <==> d[0].0 == k || Has(d[1..], k)
  {
    if Has(d, k) && d[0].0 != k {
      var i :| 0 <= i < |d| && d[i].0 == k;
      assert d[1..][i - 1].0 == k;
    }
    if Has(d[1..], k) {
      var i :| 0 <= i < |d[1..]| && d[1..][i].0 == k;
      assert d[i + 1].0 == k;
    }
  }

  lemma {:induction false} AssignFresh(d: Dict, k: string, v: string)
    requires !Has(d, k)
    ensures Assign(d, k, v) == d + [(k, v)]
  {
    if d != [] {
      HasSplits(d, k);
      AssignFresh(d[1..], k, v);
      assert d == [d[0]] + d[1..];
    }
  }

  // --- sorting ----------------------------------------------------------------------------------------

  ghost predicate Sorted(d: Dict) { forall i, k :: 0 <= i < k < |d| ==> Less(d[i].0, d[k].0) }

  function Insert(p: Pair, d: Dict): Dict {
    if d == [] || Less(p.0, d[0].0) then [p] + d else [d[0]] + Insert(p, d[1..])
  }

  function Sort(d: Dict): Dict { if d == [] then [] else Insert(d[0], Sort(d[1..])) }

  lemma {:induction false} InsertIs(p: Pair, d: Dict)
    requires Sorted(d) && forall i :: 0 <= i < |d| ==> d[i].0 != p.0
    ensures Sorted(Insert(p, d)) && multiset(Insert(p, d)) == multiset(d) + multiset{p}
  {
    if d == [] {
    } else if Less(p.0, d[0].0) {
      forall i | 0 < i < |d| ensures Less(p.0, d[i].0) { Transitive(p.0, d[0].0, d[i].0); }
    } else {
      Total(p.0, d[0].0);
      InsertIs(p, d[1..]);
      var r := Insert(p, d[1..]);
      assert multiset(d) == multiset{d[0]} + multiset(d[1..]) by { assert d == [d[0]] + d[1..]; }
      forall i | 0 <= i < |r| ensures Less(d[0].0, r[i].0) {
        assert r[i] in multiset(r);
        if r[i] != p {
          assert r[i] in d[1..];
          var k :| 0 <= k < |d[1..]| && d[1..][k] == r[i];
          assert d[k + 1] == r[i];
        }
      }
    }
  }

  lemma {:induction false} SortIs(d: Dict)
    requires IsDict(d)
    ensures Sorted(Sort(d)) && multiset(Sort(d)) == multiset(d)
  {
    if d != [] {
      SortIs(d[1..]);
      var r := Sort(d[1..]);
      assert d == [d[0]] + d[1..];
      forall i | 0 <= i < |r| ensures r[i].0 != d[0].0 {
        assert r[i] in multiset(r);
        var k :| 0 <= k < |d[1..]| && d[1..][k] == r[i];
        assert d[k + 1] == r[i];
      }
      InsertIs(d[0], r);
    }
  }

  lemma SortedIsDict(d: Dict)
    requires Sorted(d)
    ensures IsDict(d)
  {
    forall i, k | 0 <= i < k < |d| ensures d[i].0 != d[k].0 { Total(d[i].0, d[k].0); }
  }

  /** The same pairs in any order make the same map. */
  lemma SamePairsSameMap(d: Dict, e: Dict)
    requires IsDict(d) && IsDict(e) && forall p :: p in d ==> p in e
    ensures forall k :: k in MapOf(d) ==> k in MapOf(e) && MapOf(e)[k] == MapOf(d)[k]
  {
    forall k | k in MapOf(d) ensures k in MapOf(e) && MapOf(e)[k] == MapOf(d)[k] {
      MapOfHas(d, k);
      var i :| 0 <= i < |d| && d[i].0 == k;
      assert d[i] in e;
      var j :| 0 <= j < |e| && e[j] == d[i];
      MapOfHas(e, k);
    }
  }

  lemma SortKeepsMap(d: Dict)
    requires IsDict(d)
    ensures IsDict(Sort(d)) && MapOf(Sort(d)) == MapOf(d)
  {
    SortIs(d);
    SortedIsDict(Sort(d));
    forall p ensures p in d <==> p in Sort(d) { assert p in multiset(d) <==> p in multiset(Sort(d)); }
    SamePairsSameMap(d, Sort(d));
    SamePairsSameMap(Sort(d), d);
  }

  /** A sorted list is determined by its map. */
  lemma {:induction false} SortedByMap(d: Dict, e: Dict)
    requires Sorted(d) && Sorted(e) && MapOf(d) == MapOf(e)
    ensures d == e
  {
    SortedIsDict(d);
    SortedIsDict(e);
    if d == [] {
      if e != [] { MapOfHas(e, e[0].0); }
    } else {
      MapOfHas(d, d[0].0);
      MapOfHas(e, d[0].0);
      var i :| 0 <= i < |e| && e[i].0 == d[0].0;
      MapOfHas(e, e[0].0);
      MapOfHas(d, e[0].0);
      var k :| 0 <= k < |d| && d[k].0 == e[0].0;
      Total(d[0].0, e[0].0);
      assert d[0] == e[0];
      TailMap(d);
      TailMap(e);
      SortedByMap(d[1..], e[1..]);
      assert d == [d[0]] + d[1..] && e == [e[0]] + e[1..];
    }
  }

  lemma TailMap(d: Dict)
    requires IsDict(d) && d != []
    ensures MapOf(d[1..]) == MapOf(d) - {d[0].0}
  {
    MapOfHas(d[1..], d[0].0);
    assert forall i :: 0 <= i < |d[1..]| ==> d[1..][i] == d[i + 1];
  }

  /** Sorting is a canonical form: two dictionaries sort alike exactly when they are equal as maps. */
  lemma SortIsCanonical(d: Dict, e: Dict)
    requires IsDict(d) && IsDict(e)
    ensures Sort(d) == Sort(e) <==> MapOf(d) == MapOf(e)
  {
    SortKeepsMap(d);
    SortKeepsMap(e);
    SortIs(d);
    SortIs(e);
    if MapOf(d) == MapOf(e) { SortedByMap(Sort(d), Sort(e)); }
  }

  lemma SortHasTheSame(d: Dict)
    requires IsDict(d)
    ensures |Sort(d)| == |d| && forall p :: p in Sort(d) <==> p in d
  {
    SortIs(d);
    forall p ensures p in Sort(d) <==> p in d { assert p in multiset(d) <==> p in multiset(Sort(d)); }
    assert |Sort(d)| == |multiset(Sort(d))| && |d| == |multiset(d)|;
  }

  // --- replacing ------------------------------------------------------------------------------------------

  /** `s.replace(k, v)` for a non-empty pattern: leftmost matches, none overlapping. */
  function Replace(s: string, k: string, v: string): string
    requires k != ""
  {
    if s == "" then ""
    else if k <= s then v + Replace(s[|k|..], k, v)
    else [s[0]] + Replace(s[1..], k, v)
  }

  // --- splitting ------------------------------------------------------------------------------------------

  /** Split at the first occurrence of c, dropping it. */
  function Until(s: string, c: char): Option<(string, string)> {
    if s == "" then None
    else if s[0] == c then Some(("", s[1..]))
    else
      match Until(s[1..], c)
      case None => None
      case Some(p) => Some(([s[0]] + p.0, p.1))
  }

  lemma {:induction false} UntilFinds(a: string, c: char, b: string)
    requires c !in a
    ensures Until(a + [c] + b, c) == Some((a, b))
  {
    var s := a + [c] + b;
    if a == "" {
      assert s[1..] == b;
    } else {
      UntilFinds(a[1..], c, b);
      assert s[1..] == a[1..] + [c] + b && s[0] == a[0];
      assert a == [a[0]] + a[1..];
    }
  }

  lemma {:induction false} UntilMisses(a: string, c: char)
    ensures c !in a ==> Until(a, c) == None
  {
    if a != "" { UntilMisses(a[1..], c); }
  }

  // --- numerals -------------------------------------------------------------------------------------------

  function Digit(n: nat): char
    requires n < 10
  {
    "0123456789"[n]
  }

  /** `str(n)`. */
  function Digits(n: nat): string { if n < 10 then [Digit(n)] else Digits(n / 10) + [Digit(n % 10)] }

  function Worth(c: char): int { c as int - '0' as int }

  function Value(s: string): int { if s == "" then 0 else 10 * Value(s[..|s| - 1]) + Worth(s[|s| - 1]) }

  lemma {:induction false} DigitsAre(n: nat)
    ensures Digits(n) != "" && Value(Digits(n)) == n && forall i :: 0 <= i < |Digits(n)| ==> '0' <= Digits(n)[i] <= '9'
  {
    var s := Digits(n);
    if n < 10 {
      assert s[..0] == "";
    } else {
      DigitsAre(n / 10);
      assert s[..|s| - 1] == Digits(n / 10);
    }
  }
}
