/** Prometheus label keys: escaping, the canonical key, its rendering, a parser that undoes both,
  * and the counter and gauge that use the key. The format is the Prometheus text exposition
  * format 0.0.4, section "Text format details". */
module PromLabels {
  import opened Options
  import opened Strings

  // --- escaping -----------------------------------------------------------------------------

  /** `_format_label_value`: backslash first, then newline, then quote. */
  function FormatValue(s: string): string {
    Replace(Replace(Replace(s, "\\", "\\\\"), "\n", "\\n"), "\"", "\\\"")
  }

  function EscapeChar(c: char): string {
    if c == '\\' then "\\\\" else if c == '\n' then "\\n" else if c == '"' then "\\\"" else [c]
  }

  /** One pass, one character at a time. */
  function Escape(s: string): string { if s == "" then "" else EscapeChar(s[0]) + Escape(s[1..]) }

  function Unescape(s: string): string {
    if s == "" then ""
    else if s[0] == '\\' && |s| > 1 then [if s[1] == 'n' then '\n' else s[1]] + Unescape(s[2..])
    else [s[0]] + Unescape(s[1..])
  }

  /** Replacing a one-character pattern works character by character. */
  function ReplaceChar(s: string, c: char, r: string): string {
    if s == "" then "" else (if s[0] == c then r else [s[0]]) + ReplaceChar(s[1..], c, r)
  }

  lemma {:induction false} ReplaceIsPerChar(s: string, c: char, r: string)
    ensures Replace(s, [c], r) == ReplaceChar(s, c, r)
  {
    if s != "" { ReplaceIsPerChar(s[1..], c, r); }
  }

  lemma {:induction false} ReplaceJoin(a: string, b: string, c: char, r: string)
    ensures ReplaceChar(a + b, c, r) == ReplaceChar(a, c, r) + ReplaceChar(b, c, r)
  {
    if a == "" {
      assert a + b == b;
    } else {
      ReplaceJoin(a[1..], b, c, r);
      assert (a + b)[0] == a[0] && (a + b)[1..] == a[1..] + b;
      Associate(if a[0] == c then r else [a[0]], ReplaceChar(a[1..], c, r), ReplaceChar(b, c, r));
    }
  }

  lemma ReplaceTwo(x: char, y: char, c: char, r: string)
    ensures ReplaceChar([x], c, r) == if x == c then r else [x]
    ensures ReplaceChar([x, y], c, r) == (if x == c then r else [x]) + (if y == c then r else [y])
  {
    assert [x][1..] == "" && [x, y][1..] == [y] && [y][1..] == "";
  }

  function FormatByChar(s: string): string {
    ReplaceChar(ReplaceChar(ReplaceChar(s, '\\', "\\\\"), '\n', "\\n"), '"', "\\\"")
  }

  lemma {:induction false} FormatByCharIsEscape(s: string)
    ensures FormatByChar(s) == Escape(s)
  {
    if s != "" {
      FormatByCharIsEscape(s[1..]);
      var c, rest := s[0], s[1..];
      var a := if c == '\\' then "\\\\" else [c];
      var rest1 := ReplaceChar(rest, '\\', "\\\\");
      ReplaceJoin(a, rest1, '\n', "\\n");
      ReplaceTwo('\\', '\\', '\n', "\\n");
      ReplaceTwo(c, c, '\n', "\\n");
      var b := ReplaceChar(a, '\n', "\\n");
      ReplaceJoin(b, ReplaceChar(rest1, '\n', "\\n"), '"', "\\\"");
      ReplaceTwo('\\', '\\', '"', "\\\"");
      ReplaceTwo('\\', 'n', '"', "\\\"");
      ReplaceTwo(c, c, '"', "\\\"");
      assert FormatByChar(s) == ReplaceChar(b, '"', "\\\"") + FormatByChar(rest);
    }
  }

  /** The three ordered replacements are one per-character escape. */
  lemma ThreeReplacesAreOneEscape(s: string)
    ensures FormatValue(s) == Escape(s)
  {
    var s1 := ReplaceChar(s, '\\', "\\\\");
    ReplaceIsPerChar(s, '\\', "\\\\");
    ReplaceIsPerChar(s1, '\n', "\\n");
    ReplaceIsPerChar(ReplaceChar(s1, '\n', "\\n"), '"', "\\\"");
    FormatByCharIsEscape(s);
  }

  lemma {:induction false} UnescapeUndoesEscape(s: string)
    ensures Unescape(Escape(s)) == s
  {
    if s != "" {
      var e := Escape(s);
      UnescapeUndoesEscape(s[1..]);
      assert e == EscapeChar(s[0]) + Escape(s[1..]);
      if |EscapeChar(s[0])| == 2 { assert e[2..] == Escape(s[1..]); } else { assert e[1..] == Escape(s[1..]); }
    }
  }

  /** No value breaks the line it is written on: what is written holds no newline. */
  lemma {:induction false} ValuesStayOnTheirLine(s: string)
    ensures '\n' !in FormatValue(s)
  {
    ThreeReplacesAreOneEscape(s);
    hide FormatValue;
    if s != "" {
      ValuesStayOnTheirLine(s[1..]);
      ThreeReplacesAreOneEscape(s[1..]);
      assert '\n' !in EscapeChar(s[0]);
    }
  }

  // --- keys and rendering ---------------------------------------------------------------------------

  function FormatAll(labels: Dict): Dict {
    if labels == [] then [] else [(labels[0].0, FormatValue(labels[0].1))] + FormatAll(labels[1..])
  }

  /** `_labels_to_key`. */
  function Key(labels: Dict): Dict { Sort(FormatAll(labels)) }

  function Item(p: Pair): string { p.0 + "=\"" + p.1 + "\"" }

  function Pairs(key: Dict): string {
    if key == [] then ""
    else if |key| == 1 then Item(key[0])
    else Item(key[0]) + "," + Pairs(key[1..])
  }

  /** `_labels_to_inline`. */
  function Inline(key: Dict): string { if key == [] then "" else "{" + Pairs(key) + "}" }

  // --- the parser --------------------------------------------------------------------------------------

  /** A quoted value up to its closing quote, an escaped character never closing it. */
  function QuotedValue(s: string): Option<(string, string)> {
    if s == "" then None
    else if s[0] == '"' then Some(("", s[1..]))
    else
      var n := if s[0] == '\\' && |s| > 1 then 2 else 1;
      match QuotedValue(s[n..])
      case None => None
      case Some(p) => Some((s[..n] + p.0, p.1))
  }

  lemma {:induction false} QuotedShortens(s: string)
    ensures QuotedValue(s).Some? ==> |QuotedValue(s).value.1| < |s|
    decreases |s|
  {
    if s != "" { QuotedShortens(s[if s[0] == '\\' && |s| > 1 then 2 else 1..]); }
  }

  /** A name up to the first `="`, dropping that. */
  function NameUntil(s: string): Option<(string, string)> {
    if |s| < 2 then None
    else if s[0] == '=' && s[1] == '"' then Some(("", s[2..]))
    else
      match NameUntil(s[1..])
      case None => None
      case Some(p) => Some(([s[0]] + p.0, p.1))
  }

  lemma {:induction false} NameShortens(s: string)
    ensures NameUntil(s).Some? ==> |NameUntil(s).value.1| < |s|
  {
    if |s| >= 2 { NameShortens(s[1..]); }
  }

  function ParsePairs(s: string): Option<Dict>
    decreases |s|
  {
    NameShortens(s);
    match NameUntil(s)
    case None => None
    case Some((name, rest)) =>
      QuotedShortens(rest);
      match QuotedValue(rest)
      case None => None
      case Some((value, after)) =>
        if after == "}" then Some([(name, Unescape(value))])
        else if after == "" || after[0] != ',' then None
        else
          match ParsePairs(after[1..])
          case None => None
          case Some(more) => Some([(name, Unescape(value))] + more)
  }

  function Parse(s: string): Option<Dict> {
    if s == "" then Some([]) else if s[0] != '{' then None else ParsePairs(s[1..])
  }

  // --- parsing undoes rendering ---------------------------------------------------------------------------

  lemma {:induction false} QuotedFinds(v: string, b: string)
    ensures QuotedValue(Escape(v) + "\"" + b) == Some((Escape(v), b))
  {
    hide QuotedValue, EscapeChar;
    if v == "" {
      QuotedEnds(b);
      assert "" + "\"" + b == "\"" + b;
    } else {
      var e, rest := EscapeChar(v[0]), Escape(v[1..]);
      QuotedFinds(v[1..], b);
      QuotedSteps(v[0], rest + "\"" + b);
      Associate(e, rest, "\"");
      Associate(e, rest + "\"", b);
    }
  }

  lemma QuotedEnds(b: string)
    ensures QuotedValue("\"" + b) == Some(("", b))
  {
    assert ("\"" + b)[1..] == b;
  }

  lemma QuotedSteps(c: char, t: string)
    requires QuotedValue(t).Some?
    ensures QuotedValue(EscapeChar(c) + t) == Some((EscapeChar(c) + QuotedValue(t).value.0, QuotedValue(t).value.1))
  {
    var e := EscapeChar(c);
    assert (e + t)[|e|..] == t && (e + t)[..|e|] == e;
  }

  /** Holds an equals sign followed by a quote. */
  predicate Marked(s: string) { |s| >= 2 && ((s[0] == '=' && s[1] == '"') || Marked(s[1..])) }

  /** No label name holds an equals sign followed by a quote; no valid label name does. */
  ghost predicate Named(labels: Dict) { forall i :: 0 <= i < |labels| ==> !Marked(labels[i].0) }

  lemma {:induction false} NameFinds(a: string, b: string)
    requires !Marked(a)
    ensures NameUntil(a + "=\"" + b) == Some((a, b))
  {
    var s := a + "=\"" + b;
    if a == "" {
      assert s[2..] == b;
    } else {
      NameFinds(a[1..], b);
      assert s[1..] == a[1..] + "=\"" + b && s[0] == a[0];
      assert s[1] == if |a| > 1 then a[1] else '=';
      assert a == [a[0]] + a[1..];
    }
  }

  lemma {:induction false} NameIsClean(s: string)
    ensures NameUntil(s).Some? ==> !Marked(NameUntil(s).value.0)
    ensures NameUntil(s).Some? && NameUntil(s).value.0 != "" ==> NameUntil(s).value.0[0] == s[0]
  {
    if |s| >= 2 && !(s[0] == '=' && s[1] == '"') {
      NameIsClean(s[1..]);
      if NameUntil(s[1..]).Some? {
        var p := NameUntil(s[1..]).value.0;
        assert ([s[0]] + p)[1..] == p;
      }
    }
  }

  lemma FormatAllIs(labels: Dict, i: nat)
    requires i < |labels|
    ensures |FormatAll(labels)| == |labels| && FormatAll(labels)[i] == (labels[i].0, Escape(labels[i].1))
  {
    ThreeReplacesAreOneEscape(labels[0].1);
    if i > 0 { FormatAllIs(labels[1..], i - 1); } else if |labels| > 1 { FormatAllIs(labels[1..], 0); }
  }

  /** One pair is read back, and the parser goes on behind its comma. */
  lemma ParseOne(name: string, value: string, tail: string)
    requires !Marked(name)
    ensures ParsePairs(Item((name, Escape(value))) + tail) ==
            if tail == "}" then Some([(name, value)])
            else if tail == "" || tail[0] != ',' then None
            else match ParsePairs(tail[1..])
                 case None => None
                 case Some(more) => Some([(name, value)] + more)
  {
    var rest := Escape(value) + "\"" + tail;
    assert Item((name, Escape(value))) + tail == name + "=\"" + rest;
    NameFinds(name, rest);
    QuotedFinds(value, tail);
    UnescapeUndoesEscape(value);
  }

  function Tail(labels: Dict): string
    requires labels != []
  {
    if |labels| == 1 then "}" else "," + (Pairs(FormatAll(labels[1..])) + "}")
  }

  lemma Reassociate(a: string, b: string, c: string, d: string)
    ensures a + b + c + d == a + (b + (c + d))
  {
  }

  lemma PairsUnfold(labels: Dict)
    requires labels != []
    ensures Pairs(FormatAll(labels)) + "}" == Item((labels[0].0, Escape(labels[0].1))) + Tail(labels)
  {
    hide Item, Escape, FormatValue;
    FormatAllIs(labels, 0);
    var key := FormatAll(labels);
    assert key[1..] == FormatAll(labels[1..]);
    Reassociate(Item(key[0]), ",", Pairs(key[1..]), "}");
  }

  lemma {:induction false} ParsePairsUndoes(labels: Dict)
    requires labels != [] && Named(labels)
    ensures ParsePairs(Pairs(FormatAll(labels)) + "}") == Some(labels)
  {
    hide ParsePairs, Pairs, FormatAll, Escape, Item;
    PairsUnfold(labels);
    ParseOne(labels[0].0, labels[0].1, Tail(labels));
    assert [(labels[0].0, labels[0].1)] + labels[1..] == labels;
    var tail := Tail(labels);
    if |labels| == 1 {
      assert tail == "}" && labels == [(labels[0].0, labels[0].1)];
    } else {
      ParsePairsUndoes(labels[1..]);
      assert tail[0] == ',' && tail != "}" && tail[1..] == Pairs(FormatAll(labels[1..])) + "}";
    }
  }

  lemma {:induction false} ParsedNamesAreClean(s: string)
    ensures ParsePairs(s).Some? ==> Named(ParsePairs(s).value)
    decreases |s|
  {
    NameShortens(s);
    NameIsClean(s);
    if NameUntil(s).Some? {
      var rest := NameUntil(s).value.1;
      QuotedShortens(rest);
      if QuotedValue(rest).Some? {
        var after := QuotedValue(rest).value.1;
        if after != "" { ParsedNamesAreClean(after[1..]); }
      }
    }
  }

  /** Rendering a list of labels and parsing it gives back exactly those labels, whatever quotes,
    * backslashes, newlines, commas or braces the values hold, if and only if no label name holds an
    * equals sign followed by a quote: `UnvalidatedNamesCollide` shows that such a name can stand for a
    * whole pair. */
  lemma ParseUndoesInline(labels: Dict)
    ensures Parse(Inline(FormatAll(labels))) == Some(labels) <==> Named(labels)
  {
    if labels != [] {
      FormatAllIs(labels, 0);
      var text := Pairs(FormatAll(labels)) + "}";
      assert Inline(FormatAll(labels))[1..] == text;
      ParsedNamesAreClean(text);
      if Named(labels) { ParsePairsUndoes(labels); }
    }
  }

  // --- sorting and formatting commute --------------------------------------------------------------------

  lemma {:induction false} InsertFormats(p: Pair, d: Dict)
    ensures Insert((p.0, FormatValue(p.1)), FormatAll(d)) == FormatAll(Insert(p, d))
  {
    if d != [] {
      InsertFormats(p, d[1..]);
      assert FormatAll(d)[1..] == FormatAll(d[1..]);
      var e := [d[0]] + Insert(p, d[1..]);
      assert e[1..] == Insert(p, d[1..]);
      assert ([p] + d)[1..] == d;
    } else {
      assert [p][1..] == [];
    }
  }

  lemma {:induction false} KeyIsSortedFormat(labels: Dict)
    ensures Key(labels) == FormatAll(Sort(labels))
  {
    if labels != [] {
      KeyIsSortedFormat(labels[1..]);
      assert FormatAll(labels)[1..] == FormatAll(labels[1..]);
      InsertFormats(labels[0], Sort(labels[1..]));
    }
  }

  lemma NamedSorted(labels: Dict)
    requires IsDict(labels) && Named(labels)
    ensures Named(Sort(labels))
  {
    SortHasTheSame(labels);
    forall i | 0 <= i < |Sort(labels)| ensures !Marked(Sort(labels)[i].0) {
      assert Sort(labels)[i] in labels;
    }
  }

  /** The parser recovers the label map from a rendered key. */
  lemma ParseRecoversTheLabels(labels: Dict)
    requires IsDict(labels) && Named(labels)
    ensures Parse(Inline(Key(labels))).Some? && MapOf(Parse(Inline(Key(labels))).value) == MapOf(labels)
  {
    KeyIsSortedFormat(labels);
    NamedSorted(labels);
    ParseUndoesInline(Sort(labels));
    SortKeepsMap(labels);
  }

  lemma {:induction false} FormatAllIsInjective(a: Dict, b: Dict)
    requires FormatAll(a) == FormatAll(b)
    ensures a == b
  {
    if a != [] && b != [] {
      FormatAllIs(a, 0);
      FormatAllIs(b, 0);
      UnescapeUndoesEscape(a[0].1);
      UnescapeUndoesEscape(b[0].1);
      assert FormatAll(a)[1..] == FormatAll(a[1..]) && FormatAll(b)[1..] == FormatAll(b[1..]);
      FormatAllIsInjective(a[1..], b[1..]);
      assert a == [a[0]] + a[1..] && b == [b[0]] + b[1..];
    }
  }

  /** Two samples of a metric share a key exactly when their rendered labels are equal as maps, whatever
    * the names and values are. */
  lemma KeysAgreeIffLabelsEqual(a: Dict, b: Dict)
    requires IsDict(a) && IsDict(b)
    ensures Key(a) == Key(b) <==> MapOf(a) == MapOf(b)
  {
    KeyIsSortedFormat(a);
    KeyIsSortedFormat(b);
    SortIsCanonical(a, b);
    if Key(a) == Key(b) { FormatAllIsInjective(Sort(a), Sort(b)); }
  }

  /** Label values of any kind, each rendered by `str`. */
  function Rendered<V>(labels: seq<(string, V)>, str: V -> string): (r: Dict)
    ensures |r| == |labels| && forall i :: 0 <= i < |r| ==> r[i] == (labels[i].0, str(labels[i].1))
  {
    if labels == [] then [] else [(labels[0].0, str(labels[0].1))] + Rendered(labels[1..], str)
  }

  ghost predicate OneEach<V>(labels: seq<(string, V)>) {
    forall i, k :: 0 <= i < k < |labels| ==> labels[i].0 != labels[k].0
  }

  /** Every label of the one has a namesake in the other that `str` renders alike. */
  ghost predicate Within<V>(a: seq<(string, V)>, b: seq<(string, V)>, str: V -> string) {
    forall i :: 0 <= i < |a| ==> exists k :: 0 <= k < |b| && b[k].0 == a[i].0 && str(b[k].1) == str(a[i].1)
  }

  /** So two label dictionaries with values of any kind share a series if and only if they name the same
    * labels and `str` renders the values of each alike: 1 and "1" are one value. */
  lemma SeriesAreSharedIff<V>(a: seq<(string, V)>, b: seq<(string, V)>, str: V -> string)
    requires OneEach(a) && OneEach(b)
    ensures Key(Rendered(a, str)) == Key(Rendered(b, str)) <==> Within(a, b, str) && Within(b, a, str)
  {
    hide Key, MapOf;
    var ra, rb := Rendered(a, str), Rendered(b, str);
    KeysAgreeIffLabelsEqual(ra, rb);
    if MapOf(ra) == MapOf(rb) {
      SameMapWithin(a, b, str);
      SameMapWithin(b, a, str);
    }
    if Within(a, b, str) && Within(b, a, str) {
      forall k: string
        ensures k in MapOf(ra) <==> k in MapOf(rb)
        ensures k in MapOf(ra) && k in MapOf(rb) ==> MapOf(ra)[k] == MapOf(rb)[k]
      {
        WithinLooksUp(a, b, str, k);
        WithinLooksUp(b, a, str, k);
      }
    }
  }

  lemma SameMapWithin<V>(a: seq<(string, V)>, b: seq<(string, V)>, str: V -> string)
    requires OneEach(a) && OneEach(b) && MapOf(Rendered(a, str)) == MapOf(Rendered(b, str))
    ensures Within(a, b, str)
  {
    hide MapOf;
    var ra, rb := Rendered(a, str), Rendered(b, str);
    forall i | 0 <= i < |a| ensures exists k :: 0 <= k < |b| && b[k].0 == a[i].0 && str(b[k].1) == str(a[i].1) {
      assert ra[i].0 == a[i].0;
      MapOfHas(ra, a[i].0);
      MapOfHas(rb, a[i].0);
      var k :| 0 <= k < |rb| && rb[k].0 == a[i].0;
      assert b[k].0 == a[i].0;
    }
  }

  lemma WithinLooksUp<V>(a: seq<(string, V)>, b: seq<(string, V)>, str: V -> string, name: string)
    requires OneEach(a) && OneEach(b) && Within(a, b, str)
    ensures var ma, mb := MapOf(Rendered(a, str)), MapOf(Rendered(b, str));
            name in ma ==> name in mb && ma[name] == mb[name]
  {
    hide MapOf;
    var ra, rb := Rendered(a, str), Rendered(b, str);
    MapOfHas(ra, name);
    MapOfHas(rb, name);
    if name in MapOf(ra) {
      var i :| 0 <= i < |ra| && ra[i].0 == name;
      assert a[i].0 == name;
      var k :| 0 <= k < |b| && b[k].0 == a[i].0 && str(b[k].1) == str(a[i].1);
      assert rb[k].0 == name;
    }
  }

  /** Two samples of a metric render alike exactly when their labels are equal. */
  lemma SamplesCollideIffLabelsEqual(a: Dict, b: Dict)
    requires IsDict(a) && IsDict(b) && Named(a) && Named(b)
    ensures Inline(Key(a)) == Inline(Key(b)) <==> MapOf(a) == MapOf(b)
  {
    ParseRecoversTheLabels(a);
    ParseRecoversTheLabels(b);
    KeysAgreeIffLabelsEqual(a, b);
  }

  lemma KeyOfOne(x: string, v: string)
    ensures FormatAll([(x, v)]) == [(x, FormatValue(v))] == Key([(x, v)])
  {
    hide FormatValue;
    assert [(x, v)][1..] == [];
    assert FormatAll([(x, v)]) == [(x, FormatValue(v))] + FormatAll([]);
    var f := [(x, FormatValue(v))];
    assert f[1..] == [];
    assert Sort(f) == Insert(f[0], Sort([]));
  }

  lemma KeyOfTwo(x: string, v: string, y: string, w: string)
    requires Less(x, y)
    ensures Key([(x, v), (y, w)]) == [(x, FormatValue(v)), (y, FormatValue(w))]
  {
    hide FormatValue;
    KeyOfOne(y, w);
    var labels, f := [(x, v), (y, w)], [(x, FormatValue(v)), (y, FormatValue(w))];
    assert labels[1..] == [(y, w)] && f[1..] == [(y, FormatValue(w))];
    assert FormatAll(labels) == f;
    assert Sort(f) == Insert(f[0], f[1..]) == f;
  }

  lemma InlineOfFew(p: Pair, q: Pair)
    ensures Inline([p]) == "{" + Item(p) + "}" && Inline([p, q]) == "{" + (Item(p) + "," + Item(q)) + "}"
  {
    hide Item;
    assert [p, q][1..] == [q];
    assert Pairs([q]) == Item(q) && Pairs([p, q]) == Item(p) + "," + Pairs([q]);
  }

  lemma Glue(i: string, y: string, f: string)
    ensures Item((i + "," + y, f)) == i + "," + Item((y, f))
  {
    var a, q := i + ",", "=\"";
    assert (a + y) + q == a + (y + q);
    Reassociate(a, y + q, f, "\"");
    assert (y + q) + (f + "\"") == ((y + q) + f) + "\"";
  }

  /** Names are not validated: one label whose name spells out a whole pair renders exactly like two
    * labels, although the dictionaries differ. */
  lemma UnvalidatedNamesCollide(x: string, v: string, y: string, w: string)
    requires Less(x, y)
    ensures var forged := Item((x, FormatValue(v))) + "," + y;
            Inline(Key([(forged, w)])) == Inline(Key([(x, v), (y, w)]))
  {
    hide *;
    var first, last := (x, FormatValue(v)), (y, FormatValue(w));
    var forged := Item(first) + "," + y;
    KeyOfOne(forged, w);
    KeyOfTwo(x, v, y, w);
    InlineOfFew((forged, FormatValue(w)), last);
    InlineOfFew(first, last);
    Glue(Item(first), y, FormatValue(w));
  }

  // --- counters and gauges --------------------------------------------------------------------------------

  /** Everything that was ever done to one metric. */
  datatype Op = Set(labels: Dict, amount: real) | Add(labels: Dict, amount: real)

  /** What the history says the series with these labels stands at. */
  ghost function Level(log: seq<Op>, labels: map<string, string>): real {
    if log == [] then 0.0
    else
      var last, before := log[|log| - 1], Level(log[..|log| - 1], labels);
      if MapOf(last.labels) != labels then before
      else if last.Set? then last.amount
      else before + last.amount
  }

  function Stored(values: map<Dict, real>, key: Dict): real { if key in values then values[key] else 0.0 }

  /** The stored value of every label dictionary is the level its label map has in the history. */
  ghost predicate Agrees(values: map<Dict, real>, log: seq<Op>) {
    forall d: Dict :: IsDict(d) ==> Stored(values, Key(d)) == Level(log, MapOf(d))
  }

  lemma AgreesAfter(values: map<Dict, real>, log: seq<Op>, op: Op)
    requires Agrees(values, log) && IsDict(op.labels)
    ensures var key := Key(op.labels);
            var now := if op.Set? then op.amount else Stored(values, key) + op.amount;
            Agrees(values[key := now], log + [op])
  {
    hide Key, MapOf, IsDict;
    var key := Key(op.labels);
    var now := if op.Set? then op.amount else Stored(values, key) + op.amount;
    assert (log + [op])[..|log|] == log;
    forall d: Dict | IsDict(d)
      ensures Stored(values[key := now], Key(d)) == Level(log + [op], MapOf(d))
    {
      KeysAgreeIffLabelsEqual(op.labels, d);
      assert Stored(values, Key(d)) == Level(log, MapOf(d));
    }
  }

  /** A counter: only grows. */
  class LabeledCounter {
    var values: map<Dict, real>
    ghost var log: seq<Op>

    ghost predicate Valid() reads this {
      Agrees(values, log) && forall i :: 0 <= i < |log| ==> log[i].Add? && log[i].amount >= 0.0
    }

    constructor ()
      ensures Valid() && log == []
    {
      values := map[];
      log := [];
    }

    method Inc(amount: real, labels: Dict) returns (ok: bool)
      requires Valid() && IsDict(labels)
      modifies this
      ensures Valid() && ok == (amount >= 0.0)
      ensures log == if ok then old(log) + [Add(labels, amount)] else old(log)
    {
      hide Key, MapOf, IsDict, Agrees;
      ok := amount >= 0.0;
      if ok {
        AgreesAfter(values, log, Add(labels, amount));
        var key := Key(labels);
        values := values[key := Stored(values, key) + amount];
        log := log + [Add(labels, amount)];
      }
    }

    method Value(labels: Dict) returns (r: real)
      requires Valid() && IsDict(labels)
      ensures r == Level(log, MapOf(labels))
    {
      r := Stored(values, Key(labels));
    }
  }

  /** A gauge: set, or moved either way. */
  class Gauge {
    var values: map<Dict, real>
    ghost var log: seq<Op>

    ghost predicate Valid() reads this { Agrees(values, log) }

    constructor ()
      ensures Valid() && log == []
    {
      values := map[];
      log := [];
    }

    method Assign(amount: real, labels: Dict)
      requires Valid() && IsDict(labels)
      modifies this
      ensures Valid() && log == old(log) + [Set(labels, amount)]
    {
      hide Key, MapOf, IsDict, Agrees;
      AgreesAfter(values, log, Set(labels, amount));
      values := values[Key(labels) := amount];
      log := log + [Set(labels, amount)];
    }

    method Inc(amount: real, labels: Dict)
      requires Valid() && IsDict(labels)
      modifies this
      ensures Valid() && log == old(log) + [Add(labels, amount)]
    {
      hide Key, MapOf, IsDict, Agrees;
      AgreesAfter(values, log, Add(labels, amount));
      var key := Key(labels);
      values := values[key := Stored(values, key) + amount];
      log := log + [Add(labels, amount)];
    }

    method Dec(amount: real, labels: Dict)
      requires Valid() && IsDict(labels)
      modifies this
      ensures Valid() && log == old(log) + [Add(labels, -amount)]
    {
      Inc(-amount, labels);
    }

    method Value(labels: Dict) returns (r: real)
      requires Valid() && IsDict(labels)
      ensures r == Level(log, MapOf(labels))
    {
      r := Stored(values, Key(labels));
    }
  }

  /** No series of a counter ever goes down, however its history grows. */
  lemma {:induction false} CountersOnlyGrow(log: seq<Op>, more: seq<Op>, labels: map<string, string>)
    requires forall i :: 0 <= i < |more| ==> more[i].Add? && more[i].amount >= 0.0
    ensures Level(log, labels) <= Level(log + more, labels)
  {
    if more == [] {
      assert log + more == log;
    } else {
      var n := |more| - 1;
      CountersOnlyGrow(log, more[..n], labels);
      assert (log + more)[..|log| + n] == log + more[..n] && (log + more)[|log| + n] == more[n];
    }
  }
}
