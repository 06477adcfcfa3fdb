/** Scanning: detections from several detectors are reduced to spans that never overlap. */
module SaibScan {
  datatype Entity = Entity(kind: string, start: nat, end: nat)

  // --- scanning ------------------------------------------------------------------------------------

  ghost predicate Within(text: string, es: seq<Entity>) {
    forall k :: 0 <= k < |es| ==> es[k].start < es[k].end <= |text|
  }

  ghost predicate Apart(es: seq<Entity>) { forall j, k :: 0 <= j < k < |es| ==> es[j].end <= es[k].start }

  /** Spans inside the text, in order, none overlapping. */
  ghost predicate Spans(text: string, es: seq<Entity>) { Within(text, es) && Apart(es) }

  ghost predicate Covered(e: Entity, kept: seq<Entity>) {
    exists k :: 0 <= k < |kept| && kept[k].start <= e.start < kept[k].end
  }

  /** By start, the longest first. */
  ghost predicate Sorted(es: seq<Entity>) {
    forall j, k :: 0 <= j <= k < |es| ==>
      es[j].start < es[k].start || (es[j].start == es[k].start && es[j].end >= es[k].end)
  }

  ghost predicate Deduped(text: string, sorted: seq<Entity>, kept: seq<Entity>) {
    Spans(text, kept) && AllCovered(sorted, kept) && AllFrom(kept, sorted) && AllLongest(sorted, kept)
  }

  /** Of the detections with one start only the longest is kept. */
  ghost predicate AllLongest(sorted: seq<Entity>, kept: seq<Entity>) {
    forall i, k :: 0 <= i < |sorted| && 0 <= k < |kept| && sorted[i].start == kept[k].start ==>
        sorted[i].end <= kept[k].end
  }

  ghost predicate AllCovered(sorted: seq<Entity>, kept: seq<Entity>) {
    forall i :: 0 <= i < |sorted| ==> Covered(sorted[i], kept)
  }

  ghost predicate AllFrom(kept: seq<Entity>, sorted: seq<Entity>) {
    forall k :: 0 <= k < |kept| ==> kept[k] in sorted
  }

  /** The overlap rule of `scan`: what is kept was detected, never overlaps and is the longest with its
    * start, and what is dropped starts inside something kept. */
  method Dedupe(text: string, sorted: seq<Entity>) returns (kept: seq<Entity>)
    requires Within(text, sorted) && Sorted(sorted)
    ensures Deduped(text, sorted, kept)
  {
    hide Deduped;
    kept := [];
    var lastEnd: int := -1;
    NothingDeduped(text);
    for i := 0 to |sorted|
      invariant Deduped(text, sorted[..i], kept)
      invariant lastEnd == if kept == [] then -1 else kept[|kept| - 1].end
      invariant kept == [] ==> i == 0
      invariant kept != [] ==> i > 0 && kept[|kept| - 1].start <= sorted[i - 1].start
    {
      SortedPrefix(sorted, i);
      assert sorted[..i + 1] == sorted[..i] + [sorted[i]];
      if sorted[i].start >= lastEnd {
        Keep(text, sorted[..i], kept, sorted[i]);
        kept := kept + [sorted[i]];
        lastEnd := sorted[i].end;
      } else {
        Drop(text, sorted[..i], kept, sorted[i]);
      }
    }
    assert sorted[..|sorted|] == sorted;
  }

  lemma SortedPrefix(sorted: seq<Entity>, i: nat)
    requires Sorted(sorted) && i < |sorted|
    ensures Sorted(sorted[..i] + [sorted[i]])
  {
    assert sorted[..i] + [sorted[i]] == sorted[..i + 1];
  }

  lemma NothingDeduped(text: string)
    ensures Deduped(text, [], [])
  {
  }

  lemma Keep(text: string, sorted: seq<Entity>, kept: seq<Entity>, x: Entity)
    requires Deduped(text, sorted, kept) && x.start < x.end <= |text|
    requires Sorted(sorted + [x]) && (kept == [] || kept[|kept| - 1].end <= x.start)
    ensures Deduped(text, sorted + [x], kept + [x])
  {
    hide Spans, AllCovered, AllFrom, AllLongest, Sorted;
    StillLongest(sorted, kept, x);
    FirstWithItsStart(text, sorted, kept, x);
    LongestSnoc(sorted + [x], kept, x);
    SpansSnoc(text, kept, x);
    CoveredSnoc(sorted, kept, x);
    FromSnoc(kept, sorted, x);
  }

  lemma SpansSnoc(text: string, kept: seq<Entity>, x: Entity)
    requires Spans(text, kept) && x.start < x.end <= |text|
    requires kept == [] || kept[|kept| - 1].end <= x.start
    ensures Spans(text, kept + [x])
  {
    forall k | 0 <= k < |kept| ensures kept[k].end <= x.start {
      if k < |kept| - 1 { assert kept[k].end <= kept[|kept| - 1].start; }
    }
  }

  lemma CoveredSnoc(sorted: seq<Entity>, kept: seq<Entity>, x: Entity)
    requires AllCovered(sorted, kept) && x.start < x.end
    ensures AllCovered(sorted + [x], kept + [x])
  {
    var more := kept + [x];
    assert more[|kept|] == x;
    forall i | 0 <= i < |sorted| + 1 ensures Covered((sorted + [x])[i], more) {
      if i < |sorted| {
        assert Covered(sorted[i], kept);
        var k :| 0 <= k < |kept| && kept[k].start <= sorted[i].start < kept[k].end;
        assert more[k] == kept[k];
      }
    }
  }

  lemma FromSnoc(kept: seq<Entity>, sorted: seq<Entity>, x: Entity)
    requires AllFrom(kept, sorted)
    ensures AllFrom(kept + [x], sorted + [x])
  {
    forall k | 0 <= k < |kept| + 1 ensures (kept + [x])[k] in sorted + [x] {
      if k < |kept| {
        assert kept[k] in sorted;
      } else {
        assert (sorted + [x])[|sorted|] == x;
      }
    }
  }

  lemma Drop(text: string, sorted: seq<Entity>, kept: seq<Entity>, x: Entity)
    requires Deduped(text, sorted, kept) && Sorted(sorted + [x])
    requires kept != [] && kept[|kept| - 1].start <= x.start < kept[|kept| - 1].end
    ensures Deduped(text, sorted + [x], kept)
  {
    hide Spans, AllFrom, AllLongest, Sorted;
    StillLongest(sorted, kept, x);
    assert Covered(x, kept);
    FromMore(kept, sorted, x);
  }

  /** A detection behind all others is no longer than one kept with its start. */
  lemma StillLongest(sorted: seq<Entity>, kept: seq<Entity>, x: Entity)
    requires AllLongest(sorted, kept) && AllFrom(kept, sorted) && Sorted(sorted + [x])
    ensures AllLongest(sorted + [x], kept)
  {
    forall k | 0 <= k < |kept| && x.start == kept[k].start ensures x.end <= kept[k].end {
      assert kept[k] in sorted;
      var m :| 0 <= m < |sorted| && sorted[m] == kept[k];
      assert (sorted + [x])[m] == kept[k] && (sorted + [x])[|sorted|] == x;
    }
  }

  /** A detection behind everything kept is the first with its start. */
  lemma FirstWithItsStart(text: string, sorted: seq<Entity>, kept: seq<Entity>, x: Entity)
    requires Spans(text, kept) && AllCovered(sorted, kept) && (kept == [] || kept[|kept| - 1].end <= x.start)
    ensures forall i :: 0 <= i < |sorted| ==> sorted[i].start != x.start
  {
    forall i | 0 <= i < |sorted| ensures sorted[i].start != x.start {
      assert Covered(sorted[i], kept);
      var k :| 0 <= k < |kept| && kept[k].start <= sorted[i].start < kept[k].end;
      if k < |kept| - 1 { assert kept[k].end <= kept[|kept| - 1].start; }
    }
  }

  lemma LongestSnoc(sorted: seq<Entity>, kept: seq<Entity>, x: Entity)
    requires AllLongest(sorted, kept)
    requires |sorted| > 0 && sorted[|sorted| - 1] == x && forall i :: 0 <= i < |sorted| - 1 ==>
               sorted[i].start != x.start
    ensures AllLongest(sorted, kept + [x])
  {
  }

  lemma FromMore(kept: seq<Entity>, sorted: seq<Entity>, x: Entity)
    requires AllFrom(kept, sorted)
    ensures AllFrom(kept, sorted + [x])
  {
  }

  // --- what is masked ---------------------------------------------------------------------------------

  /** This position lies in a kept span. */
  ghost predicate Hidden(x: int, kept: seq<Entity>) { exists k :: 0 <= k < |kept| && kept[k].start <= x < kept[k].end }

  ghost predicate AllHidden(e: Entity, kept: seq<Entity>) { forall x :: e.start <= x < e.end ==> Hidden(x, kept) }

  /** Where the unbroken run of kept spans from the k-th on ends. */
  function RunEnd(kept: seq<Entity>, k: nat): nat
    requires k < |kept|
    decreases |kept| - k
  {
    if k + 1 < |kept| && kept[k + 1].start == kept[k].end then RunEnd(kept, k + 1) else kept[k].end
  }

  lemma {:induction false} RunIsHidden(text: string, kept: seq<Entity>, k: nat, x: int)
    requires Spans(text, kept) && k < |kept| && kept[k].start <= x < RunEnd(kept, k)
    ensures Hidden(x, kept)
    decreases |kept| - k
  {
    if x >= kept[k].end { RunIsHidden(text, kept, k + 1, x); }
  }

  lemma {:induction false} RunEndIsBare(text: string, kept: seq<Entity>, k: nat)
    requires Spans(text, kept) && k < |kept|
    ensures kept[k].end <= RunEnd(kept, k) && !Hidden(RunEnd(kept, k), kept)
    decreases |kept| - k
  {
    if k + 1 < |kept| && kept[k + 1].start == kept[k].end {
      RunEndIsBare(text, kept, k + 1);
    } else {
      forall m | 0 <= m < |kept| ensures !(kept[m].start <= kept[k].end < kept[m].end) {
        if m < k { assert kept[m].end <= kept[k].start; }
        if m > k + 1 { assert kept[k + 1].end <= kept[m].start; }
      }
    }
  }

  /** A detection that starts in a kept span is masked throughout if and only if it ends no later than
    * the unbroken run of kept spans that begins there. */
  lemma HiddenIff(text: string, kept: seq<Entity>, e: Entity, k: nat)
    requires Spans(text, kept) && k < |kept| && kept[k].start <= e.start < kept[k].end
    ensures AllHidden(e, kept) <==> e.end <= RunEnd(kept, k)
  {
    RunEndIsBare(text, kept, k);
    if e.end <= RunEnd(kept, k) {
      forall x | e.start <= x < e.end ensures Hidden(x, kept) { RunIsHidden(text, kept, k, x); }
    }
  }

  /** The run of kept spans that this detection starts in does not end before it. */
  ghost predicate InRun(e: Entity, kept: seq<Entity>) {
    forall k :: 0 <= k < |kept| && kept[k].start <= e.start < kept[k].end ==> e.end <= RunEnd(kept, k)
  }

  lemma HiddenIffInRun(text: string, kept: seq<Entity>, e: Entity)
    requires Spans(text, kept) && Covered(e, kept)
    ensures AllHidden(e, kept) <==> InRun(e, kept)
  {
    hide AllHidden, Spans, RunEnd;
    forall k | 0 <= k < |kept| && kept[k].start <= e.start < kept[k].end
      ensures AllHidden(e, kept) <==> e.end <= RunEnd(kept, k)
    {
      HiddenIff(text, kept, e, k);
    }
  }

  /** Everything detected is masked if and only if no detection outlasts the run of kept spans it starts
    * in. */
  lemma EverythingIsMaskedIff(text: string, sorted: seq<Entity>, kept: seq<Entity>)
    requires Deduped(text, sorted, kept)
    ensures (forall i :: 0 <= i < |sorted| ==> AllHidden(sorted[i], kept))
            <==> forall i :: 0 <= i < |sorted| ==> InRun(sorted[i], kept)
  {
    hide AllHidden, AllLongest, AllFrom, Spans, InRun, Covered;
    forall i | 0 <= i < |sorted| ensures AllHidden(sorted[i], kept) <==> InRun(sorted[i], kept) {
      HiddenIffInRun(text, kept, sorted[i]);
    }
  }

  /** It can fail: the earlier of two overlapping detections is kept even when the later one is longer,
    * and the later one's tail stays in the text. */
  lemma LongerOverlapLeaks(text: string, a: Entity, b: Entity, kept: seq<Entity>)
    requires a.start < b.start < a.end < b.end <= |text| && b.end - b.start > a.end - a.start
    requires Deduped(text, [a, b], kept)
    ensures kept == [a] && !AllHidden(b, kept)
  {
    hide AllLongest, AllCovered, AllFrom, AllHidden, Within, Apart;
    CoversFirst(a, b, kept);
    FromTwo(a, b, kept);
    OnlyOne(a, b, kept);
    assert kept == [a];
    TailIsBare(a, b);
  }

  lemma OnlyOne(a: Entity, b: Entity, kept: seq<Entity>)
    requires Apart(kept) && a.start < b.start < a.end < b.end
    requires forall m :: 0 <= m < |kept| ==> kept[m] == a || kept[m] == b
    ensures |kept| <= 1
  {
    assert |kept| > 1 ==> kept[0].end <= kept[1].start;
  }

  lemma TailIsBare(a: Entity, b: Entity)
    requires a.start < b.start < a.end < b.end
    ensures !AllHidden(b, [a])
  {
    assert !Hidden(a.end, [a]);
  }

  lemma CoversFirst(a: Entity, b: Entity, kept: seq<Entity>)
    requires AllCovered([a, b], kept)
    ensures exists k :: 0 <= k < |kept| && kept[k].start <= a.start < kept[k].end
  {
    assert Covered([a, b][0], kept);
  }

  lemma FromTwo(a: Entity, b: Entity, kept: seq<Entity>)
    requires AllFrom(kept, [a, b])
    ensures forall m :: 0 <= m < |kept| ==> kept[m] == a || kept[m] == b
  {
  }
}
