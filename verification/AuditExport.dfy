/** The tamper-evident audit export: a pager that stops early on newest-first lists, newline-delimited
  * lines, and a keyed digest fed line by line. The keyed digest (HMAC, section 2 of RFC 2104) is
  * symbolic: two tags are equal exactly when secret and body are. */
module AuditExport {
  import opened Options
  import opened Strings

  datatype Record = Record(id: int, created: Option<int>)
  datatype Range = Range(since: Option<int>, until: Option<int>)
  datatype Entry = Entry(kind: string, record: Record)

  // --- the date window ---------------------------------------------------------------------------

  predicate Below(r: Record, w: Range) { w.since.Some? && r.created.Some? && r.created.value < w.since.value }

  predicate Above(r: Record, w: Range) { w.until.Some? && r.created.Some? && r.created.value > w.until.value }

  predicate Inside(r: Record, w: Range) { !Below(r, w) && !Above(r, w) }

  /** The plain filter: what an auditor expects. */
  function Filter(all: seq<Record>, w: Range): seq<Record> {
    if all == [] then []
    else (if Inside(all[0], w) then [all[0]] else []) + Filter(all[1..], w)
  }

  /** The scan that stops at the first record below the window. */
  function Early(all: seq<Record>, w: Range): seq<Record> {
    if all == [] || Below(all[0], w) then []
    else (if Above(all[0], w) then [] else [all[0]]) + Early(all[1..], w)
  }

  /** A record is inside the window unless its timestamp is before the start or after the end; both ends are
    * inside, and so is a record without a timestamp. */
  lemma InsideIff(r: Record, w: Range)
    ensures Inside(r, w) <==> match r.created
                              case None => true
                              case Some(t) => (w.since.Some? ==> w.since.value <= t)
                                              && (w.until.Some? ==> t <= w.until.value)
    ensures Below(r, w) <==> w.since.Some? && r.created.Some? && !(w.since.value <= r.created.value)
  {}

  lemma FilterHas(all: seq<Record>, w: Range, i: nat)
    requires i < |all| && Inside(all[i], w)
    ensures all[i] in Filter(all, w)
  {
    if i > 0 { FilterHas(all[1..], w, i - 1); }
  }

  lemma {:induction false} FilterEmptyIff(all: seq<Record>, w: Range)
    ensures Filter(all, w) == [] <==> forall i :: 0 <= i < |all| ==> !Inside(all[i], w)
  {
    if all != [] {
      FilterEmptyIff(all[1..], w);
      if forall i :: 0 <= i < |all| ==> !Inside(all[i], w) {
        forall i | 0 <= i < |all[1..]| ensures !Inside(all[1..][i], w) { assert all[1..][i] == all[i + 1]; }
      } else if !Inside(all[0], w) {
        var i :| 0 <= i < |all| && Inside(all[i], w);
        assert all[1..][i - 1] == all[i];
      }
    }
  }

  /** Stopping early gives the plain filter if and only if no record inside the window stands behind a
    * record below it. */
  lemma {:induction false} EarlyExitIsExactIff(all: seq<Record>, w: Range)
    ensures Early(all, w) == Filter(all, w)
            <==> forall i, k :: 0 <= i < k < |all| && Below(all[i], w) ==> !Inside(all[k], w)
  {
    if all != [] {
      var rest := all[1..];
      EarlyExitIsExactIff(rest, w);
      assert forall k :: 0 <= k < |rest| ==> rest[k] == all[k + 1];
      if Below(all[0], w) {
        FilterEmptyIff(rest, w);
        if Filter(rest, w) == [] {
          forall k | 0 < k < |all| ensures !Inside(all[k], w) { assert rest[k - 1] == all[k]; }
        } else {
          var k :| 0 <= k < |rest| && Inside(rest[k], w);
          assert Below(all[0], w) && Inside(all[k + 1], w);
        }
      } else {
        var head := if Inside(all[0], w) then [all[0]] else [];
        assert Early(all, w) == head + Early(rest, w) && Filter(all, w) == head + Filter(rest, w);
        if Early(all, w) == Filter(all, w) {
          assert Early(rest, w) == Early(all, w)[|head|..] && Filter(rest, w) == Filter(all, w)[|head|..];
          forall i, k | 0 <= i < k < |all| && Below(all[i], w) ensures !Inside(all[k], w) {
            assert rest[i - 1] == all[i] && rest[k - 1] == all[k];
          }
        } else {
          var i, k :| 0 <= i < k < |rest| && Below(rest[i], w) && Inside(rest[k], w);
          assert Below(all[i + 1], w) && Inside(all[k + 1], w);
        }
      }
    }
  }

  ghost predicate NewestFirst(all: seq<Record>) {
    forall i, k :: 0 <= i <= k < |all| ==>
        all[i].created.Some? && all[k].created.Some? && all[i].created.value >= all[k].created.value
  }

  /** Newest first with timestamps throughout is enough. */
  lemma NewestFirstIsExact(all: seq<Record>, w: Range)
    requires NewestFirst(all)
    ensures Early(all, w) == Filter(all, w)
  {
    EarlyExitIsExactIff(all, w);
  }

  // --- pages ------------------------------------------------------------------------------------------

  function Min(a: nat, b: nat): nat { if a < b then a else b }

  /** A slice that clamps its bounds to the list. */
  function Slice(all: seq<Record>, lo: nat, hi: nat): seq<Record> {
    if lo <= Min(hi, |all|) then all[lo..Min(hi, |all|)] else []
  }

  /** Limit and offset over the whole list. */
  function Page(all: seq<Record>, limit: nat, offset: nat): seq<Record> { Slice(all, offset, offset + limit) }

  /** Asking for the first limit + offset records and re-slicing the answer is a true page. */
  lemma ReslicingIsAPage(all: seq<Record>, limit: nat, offset: nat)
    ensures Slice(Slice(all, 0, limit + offset), offset, offset + limit) == Page(all, limit, offset)
  {
    var head := Slice(all, 0, limit + offset);
    assert head == all[..Min(limit + offset, |all|)];
  }

  datatype Source = Source(kind: string, all: seq<Record>, size: nat)

  function Emitted(s: Source, w: Range): seq<Record> { if s.size == 0 then [] else Early(s.all, w) }

  lemma EarlyAt(all: seq<Record>, n: nat, w: Range, out: seq<Record>)
    requires n <= |all|
    ensures n == |all| || Below(all[n], w) ==> out + Early(all[n..], w) == out
    ensures n < |all| && !Below(all[n], w) && Above(all[n], w) ==>
              out + Early(all[n..], w) == out + Early(all[n + 1..], w)
    ensures n < |all| && Inside(all[n], w) ==> out + Early(all[n..], w) == out + [all[n]] + Early(all[n + 1..], w)
  {
    if n < |all| {
      assert all[n..][1..] == all[n + 1..];
      var rest := Early(all[n + 1..], w);
      if Inside(all[n], w) { assert out + ([all[n]] + rest) == out + [all[n]] + rest; }
      assert [] + rest == rest;
    }
  }

  /** `iter_records`: page after page until one is short, returning at the first record below the
    * window. A page size of zero reads one empty page. */
  method IterRecords(source: Source, w: Range) returns (out: seq<Record>)
    ensures out == Emitted(source, w)
  {
    hide Early, Below, Above;
    out := [];
    var all, size, offset := source.all, source.size, 0;
    assert all[0..] == all;
    while true
      invariant offset <= |all| && (size == 0 ==> out == [])
      invariant Early(all, w) == out + Early(all[offset..], w)
      decreases |all| - offset
    {
      var page := Page(all, size, offset);
      if page == [] {
        EarlyAt(all, offset, w, out);
        return;
      }
      var i := 0;
      while i < |page|
        invariant 0 <= i <= |page|
        invariant Early(all, w) == out + Early(all[offset + i..], w)
      {
        var rec := page[i];
        EarlyAt(all, offset + i, w, out);
        if Below(rec, w) { return; }
        if !Above(rec, w) { out := out + [rec]; }
        i := i + 1;
      }
      if |page| < size {
        EarlyAt(all, offset + i, w, out);
        return;
      }
      offset := offset + size;
    }
  }

  // --- the export -----------------------------------------------------------------------------------------

  datatype Fault = SecretNotSet | SecretTooShort
  datatype Tag = Tag(secret: string, body: string)
  datatype Export = Export(body: string, signature: Tag, count: nat)
  datatype Result = Done(report: Export) | Failed(fault: Fault)

  const MIN_SECRET: nat := 32

  function Active(sources: seq<Source>, wanted: Option<set<string>>): seq<Source> {
    if sources == [] then []
    else (if wanted.None? || sources[0].kind in wanted.value then [sources[0]] else []) + Active(sources[1..], wanted)
  }

  function Tagged(kind: string, records: seq<Record>): seq<Entry> {
    if records == [] then [] else [Entry(kind, records[0])] + Tagged(kind, records[1..])
  }

  function Entries(sources: seq<Source>, w: Range): seq<Entry> {
    if sources == [] then [] else Tagged(sources[0].kind, Emitted(sources[0], w)) + Entries(sources[1..], w)
  }

  /** The body: one line per entry, each ended by a newline. */
  function Body(entries: seq<Entry>, render: Entry -> string): string {
    if entries == [] then "" else render(entries[0]) + "\n" + Body(entries[1..], render)
  }

  lemma {:induction false} BodyJoin(a: seq<Entry>, b: seq<Entry>, render: Entry -> string)
    ensures Body(a + b, render) == Body(a, render) + Body(b, render)
  {
    if a == [] {
      assert a + b == b;
    } else {
      BodyJoin(a[1..], b, render);
      assert (a + b)[0] == a[0] && (a + b)[1..] == a[1..] + b;
      Associate(render(a[0]) + "\n", Body(a[1..], render), Body(b, render));
    }
  }

  lemma {:induction false} TaggedLength(kind: string, records: seq<Record>)
    ensures |Tagged(kind, records)| == |records|
    ensures forall i :: 0 <= i < |records| ==> Tagged(kind, records)[i] == Entry(kind, records[i])
  {
    if records != [] { TaggedLength(kind, records[1..]); }
  }

  lemma {:induction false} EntriesJoin(a: seq<Source>, b: seq<Source>, w: Range)
    ensures Entries(a + b, w) == Entries(a, w) + Entries(b, w)
  {
    hide Emitted, Tagged;
    if a == [] {
      assert a + b == b;
    } else {
      EntriesJoin(a[1..], b, w);
      assert (a + b)[0] == a[0] && (a + b)[1..] == a[1..] + b;
      Associate(Tagged(a[0].kind, Emitted(a[0], w)), Entries(a[1..], w), Entries(b, w));
    }
  }

  function Concat(chunks: seq<string>): string { if chunks == [] then "" else chunks[0] + Concat(chunks[1..]) }

  lemma {:induction false} ConcatSnoc(chunks: seq<string>, last: string)
    ensures Concat(chunks + [last]) == Concat(chunks) + last
  {
    if chunks == [] {
      assert chunks + [last] == [last] && [last][1..] == [];
      assert Concat([last]) == last + Concat([]);
    } else {
      ConcatSnoc(chunks[1..], last);
      assert (chunks + [last])[1..] == chunks[1..] + [last];
    }
  }

  /** What has been written so far stands in the chunks, the digest and the count alike. */
  ghost predicate Streamed(done: seq<Entry>, chunks: seq<string>, mac: Tag, count: nat, secret: string,
          render: Entry -> string)
  {
    Concat(chunks) == Body(done, render) && mac == Tag(secret, Body(done, render)) && count == |done|
  }

  lemma OneLine(done: seq<Entry>, e: Entry, chunks: seq<string>, mac: Tag, count: nat, secret: string,
          render: Entry -> string)
    requires Streamed(done, chunks, mac, count, secret, render)
    ensures var line := render(e) + "\n";
            Streamed(done + [e], chunks + [line], mac.(body := mac.body + line), count + 1, secret, render)
  {
    ConcatSnoc(chunks, render(e) + "\n");
    BodyJoin(done, [e], render);
    assert [e][1..] == [];
    assert Body([e], render) == render(e) + "\n" + Body([], render);
  }

  lemma OneSource(active: seq<Source>, s: nat, w: Range)
    requires s < |active|
    ensures Entries(active[..s + 1], w) == Entries(active[..s], w) + Tagged(active[s].kind, Emitted(active[s], w))
  {
    hide Emitted, Tagged;
    assert active[..s + 1] == active[..s] + [active[s]] && [active[s]][1..] == [];
    EntriesJoin(active[..s], [active[s]], w);
    assert Entries([active[s]], w) == Tagged(active[s].kind, Emitted(active[s], w)) + Entries([], w);
  }

  lemma NoEntries(w: Range)
    ensures Entries([], w) == []
  {
  }

  lemma OneEntry(before: seq<Entry>, tagged: seq<Entry>, i: nat)
    requires i < |tagged|
    ensures before + tagged[..i] + [tagged[i]] == before + tagged[..i + 1]
  {
  }

  /** The two loops of `export_audit`: chunks are collected and the digest is fed the same lines one
    * at a time. */
  method Stream(active: seq<Source>, w: Range, secret: string, render: Entry -> string)
    returns (chunks: seq<string>, mac: Tag, count: nat)
    ensures Streamed(Entries(active, w), chunks, mac, count, secret, render)
  {
    hide Tagged, Entries, Emitted;
    chunks, count, mac := [], 0, Tag(secret, "");
    ghost var done: seq<Entry> := [];
    NoEntries(w);
    assert active[..0] == [];
    var s := 0;
    while s < |active|
      invariant 0 <= s <= |active| && done == Entries(active[..s], w)
      invariant Streamed(done, chunks, mac, count, secret, render)
    {
      hide Streamed;
      var kind := active[s].kind;
      var records := IterRecords(active[s], w);
      ghost var before, tagged := done, Tagged(kind, records);
      TaggedLength(kind, records);
      var i := 0;
      while i < |records|
        invariant 0 <= i <= |records| && done == before + tagged[..i]
        invariant Streamed(done, chunks, mac, count, secret, render)
      {
        var line := render(Entry(kind, records[i])) + "\n";
        OneLine(done, tagged[i], chunks, mac, count, secret, render);
        OneEntry(before, tagged, i);
        chunks, mac, count := chunks + [line], mac.(body := mac.body + line), count + 1;
        done := done + [tagged[i]];
        i := i + 1;
      }
      assert tagged[..i] == tagged;
      OneSource(active, s, w);
      s := s + 1;
    }
    assert active[..s] == active;
  }

  /** `export_audit`. */
  method ExportAudit(env: Option<string>, w: Range, wanted: Option<set<string>>, sources: seq<Source>,
          render: Entry -> string)
    returns (r: Result)
    ensures env == None || env.value == "" ==> r == Failed(SecretNotSet)
    ensures env != None && 0 < |env.value| < 32 ==> r == Failed(SecretTooShort)
    ensures env != None && |env.value| >= 32 ==> r.Done?
    ensures r.Done? ==> env != None && r.report.body == Body(Entries(Active(sources, wanted), w), render)
    ensures r.Done? ==> r.report.signature == Tag(env.value, r.report.body)
    ensures r.Done? ==> r.report.count == |Entries(Active(sources, wanted), w)|
  {
    hide Entries, Active, Body, Concat;
    if env == None || env.value == "" { return Failed(SecretNotSet); }
    if |env.value| < MIN_SECRET { return Failed(SecretTooShort); }
    var chunks, mac, count := Stream(Active(sources, wanted), w, env.value, render);
    r := Done(Export(Concat(chunks), mac, count));
  }

  predicate VerifySignature(body: string, signature: Tag, secret: string) { Tag(secret, body) == signature }

  // --- what the auditor gets ---------------------------------------------------------------------------------

  /** The lines of a text whose every line is ended by a newline. */
  function Lines(s: string, line: string): seq<string>
    decreases |s|
  {
    if s == "" then []
    else if s[0] == '\n' then [line] + Lines(s[1..], "")
    else Lines(s[1..], line + [s[0]])
  }

  lemma {:induction false} LinesRead(text: string, rest: string, line: string)
    requires '\n' !in text
    ensures Lines(text + "\n" + rest, line) == [line + text] + Lines(rest, "")
  {
    var s := text + "\n" + rest;
    if text == "" {
      assert s[1..] == rest && line + text == line;
    } else {
      LinesRead(text[1..], rest, line + [text[0]]);
      assert s[1..] == text[1..] + "\n" + rest;
      assert line + [text[0]] + text[1..] == line + text;
    }
  }

  function Rendered(entries: seq<Entry>, render: Entry -> string): seq<string> {
    if entries == [] then [] else [render(entries[0])] + Rendered(entries[1..], render)
  }

  /** One record per line: splitting the body gives back every rendered entry, in order. */
  lemma {:induction false} BodySplitsIntoLines(entries: seq<Entry>, render: Entry -> string)
    requires forall e :: '\n' !in render(e)
    ensures Lines(Body(entries, render), "") == Rendered(entries, render)
  {
    if entries != [] {
      BodySplitsIntoLines(entries[1..], render);
      LinesRead(render(entries[0]), Body(entries[1..], render), "");
      assert "" + render(entries[0]) == render(entries[0]);
    }
  }

  /** What the export promises: the filtered records of every wanted source, source by source. */
  function Promised(sources: seq<Source>, wanted: Option<set<string>>, w: Range): seq<Entry> {
    if sources == [] then []
    else
      (if wanted.None? || sources[0].kind in wanted.value
       then Tagged(sources[0].kind, Filter(sources[0].all, w)) else [])
      + Promised(sources[1..], wanted, w)
  }

  lemma EmittedIsFiltered(s: Source, w: Range)
    requires s.size >= 1 && NewestFirst(s.all)
    ensures Emitted(s, w) == Filter(s.all, w)
  {
    NewestFirstIsExact(s.all, w);
  }

  lemma {:induction false} EntriesArePromised(sources: seq<Source>, wanted: Option<set<string>>, w: Range)
    requires forall i :: 0 <= i < |sources| ==> sources[i].size >= 1 && NewestFirst(sources[i].all)
    ensures Entries(Active(sources, wanted), w) == Promised(sources, wanted, w)
  {
    hide Emitted, Filter, Tagged, NewestFirst;
    if sources != [] {
      EntriesArePromised(sources[1..], wanted, w);
      EmittedIsFiltered(sources[0], w);
      var rest := Active(sources[1..], wanted);
      assert ([sources[0]] + rest)[1..] == rest && [] + rest == rest;
    }
  }

  /** End to end: from newest-first sources read in pages of at least one, the exported body, split
    * into lines, is exactly the wanted records inside the window, and its signature accepts that
    * body and no other. */
  method ExportForAuditor(secret: string, w: Range, wanted: Option<set<string>>, sources: seq<Source>,
          render: Entry -> string)
    returns (body: string, signature: Tag, count: nat)
    requires |secret| >= 32 && forall e :: '\n' !in render(e)
    requires forall i :: 0 <= i < |sources| ==> sources[i].size >= 1 && NewestFirst(sources[i].all)
    ensures Lines(body, "") == Rendered(Promised(sources, wanted, w), render)
    ensures count == |Promised(sources, wanted, w)|
    ensures forall other :: VerifySignature(other, signature, secret) <==> other == body
    ensures forall key :: VerifySignature(body, signature, key) <==> key == secret
  {
    var r := ExportAudit(Some(secret), w, wanted, sources, render);
    EntriesArePromised(sources, wanted, w);
    BodySplitsIntoLines(Promised(sources, wanted, w), render);
    return r.report.body, r.report.signature, r.report.count;
  }
}
