/** The fixed-window rate limiter, against the full history of one slot. */
module RateLimit {
  import opened Options

  // --- one slot ----------------------------------------------------------------------------

  datatype Window = Window(count: int, start: real)

  /** One `check` on a slot: the window afterwards, and whether the request was let in. */
  function Hit(win: Option<Window>, limit: int, width: int, now: real): (Option<Window>, bool) {
    if limit <= 0 then (win, true)
    else if win.None? || now - win.value.start >= width as real then (Some(Window(1, now)), true)
    else if win.value.count >= limit then (win, false)
    else (Some(Window(win.value.count + 1, win.value.start)), true)
  }

  /** The window after a history of check times, for one fixed limit and width. */
  function After(times: seq<real>, limit: int, width: int): Option<Window> {
    if times == [] then None
    else Hit(After(times[..|times| - 1], limit, width), limit, width, times[|times| - 1]).0
  }

  /** Whether the i-th check of a history was let in. */
  predicate Admitted(times: seq<real>, i: nat, limit: int, width: int)
    requires i < |times|
  {
    Hit(After(times[..i], limit, width), limit, width, times[i]).1
  }

  ghost predicate InOrder(times: seq<real>) { forall i, k :: 0 <= i < k < |times| ==> times[i] <= times[k] }

  /** How many checks with from <= time < upto were let in. */
  function AdmittedIn(times: seq<real>, from: real, upto: real, limit: int, width: int): nat {
    if times == [] then 0
    else
      var n := |times| - 1;
      AdmittedIn(times[..n], from, upto, limit, width)
      + if from <= times[n] < upto && Admitted(times, n, limit, width) then 1 else 0
  }

  // --- counting whole windows ----------------------------------------------------------------

  /** The number of windows of this width needed to cover a length: the ceiling of length/width,
    * zero for no length at all. */
  function Spans(length: real, width: int): nat
    requires width > 0
    decreases length
  {
    if length <= 0.0 then 0 else 1 + Spans(length - width as real, width)
  }

  lemma {:induction false} SpansGrow(a: real, b: real, width: int)
    requires width > 0 && a <= b
    ensures Spans(a, width) <= Spans(b, width)
    decreases Spans(a, width)
  {
    if a > 0.0 { SpansGrow(a - width as real, b - width as real, width); }
  }

  /** Spans is the least number of windows whose total width reaches the length. */
  lemma {:induction false} SpansIsLeast(length: real, width: int, n: nat)
    requires width > 0
    ensures Spans(length, width) <= n <==> length <= (n * width) as real
    decreases n
  {
    if length > 0.0 && n > 0 {
      SpansIsLeast(length - width as real, width, n - 1);
      assert n * width == (n - 1) * width + width;
    }
  }

  /** The number of whole windows that fit into a length: its floor. */
  function Full(length: real, width: int): nat
    requires width > 0
    decreases length
  {
    if length < width as real then 0 else 1 + Full(length - width as real, width)
  }

  lemma {:induction false} FullBelowSpans(a: real, b: real, width: int)
    requires width > 0 && 0.0 <= a < b
    ensures Full(a, width) + 1 <= Spans(b, width)
    decreases a
  {
    if a >= width as real { FullBelowSpans(a - width as real, b - width as real, width); }
  }

  lemma {:induction false} FullGrows(a: real, b: real, width: int)
    requires width > 0 && a <= b
    ensures Full(a, width) <= Full(b, width)
    decreases Full(a, width)
  {
    if a >= width as real { FullGrows(a - width as real, b - width as real, width); }
  }

  /** k full windows' worth of requests. */
  function Quota(k: nat, limit: nat): nat { if k == 0 then 0 else limit + Quota(k - 1, limit) }

  lemma {:induction false} QuotaIs(k: nat, limit: nat)
    ensures Quota(k, limit) == k * limit
  {
    if k > 0 { QuotaIs(k - 1, limit); assert k * limit == (k - 1) * limit + limit; }
  }

  lemma {:induction false} QuotaGrows(j: nat, k: nat, limit: nat)
    requires j <= k
    ensures Quota(j, limit) <= Quota(k, limit)
  {
    if j < k { QuotaGrows(j, k - 1, limit); }
  }

  // --- the bound ---------------------------------------------------------------------------------

  /** The checks let in since `from`, in terms of the window they left behind. Either every counted
    * window opened at or after `from`, or the first one opened before it, so that its opening
    * check is not counted. */
  ghost predicate Accounted(times: seq<real>, from: real, upto: real, limit: int, width: int)
    requires limit > 0 && width > 0 && times != []
  {
    var win := After(times, limit, width);
    var n := AdmittedIn(times, from, upto, limit, width);
    && win.Some? && 1 <= win.value.count <= limit
    && 0.0 <= times[|times| - 1] - win.value.start < width as real
    && (if win.value.start + width as real <= from then n == 0
        else if win.value.start < from then n <= win.value.count - 1
        else n <= win.value.count + Quota(Full(win.value.start - from, width), limit)
             || n <= win.value.count + Quota(Spans(win.value.start - from, width), limit) - 1)
  }

  lemma {:induction false} StaysAccounted(times: seq<real>, from: real, upto: real, limit: int, width: int)
    requires limit > 0 && width > 0 && times != [] && InOrder(times)
    ensures Accounted(times, from, upto, limit, width)
  {
    var n := |times| - 1;
    if n == 0 {
      assert times[..0] == [];
    } else {
      StaysAccounted(times[..n], from, upto, limit, width);
      AccountedStep(times, from, upto, limit, width);
    }
  }

  lemma AccountedStep(times: seq<real>, from: real, upto: real, limit: int, width: int)
    requires limit > 0 && width > 0 && |times| > 1 && InOrder(times)
    requires Accounted(times[..|times| - 1], from, upto, limit, width)
    ensures Accounted(times, from, upto, limit, width)
  {
    var n := |times| - 1;
    var t, win := times[n], After(times[..n], limit, width).value;
    assert times[..n][n - 1] <= t;
    if t - win.start >= width as real && win.start + width as real > from {
      SpansGrow(win.start - from, t - from - width as real, width);
      QuotaGrows(Spans(win.start - from, width) + 1, Spans(t - from, width), limit);
      if win.start >= from {
        FullGrows(win.start - from, t - from - width as real, width);
        QuotaGrows(Full(win.start - from, width) + 1, Full(t - from, width), limit);
      }
    }
  }

  lemma {:induction false} WithinQuota(times: seq<real>, from: real, upto: real, limit: int, width: int)
    requires limit > 0 && width > 0 && InOrder(times) && from < upto
    ensures AdmittedIn(times, from, upto, limit, width) <= Quota(Spans(upto - from, width) + 1, limit) - 1
  {
    if times != [] {
      var n := |times| - 1;
      WithinQuota(times[..n], from, upto, limit, width);
      if from <= times[n] < upto {
        StaysAccounted(times, from, upto, limit, width);
        var win := After(times, limit, width).value;
        SpansGrow(win.start - from, upto - from, width);
        QuotaGrows(Spans(win.start - from, width), Spans(upto - from, width), limit);
        if win.start >= from {
          FullBelowSpans(win.start - from, upto - from, width);
          QuotaGrows(Full(win.start - from, width) + 1, Spans(upto - from, width), limit);
        }
      }
    }
  }

  /** Every half-open interval lets in fewer than (ceil(T/W) + 1) * L requests of a slot. */
  lemma FewerThanWindowsTimesLimit(times: seq<real>, from: real, upto: real, limit: int, width: int)
    requires limit > 0 && width > 0 && InOrder(times) && from < upto
    ensures AdmittedIn(times, from, upto, limit, width) <= (Spans(upto - from, width) + 1) * limit - 1
  {
    QuotaIs(Spans(upto - from, width) + 1, limit);
    WithinQuota(times, from, upto, limit, width);
  }

  /** In particular an interval as long as the window lets in at most 2L - 1 requests... */
  lemma FewerThanTwiceTheLimit(times: seq<real>, from: real, limit: int, width: int)
    requires limit > 0 && width > 0 && InOrder(times)
    ensures AdmittedIn(times, from, from + width as real, limit, width) <= 2 * limit - 1
  {
    FewerThanWindowsTimesLimit(times, from, from + width as real, limit, width);
    assert Spans(width as real, width) == 1 + Spans(0.0, width);
  }

  /** n more checks at one moment. */
  function Burst(times: seq<real>, t: real, n: nat): seq<real> {
    if n == 0 then times else Burst(times, t, n - 1) + [t]
  }

  lemma OneMore(times: seq<real>, t: real, from: real, upto: real, limit: int, width: int)
    ensures var hit := Hit(After(times, limit, width), limit, width, t);
            After(times + [t], limit, width) == hit.0
            && AdmittedIn(times + [t], from, upto, limit, width)
               == AdmittedIn(times, from, upto, limit, width) + if from <= t < upto && hit.1 then 1 else 0
  {
    hide Hit;
    assert (times + [t])[..|times|] == times;
  }

  /** A burst that fits into the open window is let in whole. */
  lemma {:induction false} BurstFits(times: seq<real>, t: real, n: nat, from: real, upto: real, limit: int, width: int)
    requires limit > 0 && from <= t < upto
    requires var w := After(times, limit, width);
             w.Some? && t - w.value.start < width as real && w.value.count + n <= limit
    ensures var w, w' := After(times, limit, width).value, After(Burst(times, t, n), limit, width);
            w' == Some(Window(w.count + n, w.start))
    ensures AdmittedIn(Burst(times, t, n), from, upto, limit, width) == AdmittedIn(times, from, upto, limit, width) + n
  {
    hide After, AdmittedIn;
    if n > 0 {
      BurstFits(times, t, n - 1, from, upto, limit, width);
      OneMore(Burst(times, t, n - 1), t, from, upto, limit, width);
    }
  }

  /** One check at time zero and L - 1 more late in its window; then L at each of the n next openings. */
  function Pulses(late: real, n: nat, limit: nat, width: int): seq<real>
    requires limit > 0
  {
    if n == 0 then Burst([0.0], late, limit - 1)
    else Burst(Pulses(late, n - 1, limit, width) + [Opening(n, width)], Opening(n, width), limit - 1)
  }

  /** The n-th opening after time zero. */
  function Opening(n: nat, width: int): real { if n == 0 then 0.0 else Opening(n - 1, width) + width as real }

  lemma FirstCheck(limit: int, width: int, from: real, upto: real)
    requires limit > 0 && 0.0 < from
    ensures After([0.0], limit, width) == Some(Window(1, 0.0)) && AdmittedIn([0.0], from, upto, limit, width) == 0
  {
    OneMore([], 0.0, from, upto, limit, width);
    assert [] + [0.0] == [0.0];
  }

  /** Every check but the first is let in, and all but the first fall behind `late`. */
  lemma {:induction false} PulsesFit(late: real, n: nat, limit: int, width: int, upto: real)
    requires limit > 0 && 0.0 < late < width as real && late < upto && Opening(n, width) < upto
    ensures After(Pulses(late, n, limit, width), limit, width) == Some(Window(limit, Opening(n, width)))
    ensures AdmittedIn(Pulses(late, n, limit, width), late, upto, limit, width) == Quota(n + 1, limit) - 1
    ensures n > 0 ==> late < Opening(n, width)
  {
    hide After, AdmittedIn, Burst;
    if n == 0 {
      FirstCheck(limit, width, late, upto);
      BurstFits([0.0], late, limit - 1, late, upto, limit, width);
      assert Quota(1, limit) == limit + Quota(0, limit);
    } else {
      PulsesFit(late, n - 1, limit, width, upto);
      var before, open := Pulses(late, n - 1, limit, width), Opening(n, width);
      OneMore(before, open, late, upto, limit, width);
      BurstFits(before + [open], open, limit - 1, late, upto, limit, width);
      assert Quota(n + 1, limit) == limit + Quota(n, limit);
    }
  }

  lemma {:induction false} BurstInOrder(times: seq<real>, t: real, n: nat)
    requires InOrder(times) && forall i :: 0 <= i < |times| ==> times[i] <= t
    ensures InOrder(Burst(times, t, n)) && forall i :: 0 <= i < |Burst(times, t, n)| ==> Burst(times, t, n)[i] <= t
  {
    if n > 0 { BurstInOrder(times, t, n - 1); }
  }

  lemma {:induction false} PulsesInOrder(late: real, n: nat, limit: nat, width: int)
    requires limit > 0 && 0.0 < late < width as real
    ensures var times := Pulses(late, n, limit, width);
            InOrder(times) && forall i :: 0 <= i < |times| ==> times[i] < Opening(n + 1, width)
  {
    hide Burst;
    assert Opening(n + 1, width) == Opening(n, width) + width as real;
    if n == 0 {
      BurstInOrder([0.0], late, limit - 1);
    } else {
      PulsesInOrder(late, n - 1, limit, width);
      var open := Opening(n, width);
      BurstInOrder(Pulses(late, n - 1, limit, width) + [open], open, limit - 1);
    }
  }

  /** The openings that cover a length end less than a window behind it. */
  lemma {:induction false} OpeningsCover(length: real, width: int)
    requires width > 0 && -(width as real) < length
    ensures Opening(Spans(length, width), width) < length + width as real
    decreases Spans(length, width)
  {
    if length > 0.0 { OpeningsCover(length - width as real, width); }
  }

  /** ...and the bound is met for every positive length, limit and width: some orderly history lets in
    * exactly (ceil(T/W) + 1) * L - 1 requests within an interval of length T. */
  lemma TheBoundIsMet(length: real, limit: int, width: int) returns (times: seq<real>, from: real)
    requires limit > 0 && width > 0 && length > 0.0
    ensures InOrder(times)
    ensures AdmittedIn(times, from, from + length, limit, width) == (Spans(length, width) + 1) * limit - 1
  {
    hide After, AdmittedIn, InOrder, Pulses, Opening, Spans, Quota;
    var n := Spans(length, width);
    OpeningsCover(length, width);
    var low := Opening(n, width) - length;
    from := if low > 0.0 then (low + width as real) / 2.0 else width as real / 2.0;
    times := Pulses(from, n, limit, width);
    PulsesFit(from, n, limit, width, from + length);
    PulsesInOrder(from, n, limit, width);
    QuotaIs(n + 1, limit);
  }

  /** A check at or after the end of the window is let in, whatever came before. */
  lemma EndOfWindowAdmits(times: seq<real>, limit: int, width: int)
    requires times != []
    requires var win := After(times[..|times| - 1], limit, width);
             win.Some? ==> times[|times| - 1] >= win.value.start + width as real
    ensures Admitted(times, |times| - 1, limit, width)
  {}

  /** The window counts requests let in since it opened. */
  lemma {:induction false} WindowCounts(times: seq<real>, upto: real, limit: int, width: int)
    requires limit > 0 && times != [] && InOrder(times) && times[|times| - 1] < upto
    ensures var win := After(times, limit, width);
            win.Some? && win.value.start <= times[|times| - 1]
            && win.value.count <= AdmittedIn(times, win.value.start, upto, limit, width)
  {
    var n := |times| - 1;
    if n == 0 {
      assert times[..0] == [];
    } else {
      WindowCounts(times[..n], upto, limit, width);
    }
  }

  /** A check is refused only when a whole limit of requests was let in less than a window ago. */
  lemma RefusedMeansFull(times: seq<real>, upto: real, limit: int, width: int) returns (from: real)
    requires times != [] && InOrder(times) && times[|times| - 1] < upto
    requires !Admitted(times, |times| - 1, limit, width)
    ensures var n := |times| - 1;
            0 < limit <= AdmittedIn(times[..n], from, upto, limit, width)
            && times[n] - width as real < from <= times[n]
  {
    var n := |times| - 1;
    assert times[..0] == [] && Hit(None, limit, width, times[0]).1;
    WindowCounts(times[..n], upto, limit, width);
    from := After(times[..n], limit, width).value.start;
  }

  // --- slots ------------------------------------------------------------------------------------------

  function Slot(bucket: string, key: string): string { bucket + ":" + key }

  /** Buckets without a colon never share a slot: the first colon ends the bucket name. */
  lemma SlotsAreDistinct(b: string, k: string, b': string, k': string)
    requires ':' !in b && ':' !in b' && Slot(b, k) == Slot(b', k')
    ensures b == b' && k == k'
  {
    var s := Slot(b, k);
    assert s[|b|] == ':' && s[|b'|] == ':';
    assert forall i :: 0 <= i < |b| ==> s[i] == b[i] != ':';
    assert forall i :: 0 <= i < |b'| ==> s[i] == b'[i] != ':';
    assert b == s[..|b|] && b' == s[..|b'|];
    assert k == s[|b| + 1..] && k' == s[|b'| + 1..];
  }

  /** A bucket name with a colon does share one of its slots with another bucket. */
  lemma ColonSharesASlot(b: string, i: nat)
    requires i < |b| && b[i] == ':'
    ensures Slot(b, "") == Slot(b[..i], b[i + 1..] + ":") && b[..i] != b
  {
    assert b == b[..i] + ":" + b[i + 1..];
  }

  // --- the limiter ------------------------------------------------------------------------------------

  datatype Request = Request(slot: string, limit: int, width: int, now: real)

  /** The window of a slot after a log of checks on all slots. */
  function Fold(log: seq<Request>, slot: string): Option<Window> {
    if log == [] then None
    else
      var c := log[|log| - 1];
      var win := Fold(log[..|log| - 1], slot);
      if c.slot == slot then Hit(win, c.limit, c.width, c.now).0 else win
  }

  class RateLimiter {
    var windows: map<string, Window>
    ghost var log: seq<Request>

    /** The table holds exactly the windows its whole history gives. */
    ghost predicate Valid()
      reads this
    {
      forall slot :: Fold(log, slot) == if slot in windows then Some(windows[slot]) else None
    }

    constructor ()
      ensures Valid() && log == []
    {
      windows, log := map[], [];
    }

    /** Whatever else it was asked, the limiter has let in fewer than (ceil(T/W) + 1) * L requests of a slot
      * within any interval of length T, for a slot always asked with one limit and width and on a clock that
      * never ran back between its checks. */
    lemma BoundHolds(slot: string, limit: int, width: int, from: real, upto: real)
      requires Valid() && limit > 0 && width > 0 && from < upto
      requires Fixed(log, slot, limit, width) && InOrder(TimesOf(log, slot))
      ensures LetIn(log, slot, from, upto) <= (Spans(upto - from, width) + 1) * limit - 1
    {
      LetInIsAdmitted(log, slot, limit, width, from, upto);
      FewerThanWindowsTimesLimit(TimesOf(log, slot), from, upto, limit, width);
    }

    method Check(bucket: string, key: string, limit: int, width: int, now: real) returns (allowed: bool)
      requires Valid()
      modifies this
      ensures Valid() && log == old(log) + [Request(Slot(bucket, key), limit, width, now)]
      ensures allowed == Hit(Fold(old(log), Slot(bucket, key)), limit, width, now).1
      ensures limit <= 0 ==> allowed && windows == old(windows)
      ensures forall from, upto | from <= now < upto ::
                LetIn(log, Slot(bucket, key), from, upto)
                == LetIn(old(log), Slot(bucket, key), from, upto) + if allowed then 1 else 0
    {
      var slot := Slot(bucket, key);
      log := log + [Request(slot, limit, width, now)];
      assert log[..|log| - 1] == old(log);
      if limit <= 0 { return true; }
      if slot !in windows || now - windows[slot].start >= width as real {
        windows := windows[slot := Window(1, now)];
        return true;
      }
      if windows[slot].count >= limit { return false; }
      windows := windows[slot := windows[slot].(count := windows[slot].count + 1)];
      allowed := true;
    }

    method Reset()
      modifies this
      ensures Valid() && log == []
    {
      windows, log := map[], [];
    }

    method CurrentCount(bucket: string, key: string) returns (n: int)
      requires Valid()
      ensures n == match Fold(log, Slot(bucket, key)) case None => 0 case Some(w) => w.count
    {
      var slot := Slot(bucket, key);
      n := if slot in windows then windows[slot].count else 0;
    }
  }

  /** The times of one slot's checks in a log. */
  function TimesOf(log: seq<Request>, slot: string): seq<real> {
    if log == [] then []
    else
      var c := log[|log| - 1];
      TimesOf(log[..|log| - 1], slot) + if c.slot == slot then [c.now] else []
  }

  /** Slots do not interfere: with a fixed limit and width, a slot behaves as if it were alone. */
  lemma {:induction false} SlotsAreIndependent(log: seq<Request>, slot: string, limit: int, width: int)
    requires Fixed(log, slot, limit, width)
    ensures Fold(log, slot) == After(TimesOf(log, slot), limit, width)
  {
    if log != [] {
      var n := |log| - 1;
      SlotsAreIndependent(log[..n], slot, limit, width);
      assert log[n] in log;
      if log[n].slot == slot {
        assert TimesOf(log, slot)[..|TimesOf(log, slot)| - 1] == TimesOf(log[..n], slot);
      } else {
        assert TimesOf(log, slot) == TimesOf(log[..n], slot);
      }
    }
  }

  /** How many checks of a slot with from <= time < upto were let in. */
  function LetIn(log: seq<Request>, slot: string, from: real, upto: real): nat {
    if log == [] then 0
    else
      var n := |log| - 1;
      LetIn(log[..n], slot, from, upto) + if Counts(log, n, slot, from, upto) then 1 else 0
  }

  predicate Counts(log: seq<Request>, i: nat, slot: string, from: real, upto: real)
    requires i < |log|
  {
    var c := log[i];
    c.slot == slot && from <= c.now < upto && Hit(Fold(log[..i], slot), c.limit, c.width, c.now).1
  }

  ghost predicate Fixed(log: seq<Request>, slot: string, limit: int, width: int) {
    forall c :: c in log && c.slot == slot ==> c.limit == limit && c.width == width
  }

  lemma {:induction false} LetInIsAdmitted(log: seq<Request>, slot: string, limit: int, width: int,
          from: real, upto: real)
    requires Fixed(log, slot, limit, width)
    ensures LetIn(log, slot, from, upto) == AdmittedIn(TimesOf(log, slot), from, upto, limit, width)
  {
    hide Hit, Fold, After;
    if log != [] {
      var n := |log| - 1;
      LetInIsAdmitted(log[..n], slot, limit, width, from, upto);
      SlotsAreIndependent(log[..n], slot, limit, width);
      assert log[n] in log;
      var times := TimesOf(log[..n], slot);
      if log[n].slot == slot {
        OneMore(times, log[n].now, from, upto, limit, width);
      } else {
        assert TimesOf(log, slot) == times;
      }
    }
  }
}
