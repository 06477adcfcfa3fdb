/** Per-customer budgets: lazy window rollover against the ledger of every recorded cost, and how
  * far calls in flight can carry a customer past a cap. Money is real-valued. */
module Budget {
  import opened Options

  // --- calendar windows ---------------------------------------------------------------------

  /** A UTC day; its key is the day itself, its month's key the year and month. */
  datatype Day = Day(year: int, month: int, day: int)

  function Month(d: Day): (int, int) { (d.year, d.month) }

  predicate NotAfter(a: Day, b: Day) {
    a.year < b.year || (a.year == b.year && (a.month < b.month || (a.month == b.month && a.day <= b.day)))
  }

  // --- one customer's entry --------------------------------------------------------------------

  /** The stored tuple: day key and its spend, month key and its spend. */
  datatype Entry = Entry(day: Day, daily: real, month: (int, int), monthly: real)

  function Floor0(usd: real): real { if usd < 0.0 then 0.0 else usd }

  /** `_bucket_for`: the spend of the current windows. */
  function Bucket(e: Option<Entry>, now: Day): (real, real) {
    if e.None? then (0.0, 0.0)
    else (if e.value.day != now then 0.0 else e.value.daily,
          if e.value.month != Month(now) then 0.0 else e.value.monthly)
  }

  /** The accumulator part of `record_cost`. */
  function Accrue(e: Option<Entry>, now: Day, usd: real): Entry {
    var b := Bucket(e, now);
    Entry(now, b.0 + Floor0(usd), Month(now), b.1 + Floor0(usd))
  }

  // --- the ledger ----------------------------------------------------------------------------------

  datatype Cost = Cost(customer: string, at: Day, usd: real)

  ghost predicate InOrder(ledger: seq<Cost>) {
    forall i, k :: 0 <= i < k < |ledger| ==> NotAfter(ledger[i].at, ledger[k].at)
  }

  /** All recorded costs of a customer on one day, negative ones counting as zero. */
  function SpentOn(ledger: seq<Cost>, customer: string, day: Day): real {
    if ledger == [] then 0.0
    else
      var c := ledger[|ledger| - 1];
      SpentOn(ledger[..|ledger| - 1], customer, day)
      + if c.customer == customer && c.at == day then Floor0(c.usd) else 0.0
  }

  /** All recorded costs of a customer in one month. */
  function SpentIn(ledger: seq<Cost>, customer: string, month: (int, int)): real {
    if ledger == [] then 0.0
    else
      var c := ledger[|ledger| - 1];
      SpentIn(ledger[..|ledger| - 1], customer, month)
      + if c.customer == customer && Month(c.at) == month then Floor0(c.usd) else 0.0
  }

  /** What the tracker stores for a customer after a ledger. */
  function Fold(ledger: seq<Cost>, customer: string): Option<Entry> {
    if ledger == [] then None
    else
      var c := ledger[|ledger| - 1];
      var e := Fold(ledger[..|ledger| - 1], customer);
      if c.customer == customer then Some(Accrue(e, c.at, c.usd)) else e
  }

  /** No cost of the customer is later than a day. */
  ghost predicate UpTo(ledger: seq<Cost>, customer: string, day: Day) {
    forall i :: 0 <= i < |ledger| && ledger[i].customer == customer ==> NotAfter(ledger[i].at, day)
  }

  /** A customer whose costs end on one day has none in a later day or month. */
  lemma {:induction false} NothingLater(ledger: seq<Cost>, customer: string, last: Day, now: Day)
    requires UpTo(ledger, customer, last) && NotAfter(last, now)
    ensures last != now ==> SpentOn(ledger, customer, now) == 0.0
    ensures Month(last) != Month(now) ==> SpentIn(ledger, customer, Month(now)) == 0.0
  {
    if ledger != [] { NothingLater(ledger[..|ledger| - 1], customer, last, now); }
  }

  /** The stored entry is dated by the customer's last cost and holds the sums of its day and month. */
  ghost predicate Tallies(e: Option<Entry>, ledger: seq<Cost>, customer: string) {
    match e
    case None => forall i :: 0 <= i < |ledger| ==> ledger[i].customer != customer
    case Some(e) =>
      && UpTo(ledger, customer, e.day) && e.month == Month(e.day)
      && (exists i :: 0 <= i < |ledger| && ledger[i].at == e.day)
      && e.daily == SpentOn(ledger, customer, e.day) && e.monthly == SpentIn(ledger, customer, e.month)
  }

  lemma {:induction false} NothingSpent(ledger: seq<Cost>, customer: string, now: Day)
    requires forall i :: 0 <= i < |ledger| ==> ledger[i].customer != customer
    ensures SpentOn(ledger, customer, now) == 0.0 && SpentIn(ledger, customer, Month(now)) == 0.0
  {
    if ledger != [] { NothingSpent(ledger[..|ledger| - 1], customer, now); }
  }

  /** An entry that tallies answers for any day not before its own. */
  lemma BucketIsExact(e: Option<Entry>, ledger: seq<Cost>, customer: string, now: Day)
    requires Tallies(e, ledger, customer) && (e.Some? ==> NotAfter(e.value.day, now))
    ensures Bucket(e, now) == (SpentOn(ledger, customer, now), SpentIn(ledger, customer, Month(now)))
  {
    if e.None? { NothingSpent(ledger, customer, now); } else { NothingLater(ledger, customer, e.value.day, now); }
  }

  lemma {:induction false} FoldTallies(ledger: seq<Cost>, customer: string)
    requires InOrder(ledger)
    ensures Tallies(Fold(ledger, customer), ledger, customer)
  {
    if ledger != [] {
      var n := |ledger| - 1;
      FoldTallies(ledger[..n], customer);
      var e := Fold(ledger[..n], customer);
      if e.Some? {
        var i :| 0 <= i < n && ledger[..n][i].at == e.value.day;
        assert ledger[i].at == e.value.day && NotAfter(ledger[i].at, ledger[n].at);
      }
      if ledger[n].customer == customer { BucketIsExact(e, ledger[..n], customer, ledger[n].at); }
    }
  }

  /** With the clock running forward, the stored entry reports exactly the sums of the current day
    * and month: rolling over lazily loses nothing and keeps nothing stale. */
  lemma LazyRolloverIsExact(ledger: seq<Cost>, customer: string, now: Day)
    requires InOrder(ledger) && forall c :: c in ledger ==> NotAfter(c.at, now)
    ensures Bucket(Fold(ledger, customer), now)
            == (SpentOn(ledger, customer, now), SpentIn(ledger, customer, Month(now)))
  {
    FoldTallies(ledger, customer);
    BucketIsExact(Fold(ledger, customer), ledger, customer, now);
  }

  /** If the clock steps back a day in between, the cost already recorded today is forgotten. */
  lemma ClockStepBackForgets(customer: string)
    ensures var today, yesterday := Day(2026, 1, 2), Day(2026, 1, 1);
            var ledger := [Cost(customer, today, 1.0), Cost(customer, yesterday, 1.0)];
            Bucket(Fold(ledger, customer), today).0 == 0.0 && SpentOn(ledger, customer, today) == 1.0
  {
    var today, yesterday := Day(2026, 1, 2), Day(2026, 1, 1);
    var a, b := Cost(customer, today, 1.0), Cost(customer, yesterday, 1.0);
    assert [a, b][..1] == [a] && [a][..0] == [];
    assert Fold([a], customer) == Some(Entry(today, 1.0, (2026, 1), 1.0));
    assert SpentOn([a], customer, today) == 1.0;
  }

  // --- levels -----------------------------------------------------------------------------------------

  datatype Cap = Cap(daily: real, monthly: real)
  datatype Level = OK | WARN | EXHAUSTED

  function Share(spent: real, cap: real): real { if cap > 0.0 then spent / cap else 0.0 }

  function LevelOf(daily: real, monthly: real, cap: Cap): Level {
    var d, m := Share(daily, cap.daily), Share(monthly, cap.monthly);
    if (cap.daily > 0.0 && d >= 1.0) || (cap.monthly > 0.0 && m >= 1.0) then EXHAUSTED
    else if (cap.daily > 0.0 && d >= 0.8) || (cap.monthly > 0.0 && m >= 0.8) then WARN
    else OK
  }

  lemma ShareReaches(spent: real, cap: real, part: real)
    requires cap > 0.0
    ensures Share(spent, cap) >= part <==> spent >= part * cap
  {
    var q := spent / cap;
    assert q * cap == spent;
    if q >= part { TimesCap(part, q, cap); } else { TimesCapStrict(q, part, cap); }
  }

  lemma TimesCap(a: real, b: real, cap: real)
    requires a <= b && cap > 0.0
    ensures a * cap <= b * cap
  {}

  lemma TimesCapStrict(a: real, b: real, cap: real)
    requires a < b && cap > 0.0
    ensures a * cap < b * cap
  {}

  /** A positive cap is exhausted when it is reached and warns at four fifths of it; a cap of zero
    * or less, not only -1, never trips anything. */
  lemma LevelMeans(daily: real, monthly: real, cap: Cap)
    ensures LevelOf(daily, monthly, cap) == EXHAUSTED
            <==> (cap.daily > 0.0 && daily >= cap.daily) || (cap.monthly > 0.0 && monthly >= cap.monthly)
    ensures LevelOf(daily, monthly, cap) == OK
            <==> (cap.daily > 0.0 ==> daily < 0.8 * cap.daily) && (cap.monthly > 0.0 ==> monthly < 0.8 * cap.monthly)
  {
    if cap.daily > 0.0 { ShareReaches(daily, cap.daily, 1.0); ShareReaches(daily, cap.daily, 0.8); }
    if cap.monthly > 0.0 { ShareReaches(monthly, cap.monthly, 1.0); ShareReaches(monthly, cap.monthly, 0.8); }
  }

  // --- calls in flight --------------------------------------------------------------------------------------

  /** One customer of the gateway: `complete` is admitted by the budget check, and later records its
    * cost or drops out without one. */
  datatype Flow = Flow(entry: Option<Entry>, today: Day, inFlight: nat)
  datatype Step = Check | Record(usd: real) | Dropped | NewDay(day: Day)

  function Next(f: Flow, step: Step, cap: Cap): Flow {
    match step
    case Check =>
      var b := Bucket(f.entry, f.today);
      if LevelOf(b.0, b.1, cap) == EXHAUSTED then f else f.(inFlight := f.inFlight + 1)
    case Record(usd) =>
      if f.inFlight == 0 then f
      else f.(entry := Some(Accrue(f.entry, f.today, usd)), inFlight := f.inFlight - 1)
    case Dropped => if f.inFlight == 0 then f else f.(inFlight := f.inFlight - 1)
    case NewDay(day) => f.(today := day)
  }

  /** At most n calls in flight, each costing at most c, on a clock that runs forward. */
  predicate Allowed(f: Flow, step: Step, n: nat, c: real) {
    match step
    case Check => f.inFlight < n
    case Record(usd) => usd <= c
    case Dropped => true
    case NewDay(day) => NotAfter(f.today, day)
  }

  function Run(start: Day, steps: seq<Step>, cap: Cap): Flow {
    if steps == [] then Flow(None, start, 0) else Next(Run(start, steps[..|steps| - 1], cap), steps[|steps| - 1], cap)
  }

  predicate AllAllowed(start: Day, steps: seq<Step>, cap: Cap, n: nat, c: real) {
    forall i :: 0 <= i < |steps| ==> Allowed(Run(start, steps[..i], cap), steps[i], n, c)
  }

  /** k calls at the greatest cost. */
  function Worst(k: nat, c: real): real { if k == 0 then 0.0 else c + Worst(k - 1, c) }

  lemma {:induction false} WorstIs(k: nat, c: real)
    ensures Worst(k, c) == k as real * c
  {
    if k > 0 { WorstIs(k - 1, c); PlusOne((k - 1) as real, c); }
  }

  lemma PlusOne(a: real, c: real)
    ensures (a + 1.0) * c == a * c + c
  {}

  lemma {:induction false} WorstGrows(j: nat, k: nat, c: real)
    requires j <= k && c >= 0.0
    ensures 0.0 <= Worst(j, c) <= Worst(k, c)
  {
    if j < k { WorstGrows(j, k - 1, c); } else if j > 0 { WorstGrows(j - 1, k - 1, c); }
  }

  /** What is spent plus what is in flight stays below the cap plus n calls. */
  ghost predicate Within(f: Flow, cap: Cap, n: nat, c: real) {
    var b := Bucket(f.entry, f.today);
    && (f.entry.Some? ==> NotAfter(f.entry.value.day, f.today) && f.entry.value.month == Month(f.entry.value.day))
    && (cap.daily > 0.0 ==> b.0 + Worst(f.inFlight, c) < cap.daily + Worst(n, c))
    && (cap.monthly > 0.0 ==> b.1 + Worst(f.inFlight, c) < cap.monthly + Worst(n, c))
  }

  lemma StepStaysWithin(f: Flow, step: Step, cap: Cap, n: nat, c: real)
    requires Within(f, cap, n, c) && c >= 0.0 && f.inFlight <= n && Allowed(f, step, n, c)
    ensures Within(Next(f, step, cap), cap, n, c) && Next(f, step, cap).inFlight <= n
  {
    var b := Bucket(f.entry, f.today);
    LevelMeans(b.0, b.1, cap);
    WorstGrows(f.inFlight, n, c);
    if f.inFlight < n { WorstGrows(f.inFlight + 1, n, c); }
  }

  /** Under a positive cap, recorded spend stays below the cap plus n calls of cost c in every state
    * of every run, whatever is admitted, dropped or recorded and however the days roll over. */
  lemma {:induction false} OvershootIsBounded(start: Day, steps: seq<Step>, cap: Cap, n: nat, c: real)
    requires c >= 0.0 && AllAllowed(start, steps, cap, n, c)
    ensures var f := Run(start, steps, cap);
            var b := Bucket(f.entry, f.today);
            && Within(f, cap, n, c) && f.inFlight <= n
            && (cap.daily > 0.0 ==> b.0 < cap.daily + n as real * c)
            && (cap.monthly > 0.0 ==> b.1 < cap.monthly + n as real * c)
  {
    WorstIs(n, c);
    if steps == [] {
      WorstGrows(0, n, c);
    } else {
      var m := |steps| - 1;
      assert forall i :: 0 <= i < m ==> steps[..m][..i] == steps[..i];
      OvershootIsBounded(start, steps[..m], cap, n, c);
      StepStaysWithin(Run(start, steps[..m], cap), steps[m], cap, n, c);
      WorstGrows(0, Run(start, steps, cap).inFlight, c);
    }
  }

  /** k steps of one kind. */
  function Times(f: Flow, step: Step, cap: Cap, k: nat): Flow {
    if k == 0 then f else Next(Times(f, step, cap, k - 1), step, cap)
  }

  /** The bound is met as closely as the spend at admission allows: n calls admitted below the cap
    * all record their full cost. */
  lemma OvershootHappens(f: Flow, cap: Cap, n: nat, c: real)
    requires f.inFlight == 0 && c >= 0.0
    requires var b := Bucket(f.entry, f.today); LevelOf(b.0, b.1, cap) != EXHAUSTED
    ensures var f' := Times(Times(f, Check, cap, n), Record(c), cap, n);
            && Bucket(f'.entry, f'.today).0 == Bucket(f.entry, f.today).0 + n as real * c
            && Bucket(f'.entry, f'.today).1 == Bucket(f.entry, f.today).1 + n as real * c
            && f'.inFlight == 0
  {
    AdmitAll(f, cap, n);
    RecordAll(Times(f, Check, cap, n), cap, n, c);
    WorstIs(n, c);
  }

  /** A new day lets a customer in again unless the month's cap is reached: nothing is spent on it yet. */
  lemma NewDayAdmits(f: Flow, day: Day, cap: Cap)
    requires f.entry.Some? ==> f.entry.value.day != day
    ensures var f' := Next(f, NewDay(day), cap);
            var spent := if f.entry.Some? && f.entry.value.month == Month(day) then f.entry.value.monthly else 0.0;
            Next(f', Check, cap).inFlight == f.inFlight + 1 <==> !(cap.monthly > 0.0 && spent >= cap.monthly)
  {
    var b := Bucket(f.entry, day);
    LevelMeans(b.0, b.1, cap);
  }

  /** Calls that drop out cost nothing and leave no one in flight. */
  lemma DroppedCostNothing(f: Flow, cap: Cap, n: nat)
    requires var b := Bucket(f.entry, f.today); LevelOf(b.0, b.1, cap) != EXHAUSTED
    ensures Times(Times(f, Check, cap, n), Dropped, cap, n) == f
  {
    AdmitAll(f, cap, n);
    DropAll(f.(inFlight := f.inFlight + n), cap, n);
  }

  lemma {:induction false} DropAll(f: Flow, cap: Cap, n: nat)
    requires n <= f.inFlight
    ensures Times(f, Dropped, cap, n) == f.(inFlight := f.inFlight - n)
  {
    if n > 0 { DropAll(f, cap, n - 1); }
  }

  lemma {:induction false} AdmitAll(f: Flow, cap: Cap, n: nat)
    requires var b := Bucket(f.entry, f.today); LevelOf(b.0, b.1, cap) != EXHAUSTED
    ensures Times(f, Check, cap, n) == f.(inFlight := f.inFlight + n)
  {
    if n > 0 { AdmitAll(f, cap, n - 1); }
  }

  lemma {:induction false} RecordAll(f: Flow, cap: Cap, n: nat, c: real)
    requires n <= f.inFlight && c >= 0.0
    ensures var f' := Times(f, Record(c), cap, n);
            f'.inFlight == f.inFlight - n && f'.today == f.today
            && Bucket(f'.entry, f'.today).0 == Bucket(f.entry, f.today).0 + Worst(n, c)
            && Bucket(f'.entry, f'.today).1 == Bucket(f.entry, f.today).1 + Worst(n, c)
  {
    if n > 0 { RecordAll(f, cap, n - 1, c); }
  }
}
