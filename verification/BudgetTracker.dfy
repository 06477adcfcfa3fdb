/** The budget tracker: a dictionary of entries, a dictionary of caps and three gauge rows a
  * customer, updated in place and proved against the ledger. */
module BudgetTracker {
  import opened Options
  import B = Budget

  datatype BudgetState = BudgetState(daily: real, monthly: real, cap: B.Cap, level: B.Level)

  type Gauge = map<(string, B.Level), real>

  predicate Row(gauge: Gauge, customer: string, l: B.Level, on: bool) {
    (customer, l) in gauge && gauge[(customer, l)] == if on then 1.0 else 0.0
  }

  /** The customer's three rows show exactly this level. */
  predicate Shows(gauge: Gauge, customer: string, level: B.Level) {
    Row(gauge, customer, B.OK, level == B.OK) && Row(gauge, customer, B.WARN, level == B.WARN)
    && Row(gauge, customer, B.EXHAUSTED, level == B.EXHAUSTED)
  }

  /** Exactly one of the three rows is active. */
  predicate OneActive(gauge: Gauge, customer: string) {
    Shows(gauge, customer, B.OK) || Shows(gauge, customer, B.WARN) || Shows(gauge, customer, B.EXHAUSTED)
  }

  lemma Recorded(ledger: seq<B.Cost>, cost: B.Cost, c: string)
    ensures B.Fold(ledger + [cost], c)
            == if cost.customer == c then Some(B.Accrue(B.Fold(ledger, c), cost.at, cost.usd)) else B.Fold(ledger, c)
    ensures cost.customer == c ==>
              B.SpentOn(ledger + [cost], c, cost.at) == B.SpentOn(ledger, c, cost.at) + B.Floor0(cost.usd)
              && B.SpentIn(ledger + [cost], c, B.Month(cost.at))
                 == B.SpentIn(ledger, c, B.Month(cost.at)) + B.Floor0(cost.usd)
  {
    assert (ledger + [cost])[..|ledger|] == ledger;
  }

  /** What was done with the tracker: a cap set, or a customer's budget charged, read or checked. */
  datatype Op = Capped(customer: string, cap: B.Cap) | Used(customer: string)

  /** The cap a customer has after these operations: the last one set for it, else the default. */
  function CapAfter(default: B.Cap, ops: seq<Op>, c: string): B.Cap {
    if ops == [] then default
    else
      var last := ops[|ops| - 1];
      if last.Capped? && last.customer == c then last.cap else CapAfter(default, ops[..|ops| - 1], c)
  }

  lemma OneMoreOp(default: B.Cap, ops: seq<Op>, op: Op, c: string)
    ensures CapAfter(default, ops + [op], c)
            == if op.Capped? && op.customer == c then op.cap else CapAfter(default, ops, c)
  {
    assert (ops + [op])[..|ops|] == ops;
  }

  /** A cap stands through any operations that set no new cap for the same customer. */
  lemma {:induction false} CapStands(default: B.Cap, ops: seq<Op>, more: seq<Op>, c: string)
    requires forall k :: 0 <= k < |more| ==> !(more[k].Capped? && more[k].customer == c)
    ensures CapAfter(default, ops + more, c) == CapAfter(default, ops, c)
    decreases |more|
  {
    if more == [] {
      assert ops + more == ops;
    } else {
      var n := |more| - 1;
      CapStands(default, ops, more[..n], c);
      assert ops + more == ops + more[..n] + [more[n]];
      OneMoreOp(default, ops + more[..n], more[n], c);
    }
  }

  /** Reached: a positive amount of the cap is met by the spend of its window. */
  predicate Over(cap: B.Cap, daily: real, monthly: real) {
    (cap.daily > 0.0 && daily >= cap.daily) || (cap.monthly > 0.0 && monthly >= cap.monthly)
  }

  class Tracker {
    var spent: map<string, B.Entry>
    var caps: map<string, B.Cap>
    var gauge: Gauge
    var blocks: map<string, nat>
    const default: B.Cap
    ghost var ledger: seq<B.Cost>
    ghost var ops: seq<Op>         // everything done so far

    ghost predicate Valid()
      reads this
    {
      Ledgered() && Capping() && forall c :: c in spent ==> OneActive(gauge, c)
    }

    /** The stored overrides are the caps last set. */
    ghost predicate Capping()
      reads this`ops, this`caps
    {
      forall c :: CapAfter(default, ops, c) == if c in caps then caps[c] else default
    }

    /** Each stored entry is what folding the whole ledger gives. */
    ghost predicate Ledgered()
      reads this`ledger, this`spent
    {
      forall c :: B.Fold(ledger, c) == Entry(c)
    }

    function Entry(c: string): Option<B.Entry>
      reads this`spent
    {
      if c in spent then Some(spent[c]) else None
    }

    /** The clock has never run back, up to now. */
    ghost predicate Forward(now: B.Day)
      reads this
    {
      B.InOrder(ledger) && forall c :: c in ledger ==> B.NotAfter(c.at, now)
    }

    constructor (default: B.Cap)
      ensures Valid() && ledger == [] && ops == [] && this.default == default && caps == map[]
    {
      this.default := default;
      spent, caps, gauge, blocks, ledger, ops := map[], map[], map[], map[], [], [];
    }

    function CapOf(customer: string): B.Cap
      reads this`caps
    {
      if customer in caps then caps[customer] else default
    }

    method SetCap(customer: string, cap: B.Cap)
      requires Valid()
      modifies this`caps, this`ops
      ensures Valid() && caps == old(caps)[customer := cap] && ops == old(ops) + [Capped(customer, cap)]
    {
      forall c { OneMoreOp(default, ops, Capped(customer, cap), c); }
      caps := caps[customer := cap];
      ops := ops + [Capped(customer, cap)];
    }

    /** A cap that was set is the one in force for its customer until another is set for them, whatever else
      * was done and whatever was set for others. */
    lemma CapSetIsInForce(i: nat, c: string, cap: B.Cap)
      requires Valid() && i < |ops| && ops[i] == Capped(c, cap)
      requires forall k :: i < k < |ops| ==> !(ops[k].Capped? && ops[k].customer == c)
      ensures CapAfter(default, ops, c) == cap == if c in caps then caps[c] else default
    {
      var more := ops[i + 1..];
      assert ops == ops[..i] + [ops[i]] + more;
      OneMoreOp(default, ops[..i], ops[i], c);
      CapStands(default, ops[..i] + [ops[i]], more, c);
    }

    /** One more use changes no cap. */
    ghost method Note(customer: string)
      requires Valid()
      modifies this`ops
      ensures Valid() && ops == old(ops) + [Used(customer)]
    {
      forall c { OneMoreOp(default, ops, Used(customer), c); }
      ops := ops + [Used(customer)];
    }

    /** `_build_state`: the level, and the gauge rows that show it. */
    method BuildState(customer: string, daily: real, monthly: real) returns (st: BudgetState)
      modifies this`gauge
      ensures st.daily == daily && st.monthly == monthly
      ensures st.cap == if customer in caps then caps[customer] else default
      ensures st.level == B.LevelOf(daily, monthly, st.cap)
      ensures Shows(gauge, customer, st.level)
      ensures forall c :: OneActive(old(gauge), c) ==> OneActive(gauge, c)
    {
      var level := B.LevelOf(daily, monthly, CapOf(customer));
      gauge := gauge[(customer, B.OK) := if level == B.OK then 1.0 else 0.0];
      gauge := gauge[(customer, B.WARN) := if level == B.WARN then 1.0 else 0.0];
      gauge := gauge[(customer, B.EXHAUSTED) := if level == B.EXHAUSTED then 1.0 else 0.0];
      st := BudgetState(daily, monthly, CapOf(customer), level);
      forall c | OneActive(old(gauge), c) ensures OneActive(gauge, c) {
        if c == customer { assert Shows(gauge, c, level); }
      }
    }

    /** The part of `record_cost` under the lock: the stored amounts roll over by the day and month of
      * now, wherever the clock stands. */
    method Accumulate(customer: string, usd: real, now: B.Day) returns (daily: real, monthly: real)
      requires Ledgered()
      modifies this`spent, this`ledger
      ensures Ledgered() && ledger == old(ledger) + [B.Cost(customer, now, usd)]
      ensures spent.Keys == old(spent).Keys + {customer}
      ensures (daily, monthly) == B.Bucket(B.Fold(ledger, customer), now)
    {
      var amount := if usd < 0.0 then 0.0 else usd;
      daily, monthly := 0.0, 0.0;
      if customer in spent {
        if spent[customer].day == now { daily := spent[customer].daily; }
        if spent[customer].month == B.Month(now) { monthly := spent[customer].monthly; }
      }
      assert (daily, monthly) == B.Bucket(Entry(customer), now);
      daily, monthly := daily + amount, monthly + amount;
      forall c { Recorded(ledger, B.Cost(customer, now, usd), c); }
      ledger := ledger + [B.Cost(customer, now, usd)];
      spent := spent[customer := B.Entry(now, daily, B.Month(now), monthly)];
    }

    /** On a clock that never ran back the amounts reported are the exact sums of the ledger. */
    method RecordCost(customer: string, usd: real, now: B.Day) returns (st: BudgetState)
      requires Valid()
      modifies this
      ensures Valid() && ledger == old(ledger) + [B.Cost(customer, now, usd)] && caps == old(caps)
      ensures ops == old(ops) + [Used(customer)] && st.cap == CapAfter(default, ops, customer)
      ensures (st.daily, st.monthly) == B.Bucket(B.Fold(ledger, customer), now)
      ensures old(Forward(now)) ==>
                Forward(now) && st.daily == B.SpentOn(ledger, customer, now)
                && st.monthly == B.SpentIn(ledger, customer, B.Month(now))
                && st.daily == B.SpentOn(old(ledger), customer, now) + (if usd < 0.0 then 0.0 else usd)
                && st.monthly == B.SpentIn(old(ledger), customer, B.Month(now)) + (if usd < 0.0 then 0.0 else usd)
      ensures st.level.EXHAUSTED? <==> Over(st.cap, st.daily, st.monthly)
      ensures st.level == B.LevelOf(st.daily, st.monthly, st.cap) && Shows(gauge, customer, st.level)
    {
      var daily, monthly := Accumulate(customer, usd, now);
      if old(Forward(now)) {
        Recorded(old(ledger), B.Cost(customer, now, usd), customer);
        StaysForward(old(ledger), B.Cost(customer, now, usd));
        B.LazyRolloverIsExact(ledger, customer, now);
      }
      st := BuildState(customer, daily, monthly);
      assert OneActive(gauge, customer);
      B.LevelMeans(st.daily, st.monthly, st.cap);
      Note(customer);
      assert CapAfter(default, ops, customer) == st.cap;
    }

    lemma StaysForward(before: seq<B.Cost>, c: B.Cost)
      requires B.InOrder(before) && forall d :: d in before ==> B.NotAfter(d.at, c.at)
      ensures B.InOrder(before + [c]) && forall d :: d in before + [c] ==> B.NotAfter(d.at, c.at)
    {
      forall i | 0 <= i < |before| ensures B.NotAfter(before[i].at, c.at) { assert before[i] in before; }
    }

    /** `state`: what is spent and where that stands, under the cap last set for the customer. */
    method State(customer: string, now: B.Day) returns (st: BudgetState)
      requires Valid()
      modifies this`gauge, this`ops
      ensures Valid() && ops == old(ops) + [Used(customer)] && st.cap == CapAfter(default, ops, customer)
      ensures (st.daily, st.monthly) == B.Bucket(B.Fold(ledger, customer), now)
      ensures Forward(now) ==>
                st.daily == B.SpentOn(ledger, customer, now) && st.monthly == B.SpentIn(ledger, customer, B.Month(now))
      ensures st.cap == if customer in caps then caps[customer] else default
      ensures st.level.EXHAUSTED? <==> Over(st.cap, st.daily, st.monthly)
      ensures st.level == B.LevelOf(st.daily, st.monthly, st.cap) && Shows(gauge, customer, st.level)
    {
      var daily, monthly := 0.0, 0.0;
      if customer in spent {
        if spent[customer].day == now { daily := spent[customer].daily; }
        if spent[customer].month == B.Month(now) { monthly := spent[customer].monthly; }
      }
      assert (daily, monthly) == B.Bucket(Entry(customer), now);
      if Forward(now) { B.LazyRolloverIsExact(ledger, customer, now); }
      st := BuildState(customer, daily, monthly);
      B.LevelMeans(st.daily, st.monthly, st.cap);
      Note(customer);
      assert CapAfter(default, ops, customer) == st.cap;
    }

    /** `check_or_raise`: refused exactly when a positive amount of the cap last set for the customer, or of
      * the default, is reached by the amounts reported, which on a clock that never ran back are the exact
      * sums. */
    method CheckOrRaise(customer: string, now: B.Day) returns (admitted: bool)
      requires Valid()
      modifies this`gauge, this`blocks, this`ops
      ensures Valid() && ops == old(ops) + [Used(customer)]
      ensures var b := B.Bucket(B.Fold(ledger, customer), now);
              (customer in caps ==> (!admitted <==> Over(caps[customer], b.0, b.1)))
              && (customer !in caps ==> (!admitted <==> Over(default, b.0, b.1)))
      ensures Forward(now) ==>
                (!admitted <==> Over(CapAfter(default, old(ops), customer), B.SpentOn(ledger, customer, now),
                                     B.SpentIn(ledger, customer, B.Month(now))))
      ensures blocks == if admitted then old(blocks)
                        else old(blocks)[customer := 1 + if customer in old(blocks) then old(blocks)[customer] else 0]
    {
      OneMoreOp(default, ops, Used(customer), customer);
      var st := State(customer, now);
      admitted := st.level != B.EXHAUSTED;
      if !admitted {
        blocks := blocks[customer := 1 + if customer in blocks then blocks[customer] else 0];
      }
    }
  }
}
