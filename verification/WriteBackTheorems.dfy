/** The promises of the write-back protocol over whole runs. */
module WriteBackTheorems {
  import opened Options
  import opened Records
  import opened WriteBack
  import opened WriteBackInvariants
  import opened WriteBackLedger
  import opened WriteBackJobs
  import opened WriteBackHistory

  ghost predicate Inv(s: State) { Basic(s) && Ledger(s) && Queue(s) }

  lemma InvKept(s: State, step: Step)
    requires Inv(s)
    ensures Inv(Next(s, step))
  {
    hide Basic, Ledger, Queue, Next;
    BasicKept(s, step);
    LedgerKept(s, step);
    QueueKept(s, step);
  }

  lemma InitInv(dep: Deployment)
    ensures Inv(Init(dep))
  {
    forall r ensures LogRow([], map[], r) && InFlight(map[], r) == {} {}
  }

  lemma {:induction false} RunInv(dep: Deployment, steps: seq<Step>)
    ensures Inv(Run(dep, steps))
  {
    hide Inv;
    if steps == [] {
      InitInv(dep);
    } else {
      RunInv(dep, steps[..|steps| - 1]);
      InvKept(Run(dep, steps[..|steps| - 1]), steps[|steps| - 1]);
    }
  }

  /** The state in which step i of a run is taken. */
  function Before(dep: Deployment, steps: seq<Step>, i: nat): State
    requires i <= |steps|
  {
    Run(dep, steps[..i])
  }

  lemma RunStep(dep: Deployment, steps: seq<Step>, i: nat)
    requires i < |steps|
    ensures Before(dep, steps, i + 1) == Next(Before(dep, steps, i), steps[i])
  {
    assert steps[..i + 1][..i] == steps[..i];
  }

  // --- the log ---------------------------------------------------------------------------

  /** Replaying the log gives the stored status of every request, in every run. */
  lemma ReplayIsTheStoredStatus(dep: Deployment, steps: seq<Step>, r: Id)
    ensures var s := Run(dep, steps);
            if r in s.reqs then Replay(s.audit, r) == Some(s.reqs[r].status) && Asked(s.audit, r) == 1
            else Replay(s.audit, r) == None && Asked(s.audit, r) == 0
  {
    RunInv(dep, steps);
    assert LogRow(Run(dep, steps).audit, Run(dep, steps).reqs, r);
  }

  // --- once only -------------------------------------------------------------------------

  /** The guard a settlement would have to check: the stored row is still pending, and no
    * settlement of it is waiting for its external call. */
  ghost predicate Free(s: State, r: Id) {
    r in s.reqs && s.reqs[r].status.Pending? && InFlight(s.open, r) == {}
  }

  /** Every step of the run that settles a request finds it free. */
  ghost predicate Serial(dep: Deployment, steps: seq<Step>) {
    forall i :: 0 <= i < |steps| ==> SerialAt(Before(dep, steps, i), steps[i])
  }

  ghost predicate SerialAt(s: State, step: Step) {
    Settles(s, step).Some? ==> Free(s, Settles(s, step).value)
  }

  /** Settlements of r in the run so far, finished or under way. */
  ghost function Settlements(s: State, r: Id): nat { Effects(s.audit, s.open, r) }

  lemma FreeIsUnsettled(s: State, r: Id)
    requires Inv(s) && r in s.reqs
    ensures Free(s, r) <==> Settlements(s, r) == 0
  {
    assert LogRow(s.audit, s.reqs, r);
  }

  lemma SettlesKnown(s: State, step: Step)
    requires Basic(s)
    ensures Settles(s, step).Some? ==> Settles(s, step).value in s.reqs
  {
    if step.AtDesk? && step.d.DoPollNext? && PollReady(s, step.d.p) {
      assert CopyOf(s.polls[step.d.p].rows[0], s.reqs);
    }
  }

  /** One step: still nobody is settled twice exactly when the step is serial. */
  lemma OnceStep(s: State, step: Step)
    requires Inv(s)
    ensures var s' := Next(s, step);
            (forall r :: Settlements(s', r) <= 1) <==> (forall r :: Settlements(s, r) <= 1) && SerialAt(s, step)
  {
    hide Next, Settles, Free, Basic, Ledger, Effects;
    var s', settled := Next(s, step), Settles(s, step);
    LedgerKept(s, step);
    SettlesKnown(s, step);
    assert forall r :: Settlements(s', r) == Settlements(s, r) + One(settled == Some(r));
    if settled.Some? { FreeIsUnsettled(s, settled.value); }
    if !SerialAt(s, step) { assert Settlements(s', settled.value) >= 2; }
  }

  lemma NothingSettled(dep: Deployment)
    ensures (forall r :: Settlements(Run(dep, []), r) == 0) && Serial(dep, [])
  {
    forall r ensures InFlight(map[], r) == {} {}
  }

  /** No request is ever settled twice exactly when every settlement found its row free. */
  lemma {:induction false} SettledOnceIffSerial(dep: Deployment, steps: seq<Step>)
    ensures (forall r :: Settlements(Run(dep, steps), r) <= 1) <==> Serial(dep, steps)
  {
    hide Settlements, SerialAt, Inv, Next, Serial;
    if steps == [] {
      NothingSettled(dep);
    } else {
      var n := |steps| - 1;
      SettledOnceIffSerial(dep, steps[..n]);
      RunInv(dep, steps[..n]);
      assert Run(dep, steps) == Next(Run(dep, steps[..n]), steps[n]);
      OnceStep(Run(dep, steps[..n]), steps[n]);
      SerialExtends(dep, steps);
    }
  }

  lemma SerialExtends(dep: Deployment, steps: seq<Step>)
    requires steps != []
    ensures var n := |steps| - 1;
            Serial(dep, steps) <==> Serial(dep, steps[..n]) && SerialAt(Run(dep, steps[..n]), steps[n])
  {
    hide SerialAt, Run;
    var n := |steps| - 1;
    forall i | 0 <= i < n ensures Before(dep, steps, i) == Before(dep, steps[..n], i) {
      assert steps[..n][..i] == steps[..i];
    }
    if Serial(dep, steps[..n]) && SerialAt(Run(dep, steps[..n]), steps[n]) {
      forall i | 0 <= i < |steps| ensures SerialAt(Before(dep, steps, i), steps[i]) {
        if i < n { assert SerialAt(Before(dep, steps[..n], i), steps[..n][i]); }
      }
    }
    if Serial(dep, steps) {
      forall i | 0 <= i < n ensures SerialAt(Before(dep, steps[..n], i), steps[..n][i]) {
        assert SerialAt(Before(dep, steps, i), steps[i]);
      }
      assert SerialAt(Before(dep, steps, n), steps[n]);
    }
  }

  /** Call c was started to settle r. */
  predicate SettlesBy(calls: seq<Call>, r: Id, c: nat) { c < |calls| && calls[c].origin == Settlement(r) }

  lemma {:induction false} StartedTwice(calls: seq<Call>, r: Id, c: nat, d: nat)
    requires c < d && SettlesBy(calls, r, c) && SettlesBy(calls, r, d)
    ensures CallsFor(calls, r) >= 2
  {
    var pre := calls[..|calls| - 1];
    if d < |calls| - 1 { StartedTwice(pre, r, c, d); } else { StartedOnce(pre, r, c); }
  }

  lemma {:induction false} StartedOnce(calls: seq<Call>, r: Id, c: nat)
    requires SettlesBy(calls, r, c)
    ensures CallsFor(calls, r) >= 1
  {
    if c < |calls| - 1 { StartedOnce(calls[..|calls| - 1], r, c); }
  }

  /** In a serial run a write request starts at most one external call, and once it is settled
    * the log holds exactly one executed, failed or rejected receipt for it. */
  lemma SerialRunsExecuteOnce(dep: Deployment, steps: seq<Step>)
    requires Serial(dep, steps)
    ensures var s := Run(dep, steps);
            forall r, c, d :: SettlesBy(s.calls, r, c) && SettlesBy(s.calls, r, d) ==> c == d
    ensures var s := Run(dep, steps);
            forall r :: r in s.reqs ==> Settled(s.audit, r) == One(!s.reqs[r].status.Pending?)
  {
    var s := Run(dep, steps);
    SettledOnceIffSerial(dep, steps);
    RunInv(dep, steps);
    assert forall r :: CallsFor(s.calls, r) <= Settlements(s, r) <= 1;
    forall r, c, d | SettlesBy(s.calls, r, c) && SettlesBy(s.calls, r, d) ensures c == d {
      if c < d { StartedTwice(s.calls, r, c, d); }
      if d < c { StartedTwice(s.calls, r, d, c); }
    }
    forall r | r in s.reqs ensures Settled(s.audit, r) == One(!s.reqs[r].status.Pending?) {
      assert LogRow(s.audit, s.reqs, r);
      assert Settlements(s, r) <= 1;
    }
  }

  // --- authority -----------------------------------------------------------------------------

  /** The step during which call c began. */
  lemma {:induction false} CallBegan(dep: Deployment, steps: seq<Step>, c: nat) returns (k: nat)
    requires c < |Run(dep, steps).calls|
    ensures k < |steps| && steps[k].AtDesk?
    ensures |Before(dep, steps, k).calls| == c
    ensures c < |Before(dep, steps, k + 1).calls| <= |Run(dep, steps).calls|
    ensures Before(dep, steps, k + 1).calls[c] == Run(dep, steps).calls[c]
    ensures OneCall(Before(dep, steps, k), Before(dep, steps, k + 1))
  {
    hide DeskNext, BridgeNext, AdminNext;
    var n := |steps| - 1;
    var s, s' := Run(dep, steps[..n]), Run(dep, steps);
    assert steps[..n + 1] == steps;
    if steps[n].AtDesk? { DeskOneCall(s, steps[n].d); }
    if c < |s.calls| {
      k := CallBegan(dep, steps[..n], c);
      assert steps[..n][..k] == steps[..k] && steps[..n][..k + 1] == steps[..k + 1];
      assert s'.calls == s.calls || s'.calls[..|s.calls|] == s.calls;
      assert s'.calls[c] == s.calls[c];
    } else {
      k := n;
    }
  }

  /** The invocation that asked for the write stored in row r. */
  lemma {:induction false} RowWasAsked(dep: Deployment, steps: seq<Step>, r: Id) returns (i: nat)
    requires r in Run(dep, steps).reqs
    ensures i < |steps| && steps[i].AtDesk?
    ensures Asks(Before(dep, steps, i), steps[i].d, Run(dep, steps).reqs[r])
  {
    hide DeskNext, BridgeNext, AdminNext;
    var n := |steps| - 1;
    var s := Run(dep, steps[..n]);
    RunInv(dep, steps[..n]);
    if steps[n].AtDesk? { DeskHistory(s, steps[n].d); }
    RunInv(dep, steps);
    if r in s.reqs {
      i := RowWasAsked(dep, steps[..n], r);
      assert steps[..n][..i] == steps[..i];
    } else {
      i := n;
    }
  }

  /** The decision behind an approved gate record. */
  lemma {:induction false} GateWasDecided(dep: Deployment, steps: seq<Step>, r: Id) returns (j: nat)
    requires Approved(Run(dep, steps), r)
    ensures j < |steps| && steps[j].AtDesk?
            && Approves(Before(dep, steps, j), steps[j].d, r, Run(dep, steps).gate[r].approver)
  {
    hide DeskNext, BridgeNext, AdminNext;
    var n := |steps| - 1;
    var s := Run(dep, steps[..n]);
    RunInv(dep, steps[..n]);
    if steps[n].AtDesk? { DeskHistory(s, steps[n].d); }
    if steps[n].AtDesk? && Approves(s, steps[n].d, r, Run(dep, steps).gate[r].approver) {
      j := n;
    } else {
      j := GateWasDecided(dep, steps[..n], r);
      assert steps[..n][..j] == steps[..j];
    }
  }

  lemma {:induction false} RowsGrowOverRun(dep: Deployment, steps: seq<Step>, j: nat)
    requires j <= |steps|
    ensures RowsGrow(Before(dep, steps, j).reqs, Run(dep, steps).reqs)
  {
    hide DeskNext, BridgeNext, AdminNext;
    if j == |steps| {
      assert steps[..j] == steps;
    } else {
      var n := |steps| - 1;
      RowsGrowOverRun(dep, steps[..n], j);
      assert steps[..n][..j] == steps[..j];
      RunInv(dep, steps[..n]);
      if steps[n].AtDesk? { DeskHistory(Run(dep, steps[..n]), steps[n].d); }
    }
  }

  lemma {:induction false} RunDep(dep: Deployment, steps: seq<Step>)
    ensures Run(dep, steps).dep == dep
  {
    hide DeskNext, BridgeNext, AdminNext, OneCall;
    if steps != [] {
      var s := Run(dep, steps[..|steps| - 1]);
      RunDep(dep, steps[..|steps| - 1]);
      if steps[|steps| - 1].AtDesk? { DeskOneCall(s, steps[|steps| - 1].d); }
    }
  }

  /** Every external call that settles a write was asked for by an earlier invocation, with
    * exactly its tool, action and parameters, was approved by a decision of someone else no
    * later than the call, and began while the kill switch was off. */
  lemma WriteWasAuthorised(dep: Deployment, steps: seq<Step>, c: nat) returns (i: nat, j: nat, k: nat)
    requires c < |Run(dep, steps).calls| && Run(dep, steps).calls[c].origin.Settlement?
    ensures i < j <= k < |steps| && steps[i].AtDesk? && steps[j].AtDesk?
    ensures steps[i].d.DoInvoke? && steps[j].d.DoDecide? && steps[j].d.approve
    ensures var call := Run(dep, steps).calls[c];
            && call.action == steps[i].d.action && call.params == steps[i].d.params
            && Before(dep, steps, i).next == call.origin.request
            && steps[i].d.tool in Before(dep, steps, i).tools
            && Before(dep, steps, i).tools[steps[i].d.tool].key == call.key
            && steps[j].d.r == call.origin.request
    ensures steps[j].d.approver != steps[i].d.who
    ensures !Before(dep, steps, k).halted
    ensures |Before(dep, steps, k).calls| == c < |Before(dep, steps, k + 1).calls|
  {
    hide Next, Ledger, Queue;
    k := CallBegan(dep, steps, c);
    var upto := steps[..k + 1];
    RunInv(dep, upto);
    RunDep(dep, upto);
    var s' := Run(dep, upto);
    var call := s'.calls[c];
    var r := call.origin.request;
    assert CallOk(dep, call, s'.reqs);
    j := GateWasDecided(dep, upto, r);
    assert upto[..j] == steps[..j];
    i := RowWasAsked(dep, steps[..j], r);
    assert steps[..j][..i] == steps[..i];
    RowsGrowOverRun(dep, upto, j);
    RunInv(dep, steps[..j]);
  }
}
