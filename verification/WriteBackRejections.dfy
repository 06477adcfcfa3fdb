/** What a rejection settles, and what a settlement already in flight can still undo. */
module WriteBackRejections {
  import opened Options
  import opened Records
  import opened WriteBack
  import opened WriteBackShapes
  import opened WriteBackInvariants
  import opened WriteBackLedger
  import opened WriteBackJobs
  import opened WriteBackHistory
  import opened WriteBackSteps
  import opened WriteBackTheorems
  import opened WriteBackGuarantees

  // --- nothing starts any more ------------------------------------------------------------------

  /** Decided against: the row is settled and the gate does not approve it. */
  ghost predicate TurnedDown(s: State, r: Id) { r in s.reqs && !s.reqs[r].status.Pending? && !Approved(s, r) }

  lemma TurnedDownStep(s: State, step: Step, r: Id)
    requires Basic(s) && TurnedDown(s, r)
    ensures TurnedDown(Next(s, step), r)
  {
    hide Basic, DeskNext, BridgeNext, AdminNext;
    if step.AtDesk? {
      DeskHistory(s, step.d);
      assert !Approves(s, step.d, r, if r in Next(s, step).gate then Next(s, step).gate[r].approver else None);
    }
  }

  lemma RejectTurnsDown(s: State, approver: string, r: Id, reason: string, stop: bool)
    requires RowsOk(s.reqs) && r in s.reqs && s.reqs[r].status.Pending?
    ensures var s' := Decide(s, approver, r, false, reason, stop);
            TurnedDown(s', r) && s'.reqs[r].status == Rejected && s'.reqs[r].approver == Some(approver)
            && s'.calls == s.calls && s'.jobs == s.jobs
  {}

  /** No call that settles a refused request begins from then on. */
  lemma {:induction false} TurnedDownNeverRuns(dep: Deployment, steps: seq<Step>, i: nat, r: Id, c: nat)
    requires i <= |steps| && TurnedDown(Before(dep, steps, i), r)
    requires SettlesBy(Run(dep, steps).calls, r, c)
    ensures c < |Before(dep, steps, i).calls|
  {
    hide DeskNext, BridgeNext, AdminNext, TurnedDown, OneCall, Basic, Ledger, Queue;
    if i == |steps| {
      assert steps[..i] == steps;
    } else {
      var n := |steps| - 1;
      var s := Run(dep, steps[..n]);
      assert steps[..n][..i] == steps[..i];
      RunInv(dep, steps[..n]);
      TurnedDownOverRun(dep, steps[..n], i, r);
      TurnedDownStep(s, steps[n], r);
      TurnedDownStartsNothing(s, steps[n], r, c);
      TurnedDownNeverRuns(dep, steps[..n], i, r, c);
    }
  }

  lemma {:induction false} TurnedDownOverRun(dep: Deployment, steps: seq<Step>, i: nat, r: Id)
    requires i <= |steps| && TurnedDown(Before(dep, steps, i), r)
    ensures TurnedDown(Run(dep, steps), r)
  {
    hide Next, TurnedDown, Basic, Ledger, Queue;
    if i == |steps| {
      assert steps[..i] == steps;
    } else {
      var n := |steps| - 1;
      assert steps[..n][..i] == steps[..i];
      RunInv(dep, steps[..n]);
      TurnedDownOverRun(dep, steps[..n], i, r);
      TurnedDownStep(Run(dep, steps[..n]), steps[n], r);
    }
  }

  lemma TurnedDownStartsNothing(s: State, step: Step, r: Id, c: nat)
    requires Basic(s) && TurnedDown(Next(s, step), r) && SettlesBy(Next(s, step).calls, r, c)
    ensures SettlesBy(s.calls, r, c)
  {
    hide DeskNext, BridgeNext, AdminNext, Basic;
    var s' := Next(s, step);
    if step.AtDesk? {
      DeskOneCall(s, step.d);
      BasicKept(s, step);
      BasicCalls(s', c);
      assert s'.calls == s.calls || s'.calls[..|s.calls|] == s.calls;
      if c < |s.calls| { assert s'.calls[c] == s.calls[c]; }
    }
  }

  /** A rejection starts nothing, then or later: the gate never approves the request again, and every
    * settlement call it ever has in the run began before the rejection. */
  lemma RejectionStartsNoCall(dep: Deployment, steps: seq<Step>, i: nat, r: Id)
    requires i < |steps| && steps[i].AtDesk? && steps[i].d.DoDecide? && steps[i].d.r == r && !steps[i].d.approve
    requires var s := Before(dep, steps, i); r in s.reqs && s.reqs[r].status.Pending?
    ensures !Approved(Run(dep, steps), r)
    ensures forall c: nat :: SettlesBy(Run(dep, steps).calls, r, c) ==> c < |Before(dep, steps, i).calls|
  {
    hide Decide, Ledger, Queue;
    var s, d := Before(dep, steps, i), steps[i].d;
    RunStep(dep, steps, i);
    RunInv(dep, steps[..i]);
    RejectTurnsDown(s, d.approver, r, d.reason, d.stop);
    TurnedDownOverRun(dep, steps, i + 1, r);
    forall c: nat | SettlesBy(Run(dep, steps).calls, r, c) ensures c < |s.calls| {
      TurnedDownNeverRuns(dep, steps, i + 1, r, c);
    }
  }

  // --- what becomes of the row ----------------------------------------------------------------------

  /** Neither the row of r nor its calls in flight change. */
  ghost predicate SameFor(s: State, s': State, r: Id) {
    r in s.reqs && r in s'.reqs && s'.reqs[r] == s.reqs[r] && InFlight(s'.open, r) == InFlight(s.open, r)
  }

  lemma IdleSame(s: State, s': State, r: Id)
    requires r in s.reqs && s'.reqs == s.reqs && s'.open == s.open
    ensures SameFor(s, s', r)
  {}

  lemma SameChain(s: State, s1: State, s2: State, r: Id)
    requires SameFor(s, s1, r) && SameFor(s1, s2, r)
    ensures SameFor(s, s2, r)
  {}

  lemma CloseSame(s: State, row: Request, out: Outcome, r: Id)
    requires r in s.reqs && row.id != r
    ensures SameFor(s, Close(s, row, out), r)
  {}

  lemma BeginsSame(s: State, s': State, o: Origin, key: string, action: string, params: Payload, w: Await, r: Id)
    requires r in s.reqs && Begins(s, s', o, key, action, params, w) && OpenBelow(s.open, s.calls)
    requires w.AwaitSettle? ==> w.row.id != r
    ensures SameFor(s, s', r)
  {
    assert InFlight(s'.open, r) == InFlight(s.open, r);
  }

  lemma RequestSame(s: State, who: string, desk: Id, tool: Id, key: string, action: string, params: Payload, r: Id)
    requires r in s.reqs && s.next !in s.reqs
    ensures SameFor(s, RequestWrite(s, who, desk, tool, key, action, params), r)
  {}

  lemma FitsSame(s: State, s': State, sh: Shape, r: Id)
    requires r in s.reqs && OpenBelow(s.open, s.calls) && Fits(s, s', sh)
    requires match sh
             case Asking(_, _, _, _, _, _) => s.next !in s.reqs
             case Calling(_, _, _, _, w) => w.AwaitSettle? ==> w.row.id != r
             case Closing(row, _) => row.id != r
             case Idle => true
    ensures SameFor(s, s', r)
  {
    hide SameFor, Begins, RequestWrite, Close, OpenBelow;
    match sh
    case Idle => IdleSame(s, s, r);
    case Asking(who, desk, tool, key, action, params) => RequestSame(s, who, desk, tool, key, action, params, r);
    case Calling(o, key, action, params, w) => BeginsSame(s, s', o, key, action, params, w, r);
    case Closing(row, out) => CloseSame(s, row, out, r);
  }

  lemma SettleSame(s: State, row: Request, r: Id)
    requires r in s.reqs && !Approved(s, r) && OpenBelow(s.open, s.calls)
    ensures SameFor(s, Settle(s, row), r)
  {
    hide SameFor, Fits, Settle, OpenBelow;
    var sh := SettleShape(s, row);
    FitsSame(s, Settle(s, row), sh, r);
  }

  lemma RejectSame(s: State, row: Request, approver: string, reason: string, r: Id)
    requires r in s.reqs && row.id != r
    ensures SameFor(s, Reject(s, row, approver, reason), r)
  {}

  lemma ApproveSame(s: State, other: Id, approver: string, row: Request, r: Id)
    requires r in s.reqs && !Approved(s, r) && other != r && OpenBelow(s.open, s.calls)
    ensures SameFor(s, ApproveGate(s, other, approver), r)
            && SameFor(s, Settle(ApproveGate(s, other, approver), row), r)
  {
    hide SameFor, Settle;
    var s1 := ApproveGate(s, other, approver);
    IdleSame(s, s1, r);
    SettleSame(s1, row, r);
    SameChain(s, s1, Settle(s1, row), r);
  }

  lemma DecideSame(s: State, d: DeskStep, r: Id)
    requires d.DoDecide? && TurnedDown(s, r) && RowsOk(s.reqs) && OpenBelow(s.open, s.calls)
    ensures SameFor(s, Decide(s, d.approver, d.r, d.approve, d.reason, d.stop), r)
  {
    hide SameFor, Settle, Reject, ApproveGate, OpenBelow;
    IdleSame(s, s, r);
    if d.r in s.reqs && d.r != r {
      ApproveSame(s, d.r, d.approver, s.reqs[d.r].(approver := Some(d.approver)), r);
      RejectSame(s, s.reqs[d.r], d.approver, d.reason, r);
    }
  }

  lemma PollNextSame(s: State, p: Id, r: Id)
    requires TurnedDown(s, r) && OpenBelow(s.open, s.calls)
    ensures SameFor(s, PollNext(s, p), r)
  {
    hide SameFor, Settle;
    IdleSame(s, s, r);
    if PollReady(s, p) {
      var row := s.polls[p].rows[0];
      SettleSame(s, row, r);
      var s1 := if row.status.Pending? then Settle(s, row) else s;
      IdleSame(s1, PollNext(s, p), r) by { KeepsRow(s, s1, r); }
      SameChain(s, s1, PollNext(s, p), r);
    }
  }

  lemma KeepsRow(s: State, s': State, r: Id)
    requires SameFor(s, s', r)
    ensures r in s'.reqs
  {}

  lemma InvokeSame(s: State, who: string, desk: Id, tool: Id, action: string, params: Payload, r: Id)
    requires r in s.reqs && s.next !in s.reqs && OpenBelow(s.open, s.calls)
    ensures SameFor(s, Invoke(s, who, desk, tool, action, params), r)
  {
    hide SameFor, Fits, Invoke, OpenBelow;
    var sh := InvokeShape(s, who, desk, tool, action, params);
    FitsSame(s, Invoke(s, who, desk, tool, action, params), sh, r);
  }

  lemma OwnSame(s: State, d: DeskStep, r: Id)
    requires r in s.reqs && OpenBelow(s.open, s.calls) && OwnStep(d)
    ensures SameFor(s, DeskNext(s, d), r)
  {
    hide SameFor, Fits, DeskNext, OpenBelow;
    var sh := OwnShape(s, d);
    FitsSame(s, DeskNext(s, d), sh, r);
  }

  /** This step brings back a call that settles r. */
  ghost predicate Returns(s: State, step: Step, r: Id) {
    step.AtDesk? && step.d.DoReturn? && step.d.c in InFlight(s.open, r)
    && OutcomeOf(s, step.d.c, step.d.local, step.d.timedOut).Some?
  }

  /** A settlement of r comes back: the row is executed or failed, whatever it was. */
  ghost predicate Overwrites(s: State, s': State, r: Id, c: nat) {
    r in s'.reqs && (s'.reqs[r].status == Executed || s'.reqs[r].status == Failed)
    && InFlight(s'.open, r) == InFlight(s.open, r) - {c}
  }

  lemma FinishSame(s: State, c: nat, out: Outcome, r: Id)
    requires r in s.reqs && c in s.open
    ensures var s' := Finish(s.(open := s.open - {c}), s.open[c], out);
            if c in InFlight(s.open, r) then Overwrites(s, s', r, c) else SameFor(s, s', r)
  {
    hide Finish, Close, SameFor, Overwrites;
    var s1, w := s.(open := s.open - {c}), s.open[c];
    DroppedInFlight(s.open, c, r);
    if w.AwaitSettle? {
      SettleFinish(s1, w, out);
      if w.row.id == r { CloseOverwrites(s, s1, w.row, out, c); } else { DroppedCloseSame(s, s1, w.row, out, r); }
    } else {
      OtherFinishRows(s1, w, out);
      RowsSame(s, Finish(s1, w, out), r);
    }
  }

  lemma DroppedInFlight(open: map<nat, Await>, c: nat, r: Id)
    ensures InFlight(open - {c}, r) == InFlight(open, r) - {c}
  {}

  lemma CloseOverwrites(s: State, s1: State, row: Request, out: Outcome, c: nat)
    requires InFlight(s1.open, row.id) == InFlight(s.open, row.id) - {c}
    ensures Overwrites(s, Close(s1, row, out), row.id, c)
  {}

  lemma DroppedCloseSame(s: State, s1: State, row: Request, out: Outcome, r: Id)
    requires r in s.reqs && row.id != r && s1.reqs == s.reqs && InFlight(s1.open, r) == InFlight(s.open, r)
    ensures SameFor(s, Close(s1, row, out), r)
  {}

  lemma RowsSame(s: State, s': State, r: Id)
    requires r in s.reqs && s'.reqs == s.reqs && InFlight(s'.open, r) == InFlight(s.open, r)
    ensures SameFor(s, s', r)
  {}

  lemma ReturnSame(s: State, d: DeskStep, r: Id)
    requires d.DoReturn? && r in s.reqs
    ensures var s' := Return(s, d.c, d.local, d.timedOut);
            if Returns(s, AtDesk(d), r) then Overwrites(s, s', r, d.c) else SameFor(s, s', r)
  {
    hide SameFor, Overwrites, Finish, OutcomeOf;
    IdleSame(s, s, r);
    if d.c in s.open { forall out { FinishSame(s, d.c, out, r); } }
  }

  lemma ToolsSame(s: State, s': State, r: Id)
    requires r in s.reqs && OnlyTools(s, s')
    ensures SameFor(s, s', r)
  {
    hide SameFor;
    IdleSame(s, s', r);
  }

  lemma DeskSame(s: State, d: DeskStep, r: Id)
    requires Basic(s) && Ledger(s) && TurnedDown(s, r)
    ensures if Returns(s, AtDesk(d), r) then Overwrites(s, DeskNext(s, d), r, d.c) else SameFor(s, DeskNext(s, d), r)
  {
    hide SameFor, Overwrites, Invoke, Decide, PollNext, Return, RowsOf, OnlyTools, Connect, Disconnect;
    hide TerminalExec, TerminalHosts, TestSpec, CompleteOAuth;
    IdleSame(s, s, r);
    match d
    case DoInvoke(who, desk, tool, action, params) => InvokeSame(s, who, desk, tool, action, params, r);
    case DoDecide(_, _, _, _, _) => DecideSame(s, d, r);
    case DoPollStart(who, desk) => IdleSame(s, PollStart(s, who, desk), r);
    case DoPollNext(p) => PollNextSame(s, p, r);
    case DoReturn(_, _, _) => ReturnSame(s, d, r);
    case DoConnect(_, _, _, _, _, _) => ToolsSame(s, DeskNext(s, d), r);
    case DoDisconnect(_, _, _) => ToolsSame(s, DeskNext(s, d), r);
    case _ => OwnSame(s, d, r);
  }

  lemma NextSame(s: State, step: Step, r: Id)
    requires Basic(s) && Ledger(s) && TurnedDown(s, r)
    ensures if Returns(s, step, r) then Overwrites(s, Next(s, step), r, step.d.c) else SameFor(s, Next(s, step), r)
  {
    hide SameFor, Overwrites, DeskNext, BridgeNext, AdminNext;
    match step
    case AtDesk(d) => DeskSame(s, d, r);
    case AtBridge(b) => IdleSame(s, BridgeNext(s, b), r);
    case ByAdmin(a) => IdleSame(s, AdminNext(s, a), r);
  }

  /** Since the rejection, with these settlements in flight then: the row is rejected exactly while all
    * of them still are. */
  ghost predicate Standing(s: State, r: Id, then_: set<nat>) {
    r in s.reqs && InFlight(s.open, r) <= then_ && (s.reqs[r].status == Rejected <==> then_ <= InFlight(s.open, r))
  }

  lemma StandingKept(s: State, step: Step, r: Id, then_: set<nat>)
    requires Basic(s) && Ledger(s) && TurnedDown(s, r) && Standing(s, r, then_)
    ensures Standing(Next(s, step), r, then_)
  {
    hide Basic, Ledger, TurnedDown, Next, InFlight;
    NextSame(s, step, r);
    if Returns(s, step, r) { assert step.d.c in then_; }
  }

  lemma {:induction false} StandingOverRun(dep: Deployment, steps: seq<Step>, i: nat, r: Id, then_: set<nat>)
    requires i <= |steps| && TurnedDown(Before(dep, steps, i), r) && Standing(Before(dep, steps, i), r, then_)
    ensures Standing(Run(dep, steps), r, then_)
  {
    hide Next, TurnedDown, Basic, Ledger, Queue, Standing;
    if i == |steps| {
      assert steps[..i] == steps;
    } else {
      var n := |steps| - 1;
      assert steps[..n][..i] == steps[..i];
      RunInv(dep, steps[..n]);
      TurnedDownOverRun(dep, steps[..n], i, r);
      StandingOverRun(dep, steps[..n], i, r, then_);
      StandingKept(Run(dep, steps[..n]), steps[n], r, then_);
    }
  }

  lemma RejectStands(s: State, approver: string, r: Id, reason: string, stop: bool)
    requires RowsOk(s.reqs) && r in s.reqs && s.reqs[r].status.Pending?
    ensures Standing(Decide(s, approver, r, false, reason, stop), r, InFlight(s.open, r))
  {}

  /** A rejected request is still rejected at the end of a run if and only if no settlement that was in
    * flight at the rejection has come back since. In particular it stays rejected for good when none
    * was in flight, which the caller can check before rejecting. */
  lemma RejectionStandsIff(dep: Deployment, steps: seq<Step>, i: nat, r: Id)
    requires i < |steps| && steps[i].AtDesk? && steps[i].d.DoDecide? && steps[i].d.r == r && !steps[i].d.approve
    requires var s := Before(dep, steps, i); r in s.reqs && s.reqs[r].status.Pending?
    ensures var s := Run(dep, steps);
            r in s.reqs && (s.reqs[r].status == Rejected
              <==> InFlight(Before(dep, steps, i).open, r) <= InFlight(s.open, r))
    ensures InFlight(Before(dep, steps, i).open, r) == {} ==> Run(dep, steps).reqs[r].status == Rejected
  {
    hide Decide, Ledger, Queue, TurnedDown, InFlight;
    var s, d := Before(dep, steps, i), steps[i].d;
    RunStep(dep, steps, i);
    RunInv(dep, steps[..i]);
    RejectTurnsDown(s, d.approver, r, d.reason, d.stop);
    RejectStands(s, d.approver, r, d.reason, d.stop);
    StandingOverRun(dep, steps, i + 1, r, InFlight(s.open, r));
  }

  const REJECT := AtDesk(DoDecide("eve", 1, false, "", false))

  /** The failing case: rejected while its approved settlement is in flight, a write ends as executed in
    * the first approver's name, behind a gate that says rejected. */
  lemma RejectionIsOverwritten()
    ensures var s := Run(ONE_DESK, [CONNECT, ASK, APPROVE, REJECT, DONE]);
            1 in s.reqs && s.reqs[1].status == Executed && s.reqs[1].approver == Some("bob")
            && 1 in s.gate && s.gate[1] == Gate(GateRejected, Some("eve"))
  {
    hide Run, Settle, Invoke, PollStart, PollNext;
    var p3 := [CONNECT, ASK, APPROVE];
    ApprovedState();
    Takes(ONE_DESK, p3, REJECT);
    Takes(ONE_DESK, p3 + [REJECT], DONE);
    assert p3 + [REJECT] + [DONE] == [CONNECT, ASK, APPROVE, REJECT, DONE];
  }
}
