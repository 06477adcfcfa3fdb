/** A discipline on callers under which every write runs at most once: whoever decides a request, or
  * polls a desk, first looks whether another settlement of it is under way. */
module WriteBackOrder {
  import opened Options
  import opened Records
  import opened WriteBack
  import opened WriteBackShapes
  import opened WriteBackInvariants
  import opened WriteBackLedger
  import opened WriteBackJobs
  import opened WriteBackTheorems
  import opened WriteBackGuarantees

  // --- the discipline ------------------------------------------------------------------------

  /** No settlement of r is waiting for its external call. */
  predicate Idle(s: State, r: Id) { forall c :: c in s.open && s.open[c].AwaitSettle? ==> s.open[c].row.id != r }

  /** No poll still has r to look at. */
  predicate Unread(s: State, r: Id) {
    forall p, i :: p in s.polls && 0 <= i < |s.polls[p].rows| ==> s.polls[p].rows[i].id != r
  }

  /** No settlement of any of the desk's requests is waiting, and no poll of the desk is unfinished. */
  predicate DeskIdle(s: State, desk: Id) {
    (forall c :: c in s.open && s.open[c].AwaitSettle? ==> s.open[c].row.desk != desk)
    && (forall p, i :: p in s.polls && 0 <= i < |s.polls[p].rows| ==> s.polls[p].rows[i].desk != desk)
  }

  /** A decision waits for the request's settlement and polls, a poll for the desk's. Nothing else
    * waits; in particular polls, calls and decisions of different desks overlap freely, calls return
    * in any order, and a decision may stop between gate and settlement. */
  predicate OrderlyAt(s: State, step: Step) {
    step.AtDesk? ==>
      match step.d
      case DoDecide(_, r, _, _, _) => Idle(s, r) && Unread(s, r)
      case DoPollStart(_, desk) => DeskIdle(s, desk)
      case _ => true
  }

  ghost predicate Orderly(dep: Deployment, steps: seq<Step>) {
    forall i :: 0 <= i < |steps| ==> OrderlyAt(Before(dep, steps, i), steps[i])
  }

  /** In particular one call at a time: nothing is decided or polled while a settlement waits for its
    * external call or a poll is unfinished. */
  predicate OneAtATime(s: State, step: Step) {
    step.AtDesk? && (step.d.DoDecide? || step.d.DoPollStart?) ==>
      (forall c :: c in s.open ==> !s.open[c].AwaitSettle?) && (forall p :: p in s.polls ==> s.polls[p].rows == [])
  }

  lemma OneAtATimeIsOrderly(dep: Deployment, steps: seq<Step>)
    requires forall i :: 0 <= i < |steps| ==> OneAtATime(Before(dep, steps, i), steps[i])
    ensures Orderly(dep, steps)
  {
    hide Run;
    forall i | 0 <= i < |steps| ensures OrderlyAt(Before(dep, steps, i), steps[i]) {
      assert OneAtATime(Before(dep, steps, i), steps[i]);
    }
  }

  // --- what it keeps ---------------------------------------------------------------------------

  /** Pending rows still to be looked at have never been settled, and no row is held twice. */
  ghost predicate Held(s: State) { Fresh(s.polls, s.audit, s.open) && Apart(s.polls) }

  ghost predicate Fresh(polls: map<Id, Poll>, log: seq<Event>, open: map<nat, Await>) {
    forall p, i :: p in polls && 0 <= i < |polls[p].rows| && polls[p].rows[i].status.Pending? ==>
      Effects(log, open, polls[p].rows[i].id) == 0
  }

  predicate At(polls: map<Id, Poll>, p: Id, i: int) { p in polls && 0 <= i < |polls[p].rows| }

  ghost predicate Apart(polls: map<Id, Poll>) {
    forall p, i, q, k :: At(polls, p, i) && At(polls, q, k) && polls[p].rows[i].id == polls[q].rows[k].id ==>
        p == q && i == k
  }

  /** An orderly step settles only what is free. */
  lemma OrderlyIsSerialAt(s: State, step: Step)
    requires Inv(s) && Held(s) && OrderlyAt(s, step)
    ensures SerialAt(s, step)
  {
    hide Basic, Ledger, Queue, Effects;
    SettlesKnown(s, step);
    var settled := Settles(s, step);
    if settled.Some? {
      match step.d
      case DoDecide(_, r, _, _, _) => assert InFlight(s.open, r) == {};
      case DoPollNext(p) =>
        assert s.polls[p].rows[0].status.Pending?;
        FreeIsUnsettled(s, settled.value);
      case _ =>
    }
  }

  lemma FitsPolls(s: State, s': State, sh: Shape)
    requires Fits(s, s', sh)
    ensures s'.polls == s.polls
  {}

  lemma ReturnPolls(s: State, c: nat, local: Outcome, timedOut: bool)
    ensures Return(s, c, local, timedOut).polls == s.polls
  {
    hide Finish, OutcomeOf;
    if c in s.open { forall out { FinishPolls(s.(open := s.open - {c}), s.open[c], out); } }
  }

  lemma FinishPolls(s: State, w: Await, out: Outcome)
    ensures Finish(s, w, out).polls == s.polls
  {
    hide Close;
  }

  /** Only polling touches the polls. */
  lemma OtherPolls(s: State, d: DeskStep)
    requires !d.DoPollStart? && !d.DoPollNext?
    ensures DeskNext(s, d).polls == s.polls
  {
    hide Invoke, Decide, Return, OnlyTools, Connect, Disconnect, Fits;
    hide TerminalExec, TerminalHosts, TestSpec, CompleteOAuth;
    match d
    case DoInvoke(who, desk, tool, action, params) =>
      var sh := InvokeShape(s, who, desk, tool, action, params);
      FitsPolls(s, Invoke(s, who, desk, tool, action, params), sh);
    case DoDecide(approver, r, approve, reason, stop) => DecidePolls(s, approver, r, approve, reason, stop);
    case DoReturn(c, local, timedOut) => ReturnPolls(s, c, local, timedOut);
    case DoConnect(_, _, _, _, _, _) => ToolPolls(s, DeskNext(s, d));
    case DoDisconnect(_, _, _) => ToolPolls(s, DeskNext(s, d));
    case _ =>
      var sh := OwnShape(s, d);
      FitsPolls(s, DeskNext(s, d), sh);
  }

  lemma ToolPolls(s: State, s': State)
    requires OnlyTools(s, s')
    ensures s'.polls == s.polls
  {}

  lemma DecidePolls(s: State, approver: string, r: Id, approve: bool, reason: string, stop: bool)
    ensures Decide(s, approver, r, approve, reason, stop).polls == s.polls
  {
    hide Settle;
  }

  ghost predicate Once(rows: seq<Request>) {
    forall i, k :: 0 <= i < |rows| && 0 <= k < |rows| && rows[i].id == rows[k].id ==> i == k
  }

  ghost predicate StoredRow(reqs: map<Id, Request>, desk: Id, row: Request) {
    row.id in reqs && row == reqs[row.id] && row.desk == desk
  }

  /** The rows of a desk are stored rows of that desk, each once. */
  lemma {:induction false} RowsOfAre(reqs: map<Id, Request>, desk: Id, upto: Id)
    requires RowsOk(reqs)
    ensures var rows := RowsOf(reqs, desk, upto);
            (forall i :: 0 <= i < |rows| ==> rows[i].id < upto && StoredRow(reqs, desk, rows[i])) && Once(rows)
    decreases upto
  {
    if upto > 0 {
      RowsOfAre(reqs, desk, upto - 1);
      var rest := RowsOf(reqs, desk, upto - 1);
      if upto - 1 in reqs && reqs[upto - 1].desk == desk {
        assert RowsOf(reqs, desk, upto) == [reqs[upto - 1]] + rest;
      } else {
        assert RowsOf(reqs, desk, upto) == rest;
      }
    }
  }

  lemma PollStartHeld(s: State, who: string, desk: Id)
    requires Inv(s) && Held(s) && DeskIdle(s, desk)
    ensures Held(PollStart(s, who, desk))
  {
    hide Ledger, Queue, Effects, RowsOf;
    RowsOfAre(s.reqs, desk, s.next);
    var rows := RowsOf(s.reqs, desk, s.next);
    var polls' := s.polls[s.next := Poll(rows, None)];
    forall i | 0 <= i < |rows| && rows[i].status.Pending? ensures Effects(s.audit, s.open, rows[i].id) == 0 {
      assert StoredRow(s.reqs, desk, rows[i]);
      DeskIdleRow(s, desk, rows[i].id);
      FreeIsUnsettled(s, rows[i].id);
    }
    assert Fresh(polls', s.audit, s.open);
    NewRowsApart(s, desk, rows);
  }

  lemma DeskIdleRow(s: State, desk: Id, r: Id)
    requires OpenOk(s.open, s.reqs) && DeskIdle(s, desk) && r in s.reqs && s.reqs[r].desk == desk
    ensures InFlight(s.open, r) == {}
  {
    forall c | c in s.open && s.open[c].AwaitSettle? ensures s.open[c].row.id != r {
      assert AwaitOk(s.open[c], s.reqs);
    }
  }

  lemma NewRowsApart(s: State, desk: Id, rows: seq<Request>)
    requires PollsOk(s.polls, s.reqs) && Apart(s.polls) && DeskIdle(s, desk)
    requires forall i :: 0 <= i < |rows| ==> StoredRow(s.reqs, desk, rows[i])
    requires Once(rows)
    ensures Apart(s.polls[s.next := Poll(rows, None)])
  {
    forall p, i, k | p in s.polls && 0 <= i < |s.polls[p].rows| && 0 <= k < |rows|
      ensures s.polls[p].rows[i].id != rows[k].id
    {
      assert s.polls[p].rows[i] in s.polls[p].rows;
      assert CopyOf(s.polls[p].rows[i], s.reqs);
    }
  }

  lemma PollNextHeld(s: State, p: Id)
    requires Inv(s) && Held(s)
    ensures Held(PollNext(s, p))
  {
    hide Basic, Ledger, Queue, Effects, Settle;
    LedgerKept(s, AtDesk(DoPollNext(p)));
    if PollReady(s, p) {
      var rows, s' := s.polls[p].rows, PollNext(s, p);
      assert s'.polls == s.polls[p := s'.polls[p]] && s'.polls[p].rows == rows[1..];
      RestHeld(s, s', p);
    }
  }

  lemma RestApart(polls: map<Id, Poll>, rest: map<Id, Poll>, p: Id)
    requires Apart(polls) && p in polls && polls[p].rows != []
    requires p in rest && rest == polls[p := rest[p]] && rest[p].rows == polls[p].rows[1..]
    ensures Apart(rest)
    ensures forall q, k :: At(rest, q, k) ==> rest[q].rows[k].id != polls[p].rows[0].id
    ensures forall q, k :: At(rest, q, k) ==> rest[q].rows[k] == polls[q].rows[if q == p then k + 1 else k]
  {
    assert At(polls, p, 0);
    forall q, k | At(rest, q, k)
      ensures At(polls, q, if q == p then k + 1 else k)
      ensures rest[q].rows[k] == polls[q].rows[if q == p then k + 1 else k]
    {}
  }

  /** Dropping the row that a poll settled. */
  lemma RestHeld(s: State, s': State, p: Id)
    requires Held(s) && p in s.polls && s.polls[p].rows != []
    requires p in s'.polls && s'.polls == s.polls[p := s'.polls[p]] && s'.polls[p].rows == s.polls[p].rows[1..]
    requires Counts(s, s', None) || Counts(s, s', Some(s.polls[p].rows[0].id))
    ensures Held(s')
  {
    hide Effects;
    RestApart(s.polls, s'.polls, p);
    forall q, k | q in s'.polls && 0 <= k < |s'.polls[q].rows| && s'.polls[q].rows[k].status.Pending?
      ensures Effects(s'.audit, s'.open, s'.polls[q].rows[k].id) == 0
    {
      assert At(s'.polls, q, k);
      var row := s.polls[q].rows[if q == p then k + 1 else k];
      assert Effects(s.audit, s.open, row.id) == 0;
    }
  }

  /** A step that leaves the polls alone and settles nothing they hold. */
  lemma OtherHeld(s: State, s': State, settled: Option<Id>)
    requires Held(s) && s'.polls == s.polls && Counts(s, s', settled)
    requires settled.Some? ==> Unread(s, settled.value)
    ensures Held(s')
  {
    hide Effects;
    forall p, i | p in s'.polls && 0 <= i < |s'.polls[p].rows| && s'.polls[p].rows[i].status.Pending?
      ensures Effects(s'.audit, s'.open, s'.polls[p].rows[i].id) == 0
    {
      assert Effects(s.audit, s.open, s.polls[p].rows[i].id) == 0;
    }
  }

  lemma HeldKept(s: State, step: Step)
    requires Inv(s) && Held(s) && OrderlyAt(s, step)
    ensures Held(Next(s, step))
  {
    hide Basic, Ledger, Queue, Held, Counts, DeskNext, BridgeNext, AdminNext;
    LedgerKept(s, step);
    match step
    case AtDesk(d) =>
      if d.DoPollStart? {
        PollStartHeld(s, d.who, d.desk);
        PollSteps(s, d);
      } else if d.DoPollNext? {
        PollNextHeld(s, d.p);
        PollSteps(s, d);
      } else {
        OtherPolls(s, d);
        OtherHeld(s, DeskNext(s, d), DeskSettles(s, d));
      }
    case AtBridge(b) => QuietPolls(s, BridgeNext(s, b));
    case ByAdmin(a) => QuietPolls(s, AdminNext(s, a));
  }

  lemma PollSteps(s: State, d: DeskStep)
    ensures d.DoPollStart? ==> DeskNext(s, d) == PollStart(s, d.who, d.desk)
    ensures d.DoPollNext? ==> DeskNext(s, d) == PollNext(s, d.p)
  {
    hide PollStart, PollNext;
  }

  lemma QuietPolls(s: State, s': State)
    requires Held(s) && SameDesk(s, s')
    ensures Held(s')
  {}

  // --- a poll settles one row after the other ---------------------------------------------------------

  lemma PollsStep(s: State, step: Step, p: Id)
    ensures p in Next(s, step).polls ==> p in s.polls || p == s.next < Next(s, step).next
    ensures (step.AtDesk? && (step.d.DoPollStart? || step.d.DoPollNext?))
            || (p in s.polls ==> p in Next(s, step).polls && Next(s, step).polls[p] == s.polls[p])
  {
    hide DeskNext, BridgeNext, AdminNext, PollStart, PollNext;
    match step
    case AtDesk(d) =>
      PollSteps(s, d);
      if d.DoPollStart? { StartedPolls(s, d.who, d.desk); }
      else if d.DoPollNext? { NextPolls(s, d.p); }
      else { OtherPolls(s, d); }
    case _ =>
  }

  lemma StartedPolls(s: State, who: string, desk: Id)
    ensures var s' := PollStart(s, who, desk);
            s' == s || (s'.next == s.next + 1 && s.next in s'.polls && s'.polls == s.polls[s.next := s'.polls[s.next]])
  {
    hide RowsOf;
  }

  lemma NextPolls(s: State, p: Id)
    ensures var s' := PollNext(s, p);
            if PollReady(s, p) then p in s'.polls && s'.polls == s.polls[p := s'.polls[p]] else s' == s
    ensures PollReady(s, p) && |PollNext(s, p).calls| > |s.calls| ==> PollNext(s, p).polls[p].waiting == Some(|s.calls|)
  {
    hide Settle;
  }

  lemma {:induction false} PollsBelow(dep: Deployment, steps: seq<Step>, p: Id)
    requires p in Run(dep, steps).polls
    ensures p < Run(dep, steps).next
  {
    hide Next;
    var n := |steps| - 1;
    var s := Run(dep, steps[..n]);
    PollsStep(s, steps[n], p);
    NextIsLater(s, steps[n]);
    if p in s.polls { PollsBelow(dep, steps[..n], p); }
  }

  lemma NextIsLater(s: State, step: Step)
    ensures s.next <= Next(s, step).next
  {
    hide DeskNext, BridgeNext, AdminNext, OneCall, WaitsWithin;
    if step.AtDesk? { DeskOneCall(s, step.d); }
  }

  /** Call c has come back, or it is the one this poll waits for. */
  ghost predicate Waits(s: State, p: Id, c: nat) {
    c < |s.calls| && p < s.next && (c in s.open ==> p in s.polls && s.polls[p].waiting == Some(c))
  }

  lemma ClosedStays(s: State, step: Step, c: nat)
    requires c < |s.calls|
    ensures c < |Next(s, step).calls| && (c in Next(s, step).open ==> c in s.open)
  {
    hide DeskNext, BridgeNext, AdminNext;
    if step.AtDesk? { DeskOneCall(s, step.d); }
  }

  lemma WaitsKept(s: State, step: Step, p: Id, c: nat)
    requires Waits(s, p, c)
    ensures Waits(Next(s, step), p, c)
  {
    hide DeskNext, BridgeNext, AdminNext, PollStart, PollNext;
    ClosedStays(s, step, c);
    NextIsLater(s, step);
    PollsStep(s, step, p);
    if step.AtDesk? {
      PollSteps(s, step.d);
      if step.d.DoPollStart? { StartedPolls(s, step.d.who, step.d.desk); }
      if step.d.DoPollNext? { NextPolls(s, step.d.p); }
    }
  }

  /** Over every run: while a settlement that a poll began waits for its external call, that poll goes no
    * further, whatever else happens meanwhile. */
  lemma {:induction false} PollSettlesOneAtATime(dep: Deployment, steps: seq<Step>, p: Id, i: nat, k: nat)
    requires i < k < |steps| && steps[i] == steps[k] == AtDesk(DoPollNext(p))
    requires |Before(dep, steps, i).calls| < |Before(dep, steps, i + 1).calls|
    ensures |Before(dep, steps, i).calls| in Before(dep, steps, k).open ==>
              Before(dep, steps, k + 1) == Before(dep, steps, k)
  {
    hide Run, Next, PollNext;
    var s, c := Before(dep, steps, i), |Before(dep, steps, i).calls|;
    RunStep(dep, steps, i);
    RunStep(dep, steps, k);
    StepIsPollNext(s, p);
    StepIsPollNext(Before(dep, steps, k), p);
    NextPolls(s, p);
    PollsBelow(dep, steps[..i], p);
    NextIsLater(s, steps[i]);
    WaitsOverRun(dep, steps, i + 1, k, p, c);
    NextPolls(Before(dep, steps, k), p);
  }

  lemma StepIsPollNext(s: State, p: Id)
    ensures Next(s, AtDesk(DoPollNext(p))) == PollNext(s, p)
  {
    hide PollNext;
  }

  lemma {:induction false} WaitsOverRun(dep: Deployment, steps: seq<Step>, i: nat, k: nat, p: Id, c: nat)
    requires i <= k <= |steps| && Waits(Before(dep, steps, i), p, c)
    ensures Waits(Before(dep, steps, k), p, c)
    decreases k
  {
    hide Run, Next, Waits;
    if i < k {
      WaitsOverRun(dep, steps, i, k - 1, p, c);
      RunStep(dep, steps, k - 1);
      WaitsKept(Before(dep, steps, k - 1), steps[k - 1], p, c);
    }
  }

  // --- the theorems ---------------------------------------------------------------------------------

  lemma OrderlyPrefix(dep: Deployment, steps: seq<Step>)
    requires steps != [] && Orderly(dep, steps)
    ensures var n := |steps| - 1; Orderly(dep, steps[..n]) && OrderlyAt(Run(dep, steps[..n]), steps[n])
  {
    hide Run, OrderlyAt;
    var n := |steps| - 1;
    forall i | 0 <= i < n ensures OrderlyAt(Before(dep, steps[..n], i), steps[..n][i]) {
      assert steps[..n][..i] == steps[..i];
      assert OrderlyAt(Before(dep, steps, i), steps[i]);
    }
    assert OrderlyAt(Before(dep, steps, n), steps[n]);
  }

  /** A run whose callers keep the discipline is serial: every settlement finds its request free. */
  lemma {:induction false} OrderlyIsSerial(dep: Deployment, steps: seq<Step>)
    requires Orderly(dep, steps)
    ensures Serial(dep, steps) && Held(Run(dep, steps))
  {
    hide Orderly, Serial, OrderlyAt, SerialAt, Held, Inv, Next;
    if steps == [] {
      NothingSettled(dep);
      NothingHeld(dep);
    } else {
      var n := |steps| - 1;
      OrderlyPrefix(dep, steps);
      OrderlyIsSerial(dep, steps[..n]);
      RunInv(dep, steps[..n]);
      OrderlyIsSerialAt(Run(dep, steps[..n]), steps[n]);
      HeldKept(Run(dep, steps[..n]), steps[n]);
      SerialExtends(dep, steps);
    }
  }

  lemma NothingHeld(dep: Deployment)
    ensures Held(Run(dep, []))
  {}

  /** Under the discipline every write request starts at most one external call over the whole run,
    * and has exactly one executed, failed or rejected receipt once it is settled. */
  lemma WritesRunAtMostOnce(dep: Deployment, steps: seq<Step>)
    requires Orderly(dep, steps)
    ensures var s := Run(dep, steps);
            && (forall r, c, d :: SettlesBy(s.calls, r, c) && SettlesBy(s.calls, r, d) ==> c == d)
            && (forall r :: r in s.reqs ==> Settled(s.audit, r) == One(!s.reqs[r].status.Pending?))
  {
    hide Orderly, Serial, Run;
    OrderlyIsSerial(dep, steps);
    SerialRunsExecuteOnce(dep, steps);
  }

  lemma OneCallEach(dep: Deployment, steps: seq<Step>, r: Id, c: nat, d: nat)
    requires Orderly(dep, steps) && SettlesBy(Run(dep, steps).calls, r, c) && SettlesBy(Run(dep, steps).calls, r, d)
    ensures c == d
  {
    hide *;
    WritesRunAtMostOnce(dep, steps);
  }

  /** The discipline allows a stop between gate and settlement, with the desk's next poll settling. */
  lemma StopAndRecoveryIsOrderly()
    ensures Orderly(ONE_DESK, [CONNECT, ASK, STOP, READ, POLL, DONE])
  {
    hide Run;
    var steps := [CONNECT, ASK, STOP, READ, POLL, DONE];
    AskedState();
    StoppedState();
    assert steps[..2] == [CONNECT, ASK] && steps[..3] == [CONNECT, ASK, STOP];
    forall i | 0 <= i < |steps| ensures OrderlyAt(Before(ONE_DESK, steps, i), steps[i]) {
      if i == 2 { assert steps[i] == STOP; } else if i == 3 { assert steps[i] == READ; }
    }
  }

  /** And it reaches the on-premises agent at most once. */
  lemma WritesReachTheAgentAtMostOnce(dep: Deployment, steps: seq<Step>, r: Id, i: nat, k: nat)
    requires Orderly(dep, steps)
    requires var s := Run(dep, steps);
             i < |s.handed| && k < |s.handed| && CarriesWrite(s, s.handed[i], r) && CarriesWrite(s, s.handed[k], r)
    ensures i == k
  {
    hide Orderly, Serial, Run, CarriesWrite;
    OrderlyIsSerial(dep, steps);
    WriteReachesAgentOnce(dep, steps, r, i, k);
  }
}
