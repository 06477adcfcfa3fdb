/** More promises over whole runs: direct writes, the kill switch, the bridge's agent, and the
  * promises the code does not keep, each with the exact condition under which it does. */
module WriteBackGuarantees {
  import opened Options
  import opened Records
  import opened WriteBack
  import opened WriteBackInvariants
  import opened WriteBackLedger
  import opened WriteBackJobs
  import opened WriteBackHistory
  import opened WriteBackSteps
  import opened WriteBackTheorems

  // --- writes and the kill switch --------------------------------------------------------

  /** The keys under which the service records calls of its own. */
  const RESERVED := {"custom", "ssh", "oauth"}

  /** Begun in this state as the settlement of an approved request, or as a direct action while neither the
    * switch nor the approval policy was on. */
  predicate Governed(s: State, call: Call) {
    !s.halted
    && (call.origin.Settlement?
        || (call.origin.DirectWrite? && !s.policy.requireApproval
            && DeclaredWrite(s.dep, call.key, call.action)
            && ActionOf(s.dep, call.key, call.action).value.direct))
  }

  /** Every declared write that reached an external system is governed, for any catalogue; a call that
    * merely shares its name with one is no write but a read, terminal, diagnostic or sign-in call under
    * one of the reserved keys. */
  lemma EveryWriteIsGoverned(dep: Deployment, steps: seq<Step>, c: nat) returns (k: nat)
    requires c < |Run(dep, steps).calls|
    requires DeclaredWrite(dep, Run(dep, steps).calls[c].key, Run(dep, steps).calls[c].action)
    ensures k < |steps| && |Before(dep, steps, k).calls| == c < |Before(dep, steps, k + 1).calls|
    ensures var call := Run(dep, steps).calls[c];
            if call.origin.Settlement? || call.origin.DirectWrite?
            then Governed(Before(dep, steps, k), call) else call.key in RESERVED
  {
    hide Basic, Ledger, Queue;
    k := CallBegan(dep, steps, c);
    RunInv(dep, steps);
    RunDep(dep, steps);
    RunDep(dep, steps[..k]);
    BasicCalls(Run(dep, steps), c);
  }

  lemma BasicCalls(s: State, c: nat)
    requires Basic(s) && c < |s.calls|
    ensures CallOk(s.dep, s.calls[c], s.reqs)
  {}

  /** While the switch is on, a step starts an external call exactly when it lists terminal hosts,
    * previews a spec or exchanges a sign-in code: these three do not read the switch. */
  lemma HaltedStartsOnlyUnguarded(s: State, step: Step)
    requires s.halted
    ensures Next(s, step).calls != s.calls <==> UnguardedStarts(s, step)
  {
    hide RunTool, BridgeStart, DeskNext;
    match step
    case AtDesk(d) => HaltedDesk(s, d);
    case _ =>
  }

  predicate UnguardedStarts(s: State, step: Step) {
    step.AtDesk? &&
    match step.d
    case DoTerminalHosts(who, desk, b) => Owns(s.dep, who, desk) &&
      BridgeStart(s, Diagnostic(who), b, "ssh", "hosts", map[], AwaitNothing).Started?
    case DoTestSpec(who, desk, via) => Owns(s.dep, who, desk) &&
      (via.Some? ==> BridgeStart(s, Diagnostic(who), via.value, "custom", "list", map[], AwaitNothing).Started?)
    case DoCompleteOAuth(tool) => tool in s.tools && SignsIn(s.dep, s.tools[tool])
    case _ => false
  }

  lemma HaltedDesk(s: State, d: DeskStep)
    requires s.halted
    ensures DeskNext(s, d).calls != s.calls <==> UnguardedStarts(s, AtDesk(d))
  {
    hide RunTool, BridgeStart, OwnCall, OutcomeOf, Finish, Settle, Invoke, RowsOf, OnlyTools, Connect, Disconnect;
    match d
    case DoInvoke(who, desk, tool, action, params) => HaltedInvoke(s, who, desk, tool, action, params);
    case DoDecide(approver, r, _, _, _) =>
      if r in s.reqs { HaltedSettle(ApproveGate(s, r, approver), s.reqs[r].(approver := Some(approver))); }
    case DoPollNext(p) => if PollReady(s, p) { HaltedSettle(s, s.polls[p].rows[0]); }
    case DoReturn(c, _, _) => if c in s.open { forall out { FinishCalls(s.(open := s.open - {c}), s.open[c], out); } }
    case DoConnect(_, _, _, _, _, _) => ToolsCalls(s, DeskNext(s, d));
    case DoDisconnect(_, _, _) => ToolsCalls(s, DeskNext(s, d));
    case _ =>
  }

  lemma ToolsCalls(s: State, s': State)
    requires OnlyTools(s, s')
    ensures s'.calls == s.calls
  {}

  lemma HaltedInvoke(s: State, who: string, desk: Id, tool: Id, action: string, params: Payload)
    requires s.halted
    ensures Invoke(s, who, desk, tool, action, params) == s
  {
    hide RunTool, InvokeSpec, RequestWrite;
  }

  lemma HaltedSettle(s: State, row: Request)
    requires s.halted
    ensures Settle(s, row).calls == s.calls
  {
    hide RunTool;
  }

  lemma FinishCalls(s: State, w: Await, out: Outcome)
    ensures Finish(s, w, out).calls == s.calls
  {}

  // --- the agent ---------------------------------------------------------------------------

  /** In any run every job is handed to its agent at most once, and what is handed is not
    * pending any more. */
  lemma JobsAreHandedOnce(dep: Deployment, steps: seq<Step>)
    ensures var s := Run(dep, steps);
            && (forall i, k :: 0 <= i < k < |s.handed| ==> s.handed[i] != s.handed[k])
            && (forall j :: j in s.handed ==> j in s.jobs && !s.jobs[j].status.JobPending?)
  {
    RunInv(dep, steps);
  }

  /** Once out of the pending state a job never returns to it, and it keeps its bridge and content. */
  lemma {:induction false} JobsNeverReturnToPending(dep: Deployment, steps: seq<Step>, i: nat)
    requires i <= |steps|
    ensures JobsGrow(Before(dep, steps, i).jobs, Run(dep, steps).jobs)
  {
    hide Queue, Next;
    var n := |steps| - 1;
    if i == |steps| {
      assert steps[..i] == steps;
    } else {
      JobsNeverReturnToPending(dep, steps[..n], i);
      assert steps[..n][..i] == steps[..i];
      RunInv(dep, steps[..n]);
      QueueKept(Run(dep, steps[..n]), steps[n]);
    }
  }

  /** This job carries the write of request r. */
  ghost predicate CarriesWrite(s: State, j: Id, r: Id) {
    exists c: nat :: c < |s.calls| && s.calls[c].channel == ViaBridge(j) && s.calls[c].origin == Settlement(r)
  }

  /** In a serial run an approved write reaches the on-premises agent at most once. */
  lemma WriteReachesAgentOnce(dep: Deployment, steps: seq<Step>, r: Id, i: nat, k: nat)
    requires Serial(dep, steps)
    requires var s := Run(dep, steps);
             i < |s.handed| && k < |s.handed| && CarriesWrite(s, s.handed[i], r) && CarriesWrite(s, s.handed[k], r)
    ensures i == k
  {
    var s := Run(dep, steps);
    SerialRunsExecuteOnce(dep, steps);
    RunInv(dep, steps);
    var c: nat :| c < |s.calls| && s.calls[c].channel == ViaBridge(s.handed[i]) && s.calls[c].origin == Settlement(r);
    var d: nat :| d < |s.calls| && s.calls[d].channel == ViaBridge(s.handed[k]) && s.calls[d].origin == Settlement(r);
    assert SettlesBy(s.calls, r, c) && SettlesBy(s.calls, r, d);
  }

  /** A result a waiting call takes from the bridge is one the owning bridge submitted for that
    * very job, the empty result standing for an empty text; the job carries what the call asked. */
  lemma ResultWasSubmitted(dep: Deployment, steps: seq<Step>, c: nat, j: Id, res: Payload)
    requires var s := Run(dep, steps);
             c in s.open && c < |s.calls| && s.calls[c].channel == ViaBridge(j)
             && OutcomeOf(s, c, Raised(NoFault), false) == Some(Returned(res))
    ensures var s := Run(dep, steps);
            && j in s.jobs && s.jobs[j].key == s.calls[c].key && s.jobs[j].action == s.calls[c].action
            && s.jobs[j].params == s.calls[c].params
            && exists sent: Payload :: res == (if sent == map[] then map["text" := ""] else sent)
                 && Submission(s.jobs[j].bridge, j, Answer(sent, "")) in s.submitted
  {
    RunInv(dep, steps);
    var s := Run(dep, steps);
    assert JobOf(s.calls[c], s.jobs);
    assert Submission(s.jobs[j].bridge, j, Answer(s.jobs[j].result, "")) in s.submitted;
  }

  // --- a failed write may still reach the agent ----------------------------------------------

  /** Polling hands the agent exactly its pending jobs, whatever became of the request and
    * whether or not the kill switch is on. */
  lemma ClaimHandsEveryPendingJob(s: State, b: Id, secret: int, j: Id)
    requires Queue(s) && Authentic(s, b, secret)
    ensures var s' := ClaimJobs(s, b, secret);
            s.handed <= s'.handed
            && (j in s'.handed[|s.handed|..] <==> j in s.jobs && s.jobs[j].bridge == b && s.jobs[j].status.JobPending?)
  {
    PendingOfIs(s.jobs, b, s.next);
    var s' := ClaimJobs(s, b, secret);
    assert s'.handed[|s.handed|..] == PendingOf(s.jobs, b, s.next);
  }

  // one desk, one connector with an approval-gated write
  const ONE_DESK := Deployment(
    map["crm" := Connector(false, true, map["update" := Action(Write, false)])], map[], map[0 := "ann"])

  const CONNECT := AtDesk(DoConnect("ann", 0, "crm", None, false, true))
  const ASK := AtDesk(DoInvoke("ann", 0, 0, "update", map[]))
  const ROW := Request(1, 0, "ann", 0, "crm", "update", map[], Pending, None, None, NoFault)

  /** The desk has asked for one write: request 1. */
  lemma AskedState()
    ensures var s := Run(ONE_DESK, [CONNECT, ASK]);
            && s.reqs == map[1 := ROW] && s.gate == map[1 := Gate(GatePending, None)] && s.next == 2
            && s.tools == map[0 := Tool(0, "ann", "crm", None, false, true)] && s.dep == ONE_DESK
            && s.polls == map[] && s.open == map[] && s.calls == [] && !s.halted
  {
    hide Settle, Decide, PollStart, PollNext, Return;
    Takes(ONE_DESK, [], CONNECT);
    Takes(ONE_DESK, [CONNECT], ASK);
    assert [CONNECT] + [ASK] == [CONNECT, ASK] && [] + [CONNECT] == [CONNECT];
  }

  const APPROVE := AtDesk(DoDecide("bob", 1, true, "", false))
  const READ := AtDesk(DoPollStart("ann", 0))
  const POLL := AtDesk(DoPollNext(2))

  /** Approval has started the write; its external call has not returned. */
  lemma ApprovedState()
    ensures var s := Run(ONE_DESK, [CONNECT, ASK, APPROVE]);
            && s.reqs == map[1 := ROW] && Approved(s, 1) && s.next == 2 && !s.halted && s.dep == ONE_DESK
            && s.tools == map[0 := Tool(0, "ann", "crm", None, false, true)] && s.polls == map[]
            && |s.calls| == 1 && s.calls[0].origin == Settlement(1) && s.calls[0].channel == Local
            && s.open == map[0 := AwaitSettle(ROW.(approver := Some("bob")))]
  {
    AskedState();
    hide Settle, Invoke, Run, PollStart, PollNext, Return;
    Takes(ONE_DESK, [CONNECT, ASK], APPROVE);
    assert [CONNECT, ASK] + [APPROVE] == [CONNECT, ASK, APPROVE];
    var s := Run(ONE_DESK, [CONNECT, ASK]);
    SettleRuns(ApproveGate(s, 1, "bob"), ROW.(approver := Some("bob")));
  }

  /** On this desk, settling an approved request starts its call and changes nothing else. */
  lemma SettleRuns(s: State, row: Request)
    requires Approved(s, row.id) && !s.halted && s.dep == ONE_DESK && row.tool == 0 && row.key == "crm"
    requires 0 in s.tools && s.tools[0] == Tool(0, "ann", "crm", None, false, true)
    ensures var s' := Settle(s, row);
            && s'.reqs == s.reqs && s'.gate == s.gate && s'.next == s.next && s'.halted == s.halted && s'.dep == s.dep
            && s'.tools == s.tools && s'.polls == s.polls
            && |s'.calls| == |s.calls| + 1 && s'.calls[..|s.calls|] == s.calls
            && s'.calls[|s.calls|].origin == Settlement(row.id) && s'.calls[|s.calls|].channel == Local
            && s'.open == s.open[|s.calls| := AwaitSettle(row)]
  {}

  lemma ReadState(steps: seq<Step>, s: State)
    requires s == Run(ONE_DESK, steps) && s.dep == ONE_DESK && s.reqs == map[1 := ROW] && s.next == 2
    ensures Run(ONE_DESK, steps + [READ]) == s.(polls := s.polls[2 := Poll([ROW], None)], next := 3)
  {
    Takes(ONE_DESK, steps, READ);
    assert RowsOf(s.reqs, 0, 1) == [];
    assert RowsOf(s.reqs, 0, 2) == [ROW];
  }

  /** A desk poll while an approved write is still waiting for its external call starts the same
    * write again: the row says pending until the first call returns. */
  lemma OverlapRunsTwice()
    ensures var s := Run(ONE_DESK, [CONNECT, ASK, APPROVE, READ, POLL]);
            |s.calls| == 2 && s.calls[0].origin == Settlement(1) && s.calls[1].origin == Settlement(1)
  {
    hide Settle, Invoke, Decide, PollStart, PollNext, Return;
    var p3 := [CONNECT, ASK, APPROVE];
    ApprovedState();
    ReadState(p3, Run(ONE_DESK, p3));
    Takes(ONE_DESK, p3 + [READ], POLL);
    assert p3 + [READ] + [POLL] == [CONNECT, ASK, APPROVE, READ, POLL];
    PollRuns(Run(ONE_DESK, p3 + [READ]));
  }

  /** The poll of an approved pending row starts its external call. */
  lemma PollRuns(s: State)
    requires 2 in s.polls && s.polls[2] == Poll([ROW], None) && Approved(s, 1) && !s.halted && s.dep == ONE_DESK
    requires 0 in s.tools && s.tools[0] == Tool(0, "ann", "crm", None, false, true)
    ensures var s' := PollNext(s, 2);
            && |s'.calls| == |s.calls| + 1 && s'.calls[..|s.calls|] == s.calls
            && s'.calls[|s.calls|].origin == Settlement(1) && s'.calls[|s.calls|].channel == Local
            && s'.open == s.open[|s.calls| := AwaitSettle(ROW)]
  {
    SettleRuns(s, ROW);
    hide Settle;
  }

  // --- who is recorded as the approver ---------------------------------------------------------

  /** A settlement carries the approver's name exactly when the deciding call itself settles: the
    * desk poll that recovers an approved request carries none. */
  lemma SettlementCarriesApprover(s: State, step: DeskStep)
    requires Basic(s) && (step.DoDecide? || step.DoPollNext?)
    requires |DeskNext(s, step).calls| == |s.calls| + 1
    ensures var s' := DeskNext(s, step);
            |s.calls| in s'.open && s'.open[|s.calls|].AwaitSettle?
            && s'.open[|s.calls|].row.approver == if step.DoDecide? then Some(step.approver) else None
  {
    hide Settle;
    match step
    case DoDecide(approver, r, _, _, _) =>
      if r in s.reqs { SettleOpens(ApproveGate(s, r, approver), s.reqs[r].(approver := Some(approver))); }
    case DoPollNext(p) =>
      if PollReady(s, p) {
        assert CopyOf(s.polls[p].rows[0], s.reqs) && Unsigned(s.polls[p].rows[0]);
        SettleOpens(s, s.polls[p].rows[0]);
      }
  }

  lemma SettleOpens(s: State, row: Request)
    ensures Settle(s, row).calls == s.calls
            || (|Settle(s, row).calls| == |s.calls| + 1 && Settle(s, row).open == s.open[|s.calls| := AwaitSettle(row)])
  {
    hide RunTool, Close;
  }

  /** The row a settlement leaves: executed with the result, or failed with the reason. */
  ghost predicate Stores(row: Request, stored: Request, out: Outcome) {
    SameAsk(row, stored) && stored.approver == row.approver
    && match out
       case Returned(res) => stored.status == Executed && stored.result == Some(res)
       case Raised(why) => stored.status == Failed && stored.reason == why && stored.result == row.result
  }

  lemma FinishStores(s: State, w: Await, out: Outcome)
    requires w.AwaitSettle?
    ensures w.row.id in Finish(s, w, out).reqs && Stores(w.row, Finish(s, w, out).reqs[w.row.id], out)
  {}

  /** The stored row ends with what the call gave and with the approver its settlement carried. */
  lemma ReturnStoresOutcome(s: State, c: nat, local: Outcome, timedOut: bool)
    requires c in s.open && s.open[c].AwaitSettle? && OutcomeOf(s, c, local, timedOut).Some?
    ensures var row, s' := s.open[c].row, Return(s, c, local, timedOut);
            row.id in s'.reqs && Stores(row, s'.reqs[row.id], OutcomeOf(s, c, local, timedOut).value)
  {
    hide OutcomeOf, Finish, Stores;
    FinishStores(s.(open := s.open - {c}), s.open[c], OutcomeOf(s, c, local, timedOut).value);
  }

  const STOP := AtDesk(DoDecide("bob", 1, true, "", true))
  const DONE := AtDesk(DoReturn(0, Returned(map[]), false))

  /** An approval that stops before settling: the gate says approved, nothing has run. */
  lemma StoppedState()
    ensures var s := Run(ONE_DESK, [CONNECT, ASK, STOP]);
            && s.reqs == map[1 := ROW] && s.gate == map[1 := Gate(GateApproved, Some("bob"))] && s.next == 2
            && !s.halted
            && s.dep == ONE_DESK && s.tools == map[0 := Tool(0, "ann", "crm", None, false, true)] && s.polls == map[]
            && s.calls == [] && s.open == map[]
  {
    hide Settle, Invoke, Run, PollStart, PollNext, Return;
    AskedState();
    Takes(ONE_DESK, [CONNECT, ASK], STOP);
    assert [CONNECT, ASK] + [STOP] == [CONNECT, ASK, STOP];
  }

  /** Recovered by a poll, the executed row names no approver although the gate does. */
  lemma RecoveredWriteLosesApprover()
    ensures var s := Run(ONE_DESK, [CONNECT, ASK, STOP, READ, POLL, DONE]);
            1 in s.reqs && s.reqs[1].status == Executed && s.reqs[1].approver == None
            && 1 in s.gate && s.gate[1].approver == Some("bob")
  {
    hide Next, Settle;
    var p3 := [CONNECT, ASK, STOP];
    StoppedState();
    ReadState(p3, Run(ONE_DESK, p3));
    var s4 := Run(ONE_DESK, p3 + [READ]);
    Takes(ONE_DESK, p3 + [READ], POLL);
    Takes(ONE_DESK, p3 + [READ] + [POLL], DONE);
    assert p3 + [READ] + [POLL] + [DONE] == [CONNECT, ASK, STOP, READ, POLL, DONE];
    PollReturns(s4);
  }

  lemma PollReturns(s: State)
    requires 2 in s.polls && s.polls[2] == Poll([ROW], None) && Approved(s, 1) && !s.halted && s.dep == ONE_DESK
    requires 0 in s.tools && s.tools[0] == Tool(0, "ann", "crm", None, false, true) && s.calls == []
    ensures var s' := Next(Next(s, POLL), DONE);
            1 in s'.reqs && s'.reqs[1].status == Executed && s'.reqs[1].approver == None && s'.gate == s.gate
  {
    hide Settle;
    PollRuns(s);
    PollGate(s);
  }

  lemma PollGate(s: State)
    requires 2 in s.polls && s.polls[2] == Poll([ROW], None)
    ensures PollNext(s, 2).gate == s.gate
  {
    hide Settle;
    if PollReady(s, 2) { SettleKeepsGate(s, ROW); }
  }

  lemma SettleKeepsGate(s: State, row: Request)
    ensures Settle(s, row).gate == s.gate
  {
    hide RunTool, Close;
  }

  // --- a write recorded as failed may still reach the agent --------------------------------------

  /** A bridge write whose wait timed out is recorded as failed, yet its job is still pending: the
    * next poll of the agent is handed the write, even with the kill switch on. */
  lemma TimedOutWriteStillReachesAgent(dep: Deployment, steps: seq<Step>, c: nat, j: Id, secret: int)
    requires var s := Run(dep, steps);
             && c in s.open && s.open[c].AwaitSettle? && c < |s.calls| && s.calls[c].channel == ViaBridge(j)
             && j in s.jobs && s.jobs[j].status.JobPending? && Authentic(s, s.jobs[j].bridge, secret)
    ensures var s := Run(dep, steps);
            var s' := Next(Next(Next(s, AtDesk(DoReturn(c, Raised(NoFault), true))), ByAdmin(DoHalt(""))),
                           AtBridge(DoClaimJobs(s.jobs[j].bridge, secret)));
            && s'.halted && s.open[c].row.id in s'.reqs && s'.reqs[s.open[c].row.id].status.Failed?
            && j !in s.handed && j in s'.handed
  {
    hide ClaimJobs, Queue, Return, JobsGrow;
    var s := Run(dep, steps);
    var s1 := Return(s, c, Raised(NoFault), true);
    RunInv(dep, steps);
    TimeoutFails(s, c, Raised(NoFault), j);
    QueueKept(s, AtDesk(DoReturn(c, Raised(NoFault), true)));
    var s2 := AdminNext(s1, DoHalt(""));
    QueueKept(s1, ByAdmin(DoHalt("")));
    ClaimHandsEveryPendingJob(s2, s.jobs[j].bridge, secret, j);
    PendingIsNotHanded(s, j);
  }

  lemma PendingIsNotHanded(s: State, j: Id)
    requires Queue(s) && j in s.jobs && s.jobs[j].status.JobPending?
    ensures j !in s.handed
  {}

  lemma TimeoutFails(s: State, c: nat, local: Outcome, j: Id)
    requires c in s.open && s.open[c].AwaitSettle? && c < |s.calls| && s.calls[c].channel == ViaBridge(j)
    ensures var s', r := Return(s, c, local, true), s.open[c].row.id;
            && r in s'.reqs && s'.reqs[r].status.Failed? && s'.jobs == s.jobs && s'.bridges == s.bridges
            && s'.handed == s.handed
  {
    hide Finish, Close;
    var s1 := s.(open := s.open - {c});
    SettleFinish(s1, s.open[c], Raised(NoAnswerInTime));
    CloseFails(s1, s.open[c].row, NoAnswerInTime);
  }

  lemma CloseFails(s: State, row: Request, why: Fault)
    ensures var s' := Close(s, row, Raised(why));
            && row.id in s'.reqs && s'.reqs[row.id].status.Failed? && s'.jobs == s.jobs && s'.bridges == s.bridges
            && s'.handed == s.handed
  {}

  /** This step is a poll of the job's own bridge, authenticated, that finds the job still pending. */
  predicate PollsPending(s: State, step: Step, j: Id) {
    step.AtBridge? && step.b.DoClaimJobs? && j in s.jobs && s.jobs[j].bridge == step.b.b
    && Authentic(s, step.b.b, step.b.secret) && s.jobs[j].status.JobPending?
  }

  lemma StepHands(s: State, step: Step, j: Id)
    requires Queue(s)
    ensures s.handed <= Next(s, step).handed
    ensures j in Next(s, step).handed[|s.handed|..] <==> PollsPending(s, step, j)
  {
    hide DeskNext, AdminNext, BridgeNext, ClaimJobs, Authentic;
    match step
    case AtDesk(d) => DeskOneCall(s, d);
    case ByAdmin(_) =>
    case AtBridge(b) => if b.DoClaimJobs? { ClaimHands(s, b.b, b.secret, j); }
  }

  lemma ClaimHands(s: State, b: Id, secret: int, j: Id)
    requires Queue(s)
    ensures BridgeNext(s, DoClaimJobs(b, secret)) == ClaimJobs(s, b, secret)
    ensures var handed := ClaimJobs(s, b, secret).handed;
            s.handed <= handed
            && (j in handed[|s.handed|..]
                <==> Authentic(s, b, secret) && j in s.jobs && s.jobs[j].bridge == b && s.jobs[j].status.JobPending?)
  {
    hide PendingOf;
    PendingOfIs(s.jobs, b, s.next);
  }

  /** From any point of a run on, a job is handed to an agent if and only if its own bridge polls while it
    * is still pending. */
  lemma {:induction false} HandedLaterIff(dep: Deployment, steps: seq<Step>, n: nat, j: Id)
    requires n <= |steps|
    ensures var was, now := Before(dep, steps, n).handed, Run(dep, steps).handed;
            was <= now
            && (j in now[|was|..]
                <==> exists k :: n <= k < |steps| && PollsPending(Before(dep, steps, k), steps[k], j))
  {
    hide Next, Basic, Ledger, Queue, PollsPending;
    if n == |steps| {
      assert steps[..n] == steps;
    } else {
      var m := |steps| - 1;
      HandedLaterIff(dep, steps[..m], n, j);
      SamePrefixes(steps, m);
      RunInv(dep, steps[..m]);
      var s := Run(dep, steps[..m]);
      StepHands(s, steps[m], j);
      HandedGrow(Before(dep, steps, n).handed, s.handed, Next(s, steps[m]).handed, j);
      assert forall k :: n <= k < m ==> Before(dep, steps[..m], k) == Before(dep, steps, k);
    }
  }

  lemma SamePrefixes(steps: seq<Step>, m: nat)
    requires m <= |steps|
    ensures forall k: nat :: k <= m ==> steps[..m][..k] == steps[..k]
  {}

  lemma HandedGrow(a: seq<Id>, b: seq<Id>, c: seq<Id>, j: Id)
    requires a <= b <= c
    ensures a <= c && (j in c[|a|..] <==> j in b[|a|..] || j in c[|b|..])
  {
    assert c[|a|..] == b[|a|..] + c[|b|..];
  }

  /** So a write recorded as failed on a timeout still reaches the agent if and only if its bridge later
    * polls while the job is pending. */
  lemma TimedOutWriteIsHandedIff(dep: Deployment, steps: seq<Step>, i: nat, j: Id)
    requires i < |steps| && steps[i].AtDesk? && steps[i].d.DoReturn? && steps[i].d.timedOut
    requires var s, c := Before(dep, steps, i), steps[i].d.c;
             c in s.open && s.open[c].AwaitSettle? && c < |s.calls| && s.calls[c].channel == ViaBridge(j)
    ensures var s, s' := Before(dep, steps, i), Before(dep, steps, i + 1); var r := s.open[steps[i].d.c].row.id;
            r in s'.reqs && s'.reqs[r].status.Failed?
    ensures var was := Before(dep, steps, i + 1).handed;
            |was| <= |Run(dep, steps).handed|
            && (j in Run(dep, steps).handed[|was|..]
                <==> exists k :: i < k < |steps| && PollsPending(Before(dep, steps, k), steps[k], j))
  {
    hide Return, PollsPending, Run;
    RunStep(dep, steps, i);
    TimeoutFails(Before(dep, steps, i), steps[i].d.c, steps[i].d.local, j);
    HandedLaterIff(dep, steps, i + 1, j);
  }

  // --- pairing -----------------------------------------------------------------------------------

  /** A bridge that is gone stays gone, and a spent pairing secret is never available again. */
  ghost predicate Shrinks(s: State, s': State) { s.next <= s'.next && ShrinkFrom(s.bridges, s'.bridges, s.next) }

  ghost predicate ShrinkFrom(bridges: map<Id, Bridge>, bridges': map<Id, Bridge>, next: Id) {
    forall b :: b < next && b in bridges' ==>
      b in bridges && (bridges'[b].pairSecret.Some? ==> bridges[b].pairSecret.Some?)
  }

  lemma PairShrinks(s: State, desk: Id, code: string)
    ensures Shrinks(s, Pair(s, desk, code))
  {}

  lemma RowShrinks(bridges: map<Id, Bridge>, b: Id, row: Bridge, next: Id)
    requires b in bridges && (row.pairSecret.Some? ==> bridges[b].pairSecret.Some?)
    ensures ShrinkFrom(bridges, bridges[b := row], next) && ShrinkFrom(bridges, bridges, next)
  {}

  lemma NothingShrinks(bridges: map<Id, Bridge>, b: Id, next: Id)
    ensures ShrinkFrom(bridges, bridges, next) && ShrinkFrom(bridges, bridges - {b}, next)
  {}

  lemma ClaimShrinks(s: State, code: string)
    ensures Shrinks(s, Claim(s, code))
  {
    hide ClaimToken, ShrinkFrom;
    NothingShrinks(s.bridges, 0, s.next);
    var t := ClaimToken(s, code);
    if t.Some? && t.value.0 in s.bridges {
      RowShrinks(s.bridges, t.value.0, s.bridges[t.value.0].(pairSecret := None, expires := None), s.next);
    }
  }

  lemma RowsShrink(s: State, b: Id, row: Bridge)
    requires b in s.bridges ==> row.pairSecret == s.bridges[b].pairSecret
    ensures b in s.bridges ==> ShrinkFrom(s.bridges, s.bridges[b := row], s.next)
    ensures ShrinkFrom(s.bridges, s.bridges, s.next) && ShrinkFrom(s.bridges, s.bridges - {b}, s.next)
  {}

  lemma BridgeShrinks(s: State, step: BridgeStep)
    ensures Shrinks(s, BridgeNext(s, step))
  {
    hide Pair, Claim, PendingOf, MarkRunning, Answered, ShrinkFrom, SameDesk, OnlyBridges;
    NothingShrinks(s.bridges, 0, s.next);
    match step
    case DoPair(desk, code) => PairShrinks(s, desk, code);
    case DoClaim(code) => ClaimShrinks(s, code);
    case DoHello(b, _) => if b in s.bridges { RowsShrink(s, b, s.bridges[b].(lastSeen := Some(s.now))); }
    case DoSetAllowed(_, b, actions) =>
      if b in s.bridges { RowsShrink(s, b, s.bridges[b].(allowed := Allowlist(actions))); }
    case DoRevoke(_, b) => NothingShrinks(s.bridges, b, s.next);
    case DoClaimJobs(b, _) => if b in s.bridges { RowsShrink(s, b, s.bridges[b].(lastSeen := Some(s.now))); }
    case _ =>
  }

  lemma {:induction false} PairingIsSpent(dep: Deployment, steps: seq<Step>, i: nat)
    requires i <= |steps|
    ensures Shrinks(Before(dep, steps, i), Run(dep, steps))
  {
    hide DeskNext, BridgeNext, AdminNext, OneCall;
    var n := |steps| - 1;
    if i == |steps| {
      assert steps[..i] == steps;
    } else {
      PairingIsSpent(dep, steps[..n], i);
      assert steps[..n][..i] == steps[..i];
      var s := Run(dep, steps[..n]);
      match steps[n]
      case AtDesk(d) => DeskOneCall(s, d);
      case AtBridge(b) => BridgeShrinks(s, b);
      case ByAdmin(a) => AdminBridges(s, a);
    }
  }

  lemma AdminBridges(s: State, a: AdminStep)
    ensures AdminNext(s, a).bridges == s.bridges
  {}

  /** A pairing code releases a bridge's token at most once in any run. */
  lemma TokenIsClaimedOnce(dep: Deployment, steps: seq<Step>, i: nat, code: string, code': string)
    requires i < |steps| && steps[i] == AtBridge(DoClaim(code))
    requires ClaimToken(Before(dep, steps, i), code).Some? && ClaimToken(Run(dep, steps), code').Some?
    ensures ClaimToken(Before(dep, steps, i), code).value.0 != ClaimToken(Run(dep, steps), code').value.0
  {
    var s := Before(dep, steps, i);
    RunStep(dep, steps, i);
    PairingIsSpent(dep, steps, i + 1);
    FirstWithCodeIs(s.bridges, Normalise(code), 0, s.next);
  }

  lemma FirstWithCodeIs(bridges: map<Id, Bridge>, code: string, from: Id, upto: Id)
    ensures FirstWithCode(bridges, code, from, upto).Some? ==>
              var b := FirstWithCode(bridges, code, from, upto).value; from <= b < upto && b in bridges
    decreases upto - from
  {}
}
