/** What the receipts of the append-only log say: who acted, on which desk, for which request. */
module WriteBackReceipts {
  import opened Options
  import opened Records
  import opened WriteBack
  import opened WriteBackShapes
  import opened WriteBackInvariants
  import opened WriteBackLedger
  import opened WriteBackJobs
  import opened WriteBackHistory
  import opened WriteBackTheorems
  import opened WriteBackHandlers

  // --- what is true of every receipt ------------------------------------------------------------------

  ghost predicate ReceiptOk(dep: Deployment, gate: map<Id, Gate>, reqs: map<Id, Request>, e: Event) {
    if e.request.None? then
      (e.kind.Invoked? || e.kind.TerminalRun? || e.kind.ToolConnected? || e.kind.ToolDisconnected?)
      && Assigned(dep, e.actor, e.desk)
    else
      var r := e.request.value;
      r in reqs && e.desk == reqs[r].desk
      && match e.kind
         case WriteRequested => e.actor == reqs[r].maker
         case WriteExecuted => e.actor == "gel-gate" && !reqs[r].status.Pending?
         case WriteFailed => e.actor == "gel-gate" && !reqs[r].status.Pending?
         case WriteRejected => !reqs[r].status.Pending? && r in gate && gate[r].approver == Some(e.actor)
         case _ => false
  }

  ghost predicate LogTrue(dep: Deployment, gate: map<Id, Gate>, reqs: map<Id, Request>, log: seq<Event>) {
    forall k :: 0 <= k < |log| ==> ReceiptOk(dep, gate, reqs, log[k])
  }

  /** Who waits for a call, owns the desk it is for. */
  ghost predicate WaitOk(dep: Deployment, w: Await) {
    match w
    case AwaitUse(who, desk, _) => Assigned(dep, who, desk)
    case AwaitTerminal(who, desk) => Assigned(dep, who, desk)
    case AwaitToken(_, asked) => Assigned(dep, asked.owner, asked.desk)
    case _ => true
  }

  ghost predicate WaitsOk(dep: Deployment, open: map<nat, Await>) { forall c :: c in open ==> WaitOk(dep, open[c]) }

  ghost predicate OwnersOk(dep: Deployment, tools: map<Id, Tool>, reqs: map<Id, Request>) {
    && (forall t :: t in tools ==> Assigned(dep, tools[t].owner, tools[t].desk))
    && (forall r :: r in reqs ==> Assigned(dep, reqs[r].maker, reqs[r].desk))
  }

  ghost predicate Told(s: State) {
    OwnersOk(s.dep, s.tools, s.reqs) && WaitsOk(s.dep, s.open) && LogTrue(s.dep, s.gate, s.reqs, s.audit)
  }

  // --- kept by every step ---------------------------------------------------------------------------------

  /** Gate records of requests that were decided stay as they are. */
  ghost predicate DecidedStay(s: State, s': State) {
    forall r :: r in s.reqs && !s.reqs[r].status.Pending? && r in s.gate ==> r in s'.gate && s'.gate[r] == s.gate[r]
  }

  lemma LogStays(s: State, s': State)
    requires LogTrue(s.dep, s.gate, s.reqs, s.audit) && RowsGrow(s.reqs, s'.reqs) && DecidedStay(s, s')
    ensures LogTrue(s.dep, s'.gate, s'.reqs, s.audit)
  {
    forall k | 0 <= k < |s.audit| ensures ReceiptOk(s.dep, s'.gate, s'.reqs, s.audit[k]) {
      assert ReceiptOk(s.dep, s.gate, s.reqs, s.audit[k]);
    }
  }

  lemma LogMore(dep: Deployment, gate: map<Id, Gate>, reqs: map<Id, Request>, log: seq<Event>, e: Event)
    requires LogTrue(dep, gate, reqs, log) && ReceiptOk(dep, gate, reqs, e)
    ensures LogTrue(dep, gate, reqs, log + [e])
  {}

  lemma MakersStay(dep: Deployment, tools: map<Id, Tool>, reqs: map<Id, Request>, reqs': map<Id, Request>)
    requires OwnersOk(dep, tools, reqs) && RowsGrow(reqs, reqs') && reqs'.Keys == reqs.Keys
    ensures OwnersOk(dep, tools, reqs')
  {
    forall r | r in reqs' ensures Assigned(dep, reqs'[r].maker, reqs'[r].desk) {
      assert r in reqs;
    }
  }

  lemma AskingTold(s: State, who: string, desk: Id, tool: Id, key: string, action: string, params: Payload)
    requires Told(s) && s.next !in s.reqs && Assigned(s.dep, who, desk)
    ensures Told(RequestWrite(s, who, desk, tool, key, action, params))
  {
    hide LogTrue, WaitsOk, ReceiptOk;
    var s' := RequestWrite(s, who, desk, tool, key, action, params);
    var e := Event(WriteRequested, who, desk, Some(s.next));
    NewRowStays(s, s');
    LogStays(s, s');
    RequestedOk(s', e);
    LogMore(s.dep, s'.gate, s'.reqs, s.audit, e);
  }

  lemma NewRowStays(s: State, s': State)
    requires s.next !in s.reqs && s.next in s'.reqs && s'.reqs == s.reqs[s.next := s'.reqs[s.next]]
    requires s.next in s'.gate && s'.gate == s.gate[s.next := s'.gate[s.next]]
    ensures RowsGrow(s.reqs, s'.reqs) && DecidedStay(s, s')
  {}

  lemma RequestedOk(s: State, e: Event)
    requires e.kind.WriteRequested? && e.request.Some? && e.request.value in s.reqs
    requires s.reqs[e.request.value].maker == e.actor && s.reqs[e.request.value].desk == e.desk
    ensures ReceiptOk(s.dep, s.gate, s.reqs, e)
  {}

  lemma BeginsTold(s: State, s': State, o: Origin, key: string, action: string, params: Payload, w: Await)
    requires Told(s) && Begins(s, s', o, key, action, params, w) && WaitOk(s.dep, w)
    ensures Told(s')
  {
    hide LogTrue, OwnersOk, WaitOk;
  }

  /** Saving a settled copy with its receipt. */
  lemma SettledTold(s: State, s': State, row: Request, e: Event)
    requires Told(s) && CopyOf(row, s.reqs) && row.id in s'.reqs && s'.reqs == s.reqs[row.id := s'.reqs[row.id]]
    requires SameAsk(s.reqs[row.id], s'.reqs[row.id]) && !s'.reqs[row.id].status.Pending?
    requires DecidedStay(s, s') && s'.dep == s.dep && s'.tools == s.tools && s'.open == s.open
    requires s'.audit == s.audit + [e] && ReceiptOk(s.dep, s'.gate, s'.reqs, e)
    ensures Told(s')
  {
    hide LogTrue, WaitsOk, ReceiptOk, OwnersOk, DecidedStay;
    assert RowsGrow(s.reqs, s'.reqs);
    MakersStay(s.dep, s.tools, s.reqs, s'.reqs);
    LogStays(s, s');
    LogMore(s.dep, s'.gate, s'.reqs, s.audit, e);
  }

  lemma SameGateDecided(s: State, s': State)
    requires s'.gate == s.gate
    ensures DecidedStay(s, s')
  {}

  lemma CloseTold(s: State, row: Request, out: Outcome)
    requires Told(s) && CopyOf(row, s.reqs)
    ensures Told(Close(s, row, out))
  {
    hide Told, DecidedStay;
    var s' := Close(s, row, out);
    SameGateDecided(s, s');
    SettledTold(s, s', row, s'.audit[|s.audit|]);
  }

  lemma FitsTold(s: State, s': State, sh: Shape)
    requires Told(s) && Fits(s, s', sh)
    requires match sh
             case Idle => true
             case Asking(who, desk, _, _, _, _) => s.next !in s.reqs && Assigned(s.dep, who, desk)
             case Calling(_, _, _, _, w) => WaitOk(s.dep, w)
             case Closing(row, _) => CopyOf(row, s.reqs)
    ensures Told(s')
  {
    hide Told, Begins, RequestWrite, Close, WaitOk, CopyOf, Assigned;
    match sh
    case Idle =>
    case Asking(who, desk, tool, key, action, params) => AskingTold(s, who, desk, tool, key, action, params);
    case Calling(o, key, action, params, w) => BeginsTold(s, s', o, key, action, params, w);
    case Closing(row, out) => CloseTold(s, row, out);
  }

  lemma InvokeTold(s: State, who: string, desk: Id, tool: Id, action: string, params: Payload)
    requires Told(s) && s.next !in s.reqs
    ensures Told(Invoke(s, who, desk, tool, action, params))
  {
    hide Told, Fits, Invoke, Assigned, Owns;
    var sh := InvokeShape(s, who, desk, tool, action, params);
    AssignedOwns(s.dep, who, desk);
    FitsTold(s, Invoke(s, who, desk, tool, action, params), sh);
  }

  lemma SettleTold(s: State, row: Request)
    requires Told(s) && CopyOf(row, s.reqs)
    ensures Told(Settle(s, row))
  {
    hide Told, Fits, Settle, CopyOf;
    var sh := SettleShape(s, row);
    FitsTold(s, Settle(s, row), sh);
  }

  lemma OwnTold(s: State, d: DeskStep)
    requires Told(s) && OwnStep(d)
    ensures Told(DeskNext(s, d))
  {
    hide Told, Fits, DeskNext, Assigned;
    if NamedBy(d).Some? && !Assigned(s.dep, NamedBy(d).value.0, NamedBy(d).value.1) {
      OnlyTheOwnerActs(s, d);
    } else {
      var sh := OwnShape(s, d);
      if d.DoCompleteOAuth? && d.tool in s.tools { OwnerOf(s, d.tool); }
      FitsTold(s, DeskNext(s, d), sh);
    }
  }

  lemma OwnerOf(s: State, tool: Id)
    requires Told(s) && tool in s.tools
    ensures Assigned(s.dep, s.tools[tool].owner, s.tools[tool].desk)
  {}

  lemma QuietTold(s: State, s': State)
    requires Told(s) && s'.dep == s.dep && s'.tools == s.tools && s'.reqs == s.reqs && s'.open == s.open
    requires s'.audit == s.audit && s'.gate == s.gate
    ensures Told(s')
  {}

  lemma ApproveTold(s: State, r: Id, approver: string)
    requires Told(s) && r in s.reqs && s.reqs[r].status.Pending?
    ensures Told(ApproveGate(s, r, approver))
  {
    hide LogTrue, ReceiptOk, OwnersOk, WaitsOk;
    var s' := ApproveGate(s, r, approver);
    SameRows(s.reqs);
    LogStays(s, s');
  }

  lemma SameRows(reqs: map<Id, Request>)
    ensures RowsGrow(reqs, reqs)
  {}

  lemma RejectTold(s: State, r: Id, approver: string, reason: string)
    requires Told(s) && r in s.reqs && s.reqs[r].status.Pending? && s.reqs[r].id == r
    ensures Told(Reject(s, s.reqs[r], approver, reason))
  {
    hide Told;
    var s' := Reject(s, s.reqs[r], approver, reason);
    SettledTold(s, s', s.reqs[r], s'.audit[|s.audit|]);
  }

  lemma DecideTold(s: State, approver: string, r: Id, approve: bool, reason: string, stop: bool)
    requires Told(s) && RowsOk(s.reqs)
    ensures Told(Decide(s, approver, r, approve, reason, stop))
  {
    hide Told, Settle, Reject;
    if r in s.reqs && s.reqs[r].status.Pending? {
      ApproveTold(s, r, approver);
      RejectTold(s, r, approver, reason);
      SettleTold(ApproveGate(s, r, approver), s.reqs[r].(approver := Some(approver)));
    }
  }

  lemma PollNextTold(s: State, p: Id)
    requires Told(s) && PollsOk(s.polls, s.reqs)
    ensures Told(PollNext(s, p))
  {
    hide Told, Settle;
    if PollReady(s, p) {
      var row := s.polls[p].rows[0];
      assert row in s.polls[p].rows;
      assert CopyOf(row, s.reqs);
      SettleTold(s, row);
      QuietTold(if row.status.Pending? then Settle(s, row) else s, PollNext(s, p));
    }
  }

  lemma DroppedTold(s: State, c: nat)
    requires Told(s) && c in s.open
    ensures Told(s.(open := s.open - {c})) && WaitOk(s.dep, s.open[c])
  {
    hide LogTrue, OwnersOk;
    assert WaitOk(s.dep, s.open[c]);
  }

  /** One more receipt that is about no request. */
  lemma UseTold(s: State, s': State, e: Event)
    requires Told(s) && s'.dep == s.dep && s'.reqs == s.reqs && s'.open == s.open && s'.gate == s.gate
    requires s'.audit == s.audit + [e] && ReceiptOk(s.dep, s.gate, s.reqs, e)
    requires OwnersOk(s.dep, s'.tools, s.reqs)
    ensures Told(s')
  {
    hide ReceiptOk, OwnersOk, WaitsOk;
    LogMore(s.dep, s.gate, s.reqs, s.audit, e);
  }

  lemma FinishTold(s: State, w: Await, out: Outcome)
    requires Told(s) && WaitOk(s.dep, w) && AwaitOk(w, s.reqs)
    ensures Told(Finish(s, w, out))
  {
    hide Close, LogTrue, WaitsOk;
    var s' := Finish(s, w, out);
    if w.AwaitSettle? {
      CloseTold(s, w.row, out);
    } else if s'.audit != s.audit {
      UseTold(s, s', s'.audit[|s.audit|]);
    } else {
      QuietTold(s, s');
    }
  }

  lemma ReturnTold(s: State, c: nat, local: Outcome, timedOut: bool)
    requires Told(s) && OpenOk(s.open, s.reqs)
    ensures Told(Return(s, c, local, timedOut))
  {
    hide Told, Finish, OutcomeOf, WaitOk;
    if c in s.open {
      DroppedTold(s, c);
      forall out { FinishTold(s.(open := s.open - {c}), s.open[c], out); }
    }
  }

  lemma ConnectTold(s: State, who: string, desk: Id, key: string, bridge: Option<Id>, spec: bool, signedIn: bool)
    requires Told(s)
    ensures Told(Connect(s, who, desk, key, bridge, spec, signedIn))
  {
    hide LogTrue, WaitsOk, OnlyTools;
    ConnectsIff(s, who, desk, key, bridge, spec, signedIn);
    var s' := Connect(s, who, desk, key, bridge, spec, signedIn);
    if s' != s { UseTold(s, s', Event(ToolConnected, who, desk, None)); }
  }

  lemma DisconnectTold(s: State, who: string, desk: Id, tool: Id)
    requires Told(s)
    ensures Told(Disconnect(s, who, desk, tool))
  {
    hide LogTrue, WaitsOk, OnlyTools;
    DisconnectsIff(s, who, desk, tool);
    var s' := Disconnect(s, who, desk, tool);
    if s' != s { UseTold(s, s', Event(ToolDisconnected, who, desk, None)); }
  }

  lemma PollStartTold(s: State, who: string, desk: Id)
    requires Told(s)
    ensures Told(PollStart(s, who, desk))
  {
    hide Told, RowsOf, Owns;
    PollsTold(s, s.polls[s.next := Poll(RowsOf(s.reqs, desk, s.next), None)], s.next + 1);
  }

  lemma PollsTold(s: State, polls: map<Id, Poll>, next: Id)
    requires Told(s)
    ensures Told(s.(polls := polls, next := next))
  {
    hide Told;
    QuietTold(s, s.(polls := polls, next := next));
  }

  lemma NextUnused(s: State)
    requires Basic(s)
    ensures s.next !in s.reqs && RowsOk(s.reqs) && PollsOk(s.polls, s.reqs) && OpenOk(s.open, s.reqs)
  {}

  lemma DeskTold(s: State, d: DeskStep)
    requires Told(s) && Basic(s)
    ensures Told(DeskNext(s, d))
  {
    hide Told, Basic, Invoke, Decide, PollStart, PollNext, Return, OnlyTools, Connect, Disconnect;
    hide TerminalExec, TerminalHosts, TestSpec, CompleteOAuth;
    NextUnused(s);
    match d
    case DoInvoke(who, desk, tool, action, params) => InvokeTold(s, who, desk, tool, action, params);
    case DoDecide(approver, r, approve, reason, stop) => DecideTold(s, approver, r, approve, reason, stop);
    case DoPollStart(who, desk) => PollStartTold(s, who, desk);
    case DoPollNext(p) => PollNextTold(s, p);
    case DoReturn(c, local, timedOut) => ReturnTold(s, c, local, timedOut);
    case DoConnect(who, desk, key, bridge, spec, signedIn) => ConnectTold(s, who, desk, key, bridge, spec, signedIn);
    case DoDisconnect(who, desk, tool) => DisconnectTold(s, who, desk, tool);
    case _ => OwnTold(s, d);
  }

  lemma NextTold(s: State, step: Step)
    requires Told(s) && Basic(s)
    ensures Told(Next(s, step))
  {
    hide Told, Basic, DeskNext, BridgeNext, AdminNext;
    match step
    case AtDesk(d) => DeskTold(s, d);
    case AtBridge(b) => QuietTold(s, BridgeNext(s, b));
    case ByAdmin(a) => QuietTold(s, AdminNext(s, a));
  }

  lemma {:induction false} RunTold(dep: Deployment, steps: seq<Step>)
    ensures Told(Run(dep, steps))
  {
    hide Told, Next, Basic, Ledger, Queue;
    if steps == [] {
      NothingTold(dep);
    } else {
      var n := |steps| - 1;
      RunTold(dep, steps[..n]);
      RunInv(dep, steps[..n]);
      NextTold(Run(dep, steps[..n]), steps[n]);
    }
  }

  lemma NothingTold(dep: Deployment)
    ensures Told(Init(dep))
  {}

  /** Over every run: a receipt about a request stands for a stored request of its desk, and names the maker
    * where it was asked, the gate where it was closed, and where it was rejected the approver on its gate
    * record. Any other receipt names the contributor its desk is assigned to; so do rows and tools. */
  lemma ReceiptsTellTheTruth(dep: Deployment, steps: seq<Step>)
    ensures var s := Run(dep, steps);
            && (forall k :: 0 <= k < |s.audit| ==> ReceiptOk(dep, s.gate, s.reqs, s.audit[k]))
            && (forall r :: r in s.reqs ==> Assigned(dep, s.reqs[r].maker, s.reqs[r].desk))
            && (forall t :: t in s.tools ==> Assigned(dep, s.tools[t].owner, s.tools[t].desk))
  {
    hide ReceiptOk, Run;
    RunTold(dep, steps);
    RunDep(dep, steps);
  }

  /** The receipts a waiting call leaves: a settlement its closing receipt, whatever came of it; a use, a
    * terminal command and a sign-in one receipt if they have a result and none if they failed; a diagnostic
    * nothing. */
  function Leaves(w: Await, done: bool): seq<Event> {
    match w
    case AwaitSettle(row) =>
      [Event(if done then WriteExecuted else WriteFailed, "gel-gate", row.desk, Some(row.id))]
    case AwaitUse(who, desk, direct) => if done then [Event(Invoked(direct), who, desk, None)] else []
    case AwaitTerminal(who, desk) => if done then [Event(TerminalRun, who, desk, None)] else []
    case AwaitToken(_, asked) => if done then [Event(ToolConnected, asked.owner, asked.desk, None)] else []
    case AwaitNothing => []
  }

  lemma FinishLeaves(s: State, w: Await, out: Outcome)
    ensures Finish(s, w, out).audit == s.audit + Leaves(w, out.Returned?) && Finish(s, w, out).open == s.open
  {
    assert s.audit + [] == s.audit;
  }

  /** A call that comes back leaves exactly its receipts, and is waited for no longer; one without an answer
    * yet changes nothing. */
  lemma ReturnLeavesReceipt(s: State, c: nat, local: Outcome, timedOut: bool)
    ensures var out, s' := OutcomeOf(s, c, local, timedOut), Return(s, c, local, timedOut);
            if out.Some? then c in s.open && s'.open == s.open - {c}
                              && s'.audit == s.audit + Leaves(s.open[c], out.value.Returned?)
            else s' == s
  {
    hide Finish, Leaves, BridgeAnswer;
    if c in s.open {
      forall out { FinishLeaves(s.(open := s.open - {c}), s.open[c], out); }
    }
  }
}
