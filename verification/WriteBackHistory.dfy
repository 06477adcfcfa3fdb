/** Where a stored row and a gate approval come from. */
module WriteBackHistory {
  import opened Options
  import opened Records
  import opened WriteBack
  import opened WriteBackShapes
  import opened WriteBackInvariants

  /** Rows keep what they ask for; a settled row is never pending again. */
  ghost predicate RowsGrow(reqs: map<Id, Request>, reqs': map<Id, Request>) {
    forall r :: r in reqs ==>
      r in reqs' && SameAsk(reqs[r], reqs'[r]) && (reqs'[r].status.Pending? ==> reqs[r].status.Pending?)
  }

  /** This step is the invocation that asked for the write stored in this row. */
  ghost predicate Asks(s: State, step: DeskStep, row: Request) {
    step.DoInvoke? && row.id == s.next && step.who == row.maker && step.tool == row.tool && row.tool in s.tools
    && s.tools[row.tool].key == row.key && step.action == row.action && step.params == row.params
  }

  /** This step is the decision that approved the pending request r. */
  predicate Approves(s: State, step: DeskStep, r: Id, approver: Option<string>) {
    step.DoDecide? && step.r == r && step.approve && approver == Some(step.approver)
    && r in s.reqs && s.reqs[r].status.Pending? && step.approver != s.reqs[r].maker
  }

  ghost predicate GateGrows(s: State, s': State, step: DeskStep) {
    forall r :: Approved(s', r) ==>
      (Approved(s, r) && s'.gate[r] == s.gate[r]) || Approves(s, step, r, s'.gate[r].approver)
  }

  ghost predicate NewRows(s: State, s': State, step: DeskStep) {
    forall r :: r in s'.reqs && r !in s.reqs ==> Asks(s, step, s'.reqs[r])
  }

  ghost predicate History(s: State, s': State, step: DeskStep) {
    RowsGrow(s.reqs, s'.reqs) && NewRows(s, s', step) && GateGrows(s, s', step)
  }

  /** No row is added and the gate is untouched. */
  ghost predicate SameGate(s: State, s': State) {
    RowsGrow(s.reqs, s'.reqs) && s'.reqs.Keys == s.reqs.Keys && s'.gate == s.gate
  }

  lemma SameGateHistory(s: State, s': State, step: DeskStep)
    requires SameGate(s, s')
    ensures History(s, s', step)
  {}

  lemma CloseSameGate(s: State, row: Request, out: Outcome)
    requires CopyOf(row, s.reqs)
    ensures SameGate(s, Close(s, row, out))
  {}

  lemma IdleSameGate(s: State)
    ensures SameGate(s, s)
  {}

  lemma BeginsSameGate(s: State, s': State, o: Origin, key: string, action: string, params: Payload, w: Await)
    requires Begins(s, s', o, key, action, params, w)
    ensures SameGate(s, s')
  {}

  lemma FitsSameGate(s: State, s': State, sh: Shape)
    requires Fits(s, s', sh) && !sh.Asking? && (sh.Closing? ==> CopyOf(sh.row, s.reqs))
    ensures SameGate(s, s')
  {
    hide SameGate, Begins, Close, CopyOf;
    match sh
    case Idle => IdleSameGate(s);
    case Calling(o, key, action, params, w) => BeginsSameGate(s, s', o, key, action, params, w);
    case Closing(row, out) => CloseSameGate(s, row, out);
  }

  lemma SettleSameGate(s: State, row: Request)
    requires CopyOf(row, s.reqs)
    ensures SameGate(s, Settle(s, row))
  {
    hide Settle, Fits, SameGate, CopyOf;
    var sh := SettleShape(s, row);
    FitsSameGate(s, Settle(s, row), sh);
  }

  lemma RejectHistory(s: State, r: Id, approver: string, reason: string, step: DeskStep)
    requires r in s.reqs && s.reqs[r].id == r
    ensures History(s, Reject(s, s.reqs[r], approver, reason), step)
  {}

  lemma ApproveHistory(s: State, r: Id, row: Request, step: DeskStep)
    requires step.DoDecide? && step.r == r && step.approve && row.id == r && CopyOf(row, s.reqs)
    requires s.reqs[r].status.Pending? && step.approver != s.reqs[r].maker
    ensures History(s, ApproveGate(s, r, step.approver), step)
    ensures History(s, Settle(ApproveGate(s, r, step.approver), row), step)
  {
    hide Settle;
    SettleSameGate(ApproveGate(s, r, step.approver), row);
  }

  lemma DecideHistory(s: State, step: DeskStep)
    requires step.DoDecide? && RowsOk(s.reqs)
    ensures History(s, Decide(s, step.approver, step.r, step.approve, step.reason, step.stop), step)
  {
    hide Settle, Reject, ApproveGate, History;
    SameGateHistory(s, s, step);
    if step.r in s.reqs {
      var row := s.reqs[step.r].(approver := Some(step.approver));
      if step.approve && s.reqs[step.r].status.Pending? && step.approver != row.maker {
        ApproveHistory(s, step.r, row, step);
      }
      RejectHistory(s, step.r, step.approver, step.reason, step);
    }
  }

  lemma PollNextHistory(s: State, p: Id)
    requires PollsOk(s.polls, s.reqs)
    ensures SameGate(s, PollNext(s, p))
  {
    hide Settle;
    if PollReady(s, p) {
      assert CopyOf(s.polls[p].rows[0], s.reqs);
      SettleSameGate(s, s.polls[p].rows[0]);
    }
  }

  lemma RequestHistory(s: State, who: string, desk: Id, tool: Id, action: string, params: Payload)
    requires tool in s.tools && Below(s.reqs.Keys, s.next) && GatesOk(s.gate, s.reqs)
    ensures History(s, RequestWrite(s, who, desk, tool, s.tools[tool].key, action, params),
                    DoInvoke(who, desk, tool, action, params))
  {}

  lemma InvokeHistory(s: State, who: string, desk: Id, tool: Id, action: string, params: Payload)
    requires Below(s.reqs.Keys, s.next) && GatesOk(s.gate, s.reqs)
    ensures History(s, Invoke(s, who, desk, tool, action, params), DoInvoke(who, desk, tool, action, params))
  {
    hide History, SameGate, Begins, RequestWrite, Invoke, GatesOk;
    var s' := Invoke(s, who, desk, tool, action, params);
    var sh := InvokeShape(s, who, desk, tool, action, params);
    if sh.Asking? {
      RequestHistory(s, who, desk, tool, action, params);
    } else {
      FitsSameGate(s, s', sh);
      SameGateHistory(s, s', DoInvoke(who, desk, tool, action, params));
    }
  }

  lemma FinishSameGate(s: State, c: nat, out: Outcome)
    requires c in s.open && AwaitOk(s.open[c], s.reqs)
    ensures SameGate(s, Finish(s.(open := s.open - {c}), s.open[c], out))
  {
    hide Close, SameGate, Finish;
    var s1 := s.(open := s.open - {c});
    match s.open[c]
    case AwaitSettle(row) =>
      CloseSameGate(s1, row, out);
      SettleFinish(s1, s.open[c], out);
      DroppedSameGate(s, s1, Close(s1, row, out));
    case _ => OtherFinishRows(s1, s.open[c], out); RowsSameGate(s, Finish(s1, s.open[c], out));
  }

  lemma SettleFinish(s: State, w: Await, out: Outcome)
    requires w.AwaitSettle?
    ensures Finish(s, w, out) == Close(s, w.row, out)
  {
    hide Close;
  }

  lemma OtherFinishRows(s: State, w: Await, out: Outcome)
    requires !w.AwaitSettle?
    ensures Finish(s, w, out).reqs == s.reqs && Finish(s, w, out).gate == s.gate && Finish(s, w, out).open == s.open
  {}

  lemma RowsSameGate(s: State, s': State)
    requires s'.reqs == s.reqs && s'.gate == s.gate
    ensures SameGate(s, s')
  {}

  lemma DroppedSameGate(s: State, s1: State, s': State)
    requires s1.reqs == s.reqs && s1.gate == s.gate && SameGate(s1, s')
    ensures SameGate(s, s')
  {
  }

  lemma ReturnSameGate(s: State, c: nat, local: Outcome, timedOut: bool)
    requires OpenOk(s.open, s.reqs)
    ensures SameGate(s, Return(s, c, local, timedOut))
  {
    hide SameGate, Finish, OutcomeOf;
    IdleSameGate(s);
    if c in s.open { forall out { FinishSameGate(s, c, out); } }
  }

  lemma OwnSameGate(s: State, d: DeskStep)
    requires OwnStep(d)
    ensures SameGate(s, DeskNext(s, d))
  {
    hide DeskNext, Fits, SameGate;
    var sh := OwnShape(s, d);
    FitsSameGate(s, DeskNext(s, d), sh);
  }

  lemma ToolsSameGate(s: State, s': State)
    requires OnlyTools(s, s')
    ensures SameGate(s, s')
  {
    hide SameGate;
    RowsSameGate(s, s');
  }

  lemma PollStartSameGate(s: State, who: string, desk: Id)
    ensures SameGate(s, PollStart(s, who, desk))
  {
    hide SameGate, RowsOf;
    RowsSameGate(s, PollStart(s, who, desk));
  }

  lemma DeskHistory(s: State, step: DeskStep)
    requires Basic(s)
    ensures History(s, DeskNext(s, step), step)
  {
    hide History, SameGate, OnlyTools, Invoke, Decide, PollStart, PollNext, Return, Connect, Disconnect;
    hide TerminalExec, TerminalHosts, TestSpec, CompleteOAuth;
    var s' := DeskNext(s, step);
    match step {
      case DoInvoke(who, desk, tool, action, params) => InvokeHistory(s, who, desk, tool, action, params); return;
      case DoDecide(_, _, _, _, _) => DecideHistory(s, step); return;
      case DoPollStart(who, desk) => PollStartSameGate(s, who, desk);
      case DoPollNext(p) => PollNextHistory(s, p);
      case DoReturn(c, local, timedOut) => ReturnSameGate(s, c, local, timedOut);
      case DoConnect(_, _, _, _, _, _) => ToolsSameGate(s, s');
      case DoDisconnect(_, _, _) => ToolsSameGate(s, s');
      case _ => OwnSameGate(s, step);
    }
    SameGateHistory(s, s', step);
  }
}
