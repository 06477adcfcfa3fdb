/** When a disconnected tool stays disconnected. */
module WriteBackTools {
  import opened Options
  import opened Records
  import opened WriteBack
  import opened WriteBackShapes
  import opened WriteBackInvariants
  import opened WriteBackLedger
  import opened WriteBackJobs
  import opened WriteBackHistory
  import opened WriteBackSteps
  import opened WriteBackTheorems

  /** A sign-in of this tool waits for the provider. */
  predicate SigningIn(open: map<nat, Await>, tool: Id) {
    exists c :: c in open && open[c].AwaitToken? && open[c].tool == tool
  }

  /** This tool is not there, and nothing under way can bring it back. */
  ghost predicate Gone(s: State, tool: Id) { tool !in s.tools && tool < s.next && !SigningIn(s.open, tool) }

  // --- gone for good -----------------------------------------------------------------------------

  lemma QuietGone(s: State, s': State, tool: Id)
    requires Gone(s, tool) && s'.tools == s.tools && s'.open == s.open && s.next <= s'.next
    ensures Gone(s', tool)
  {}

  lemma BeginsGone(s: State, s': State, o: Origin, key: string, action: string, params: Payload, w: Await, tool: Id)
    requires Gone(s, tool) && Begins(s, s', o, key, action, params, w) && (w.AwaitToken? ==> w.tool in s.tools)
    ensures Gone(s', tool)
  {
    hide MakeCall, SigningIn;
    WaitsForOther(s.open, |s.calls|, w, tool);
  }

  lemma WaitsForOther(open: map<nat, Await>, n: nat, w: Await, tool: Id)
    requires !SigningIn(open, tool) && (w.AwaitToken? ==> w.tool != tool)
    ensures !SigningIn(open[n := w], tool)
  {}

  lemma CloseGone(s: State, row: Request, out: Outcome, tool: Id)
    requires Gone(s, tool)
    ensures Gone(Close(s, row, out), tool)
  {}

  lemma FitsGone(s: State, s': State, sh: Shape, tool: Id)
    requires Gone(s, tool) && Fits(s, s', sh)
    requires sh.Calling? && sh.w.AwaitToken? ==> sh.w.tool in s.tools
    ensures Gone(s', tool)
  {
    hide Gone, Begins, Close;
    match sh
    case Idle =>
    case Asking(_, _, _, _, _, _) => QuietGone(s, s', tool);
    case Calling(o, key, action, params, w) => BeginsGone(s, s', o, key, action, params, w, tool);
    case Closing(row, out) => CloseGone(s, row, out, tool);
  }

  lemma InvokeGone(s: State, who: string, desk: Id, t: Id, action: string, params: Payload, tool: Id)
    requires Gone(s, tool)
    ensures Gone(Invoke(s, who, desk, t, action, params), tool)
  {
    hide Gone, Fits, Invoke;
    var sh := InvokeShape(s, who, desk, t, action, params);
    FitsGone(s, Invoke(s, who, desk, t, action, params), sh, tool);
  }

  lemma OwnGone(s: State, d: DeskStep, tool: Id)
    requires Gone(s, tool) && OwnStep(d)
    ensures Gone(DeskNext(s, d), tool)
  {
    hide Gone, Fits, DeskNext;
    var sh := OwnShape(s, d);
    FitsGone(s, DeskNext(s, d), sh, tool);
  }

  lemma SettleGone(s: State, row: Request, tool: Id)
    requires Gone(s, tool)
    ensures Gone(Settle(s, row), tool)
  {
    hide Gone, Settle, Fits;
    var sh := SettleShape(s, row);
    FitsGone(s, Settle(s, row), sh, tool);
  }

  lemma DecideGone(s: State, approver: string, r: Id, approve: bool, reason: string, stop: bool, tool: Id)
    requires Gone(s, tool)
    ensures Gone(Decide(s, approver, r, approve, reason, stop), tool)
  {
    hide Gone, Settle;
    if r in s.reqs {
      var s1 := ApproveGate(s, r, approver);
      QuietGone(s, s1, tool);
      QuietGone(s, Reject(s, s.reqs[r], approver, reason), tool);
      SettleGone(s1, s.reqs[r].(approver := Some(approver)), tool);
    }
  }

  lemma PollStartGone(s: State, who: string, desk: Id, tool: Id)
    requires Gone(s, tool)
    ensures Gone(PollStart(s, who, desk), tool)
  {
    hide Gone, RowsOf;
    QuietGone(s, PollStart(s, who, desk), tool);
  }

  lemma PollNextGone(s: State, p: Id, tool: Id)
    requires Gone(s, tool)
    ensures Gone(PollNext(s, p), tool)
  {
    hide Gone, Settle;
    if PollReady(s, p) {
      var row := s.polls[p].rows[0];
      SettleGone(s, row, tool);
      QuietGone(if row.status.Pending? then Settle(s, row) else s, PollNext(s, p), tool);
    }
  }

  lemma ReturnGone(s: State, c: nat, local: Outcome, timedOut: bool, tool: Id)
    requires Gone(s, tool)
    ensures Gone(Return(s, c, local, timedOut), tool)
  {
    hide Finish, OutcomeOf;
    if c in s.open { forall out { FinishGone(s, c, out, tool); } }
  }

  lemma FinishGone(s: State, c: nat, out: Outcome, tool: Id)
    requires Gone(s, tool) && c in s.open
    ensures Gone(Finish(s.(open := s.open - {c}), s.open[c], out), tool)
  {
    hide Gone, Finish;
    var s1, w := s.(open := s.open - {c}), s.open[c];
    DroppedGone(s, c, tool);
    if w.AwaitSettle? {
      SettleFinish(s1, w, out);
      CloseGone(s1, w.row, out, tool);
    } else if w.AwaitToken? {
      TokenGone(s1, w, out, tool);
    } else {
      OtherFinish(s1, w, out);
      QuietGone(s1, Finish(s1, w, out), tool);
    }
  }

  lemma DroppedGone(s: State, c: nat, tool: Id)
    requires Gone(s, tool) && c in s.open
    ensures Gone(s.(open := s.open - {c}), tool) && (s.open[c].AwaitToken? ==> s.open[c].tool != tool)
  {}

  lemma TokenGone(s: State, w: Await, out: Outcome, tool: Id)
    requires Gone(s, tool) && w.AwaitToken? && w.tool != tool
    ensures Gone(Finish(s, w, out), tool)
  {}

  lemma OtherFinish(s: State, w: Await, out: Outcome)
    requires !w.AwaitSettle? && !w.AwaitToken?
    ensures var s' := Finish(s, w, out); s'.tools == s.tools && s'.open == s.open && s'.next == s.next
  {}

  lemma ToolsGone(s: State, s': State, tool: Id)
    requires Gone(s, tool) && OnlyTools(s, s')
    ensures Gone(s', tool)
  {}

  lemma DeskGone(s: State, d: DeskStep, tool: Id)
    requires Gone(s, tool)
    ensures Gone(DeskNext(s, d), tool)
  {
    hide Gone, Invoke, Decide, PollStart, PollNext, Return, OnlyTools, Connect, Disconnect;
    hide TerminalExec, TerminalHosts, TestSpec, CompleteOAuth;
    match d
    case DoInvoke(who, desk, t, action, params) => InvokeGone(s, who, desk, t, action, params, tool);
    case DoDecide(approver, r, approve, reason, stop) => DecideGone(s, approver, r, approve, reason, stop, tool);
    case DoPollStart(who, desk) => PollStartGone(s, who, desk, tool);
    case DoPollNext(p) => PollNextGone(s, p, tool);
    case DoReturn(c, local, timedOut) => ReturnGone(s, c, local, timedOut, tool);
    case DoConnect(_, _, _, _, _, _) => ToolsGone(s, DeskNext(s, d), tool);
    case DoDisconnect(_, _, _) => ToolsGone(s, DeskNext(s, d), tool);
    case _ => OwnGone(s, d, tool);
  }

  lemma NextGone(s: State, step: Step, tool: Id)
    requires Gone(s, tool)
    ensures Gone(Next(s, step), tool)
  {
    hide Gone, DeskNext, BridgeNext, AdminNext;
    match step
    case AtDesk(d) => DeskGone(s, d, tool);
    case AtBridge(b) => QuietGone(s, BridgeNext(s, b), tool);
    case ByAdmin(a) => QuietGone(s, AdminNext(s, a), tool);
  }

  lemma {:induction false} GoneForever(dep: Deployment, steps: seq<Step>, more: seq<Step>, tool: Id)
    requires Gone(Run(dep, steps), tool)
    ensures Gone(Run(dep, steps + more), tool)
  {
    hide Gone, Next, Run;
    if more == [] {
      assert steps + more == steps;
    } else {
      var n := |more| - 1;
      GoneForever(dep, steps, more[..n], tool);
      assert steps + more == (steps + more[..n]) + [more[n]];
      Takes(dep, steps + more[..n], more[n]);
      NextGone(Run(dep, steps + more[..n]), more[n], tool);
    }
  }

  // --- a sign-in under way comes back ---------------------------------------------------------------

  /** Every sign-in under way is a call of the service itself to the provider. */
  ghost predicate TokensWait(open: map<nat, Await>, calls: seq<Call>) {
    forall c :: c in open && open[c].AwaitToken? ==> c < |calls| && calls[c].channel == Cloud
  }

  lemma GrownTokens(open: map<nat, Await>, calls: seq<Call>, calls': seq<Call>)
    requires TokensWait(open, calls) && calls <= calls'
    ensures TokensWait(open, calls')
  {}

  lemma FitsTokens(s: State, s': State, sh: Shape)
    requires TokensWait(s.open, s.calls) && Fits(s, s', sh)
    requires sh.Calling? ==> !sh.w.AwaitToken?
    ensures TokensWait(s'.open, s'.calls)
  {
    if sh.Calling? { GrownTokens(s.open, s.calls, s'.calls); }
  }

  lemma SignInTokens(s: State, tool: Id)
    requires TokensWait(s.open, s.calls)
    ensures TokensWait(CompleteOAuth(s, tool).open, CompleteOAuth(s, tool).calls)
  {}

  lemma SettleTokens(s: State, row: Request)
    requires TokensWait(s.open, s.calls)
    ensures TokensWait(Settle(s, row).open, Settle(s, row).calls)
  {
    hide TokensWait, Settle, Fits;
    var sh := SettleShape(s, row);
    FitsTokens(s, Settle(s, row), sh);
  }

  lemma DecideTokens(s: State, approver: string, r: Id, approve: bool, reason: string, stop: bool)
    requires TokensWait(s.open, s.calls)
    ensures var s' := Decide(s, approver, r, approve, reason, stop); TokensWait(s'.open, s'.calls)
  {
    hide TokensWait, Settle;
    if r in s.reqs { SettleTokens(ApproveGate(s, r, approver), s.reqs[r].(approver := Some(approver))); }
  }

  lemma PollNextTokens(s: State, p: Id)
    requires TokensWait(s.open, s.calls)
    ensures TokensWait(PollNext(s, p).open, PollNext(s, p).calls)
  {
    hide TokensWait, Settle;
    if PollReady(s, p) { SettleTokens(s, s.polls[p].rows[0]); }
  }

  lemma FinishOpen(s: State, w: Await, out: Outcome)
    ensures Finish(s, w, out).open == s.open && Finish(s, w, out).calls == s.calls
  {}

  lemma ReturnTokens(s: State, c: nat, local: Outcome, timedOut: bool)
    requires TokensWait(s.open, s.calls)
    ensures TokensWait(Return(s, c, local, timedOut).open, Return(s, c, local, timedOut).calls)
  {
    hide Finish, OutcomeOf;
    if c in s.open { forall out { FinishOpen(s.(open := s.open - {c}), s.open[c], out); } }
  }

  lemma DeskTokens(s: State, d: DeskStep)
    requires TokensWait(s.open, s.calls)
    ensures TokensWait(DeskNext(s, d).open, DeskNext(s, d).calls)
  {
    hide TokensWait, Fits, Invoke, Decide, PollNext, Return, OnlyTools, Connect, Disconnect;
    hide TerminalExec, TerminalHosts, TestSpec, CompleteOAuth;
    match d
    case DoInvoke(who, desk, t, action, params) =>
      var sh := InvokeShape(s, who, desk, t, action, params);
      FitsTokens(s, Invoke(s, who, desk, t, action, params), sh);
    case DoDecide(approver, r, approve, reason, stop) => DecideTokens(s, approver, r, approve, reason, stop);
    case DoPollNext(p) => PollNextTokens(s, p);
    case DoReturn(c, local, timedOut) => ReturnTokens(s, c, local, timedOut);
    case DoPollStart(_, _) =>
    case DoConnect(_, _, _, _, _, _) => ToolsTokens(s, DeskNext(s, d));
    case DoDisconnect(_, _, _) => ToolsTokens(s, DeskNext(s, d));
    case DoCompleteOAuth(tool) => SignInTokens(s, tool);
    case _ =>
      var sh := OwnShape(s, d);
      FitsTokens(s, DeskNext(s, d), sh);
  }

  lemma ToolsTokens(s: State, s': State)
    requires TokensWait(s.open, s.calls) && OnlyTools(s, s')
    ensures TokensWait(s'.open, s'.calls)
  {}

  /** A sign-in begins one call to the provider. */
  lemma SignInWaits(s: State, tool: Id)
    ensures var s', n := CompleteOAuth(s, tool), |s.calls|;
            if tool in s.tools && SignsIn(s.dep, s.tools[tool])
            then s'.dep == s.dep && s'.tools == s.tools && s'.next == s.next && |s'.calls| == n + 1
                 && s'.calls[n].channel == Cloud && n in s'.open && s'.open[n] == AwaitToken(tool, s.tools[tool])
            else s' == s
  {}

  lemma {:induction false} RunTokens(dep: Deployment, steps: seq<Step>)
    ensures TokensWait(Run(dep, steps).open, Run(dep, steps).calls)
  {
    hide TokensWait, DeskNext, BridgeNext, AdminNext;
    if steps == [] {
      NoTokens();
    } else {
      var n := |steps| - 1;
      RunTokens(dep, steps[..n]);
      if steps[n].AtDesk? { DeskTokens(Run(dep, steps[..n]), steps[n].d); }
    }
  }

  lemma NoTokens()
    ensures TokensWait(map[], [])
  {}

  lemma TokenIsSaved(s: State, c: nat, token: Payload)
    requires TokensWait(s.open, s.calls) && c in s.open && s.open[c].AwaitToken?
    ensures Return(s, c, Returned(token), false).tools
            == s.tools[s.open[c].tool := s.open[c].asked.(signedIn := true)]
  {}

  // --- the promise ------------------------------------------------------------------------------------

  lemma Removed(s: State, who: string, desk: Id, tool: Id)
    requires Owns(s.dep, who, desk) && tool in s.tools && s.tools[tool].desk == desk
    ensures var s' := Disconnect(s, who, desk, tool);
            tool !in s'.tools && s'.calls == s.calls && s'.open == s.open && s'.next == s.next
  {}

  lemma ToolsBelow(s: State, tool: Id)
    requires Basic(s) && tool in s.tools
    ensures tool < s.next
  {}

  /** From any reachable state: a tool disconnected while a sign-in of it waits for the provider is there
    * again, signed in, when the provider answers. */
  lemma SignInOutlivesDisconnect(dep: Deployment, steps: seq<Step>, who: string, tool: Id, c: nat, token: Payload)
    requires var s := Run(dep, steps);
             tool in s.tools && Owns(dep, who, s.tools[tool].desk)
             && c in s.open && s.open[c].AwaitToken? && s.open[c].tool == tool
    ensures var s := Run(dep, steps);
            var gone := steps + [AtDesk(DoDisconnect(who, s.tools[tool].desk, tool))];
            var s' := Run(dep, gone + [AtDesk(DoReturn(c, Returned(token), false))]);
            tool !in Run(dep, gone).tools
            && tool in s'.tools && s'.tools[tool] == s.open[c].asked.(signedIn := true)
  {
    hide Run, Disconnect, Return, Owns, TokensWait;
    var s := Run(dep, steps);
    var desk := s.tools[tool].desk;
    var gone := steps + [AtDesk(DoDisconnect(who, desk, tool))];
    TakesDisconnect(dep, steps, who, desk, tool);
    TakesReturn(dep, gone, c, Returned(token), false);
    RunDep(dep, steps);
    Removed(s, who, desk, tool);
    RunTokens(dep, gone);
    TokenIsSaved(Run(dep, gone), c, token);
  }

  /** An accepted disconnect stands in every continuation of the run if and only if no sign-in of the tool
    * was waiting for the provider, which the caller can check before disconnecting. */
  lemma DisconnectStandsIff(dep: Deployment, steps: seq<Step>, who: string, tool: Id)
    requires var s := Run(dep, steps); tool in s.tools && Owns(dep, who, s.tools[tool].desk)
    ensures var s := Run(dep, steps);
            var gone := steps + [AtDesk(DoDisconnect(who, s.tools[tool].desk, tool))];
            (forall more: seq<Step> :: tool !in Run(dep, gone + more).tools) <==> !SigningIn(s.open, tool)
  {
    hide Run, Disconnect, Return, Owns, Basic, Ledger, Queue;
    var s := Run(dep, steps);
    var desk := s.tools[tool].desk;
    var gone := steps + [AtDesk(DoDisconnect(who, desk, tool))];
    if SigningIn(s.open, tool) {
      var c :| c in s.open && s.open[c].AwaitToken? && s.open[c].tool == tool;
      SignInOutlivesDisconnect(dep, steps, who, tool, c, map[]);
      var more := [AtDesk(DoReturn(c, Returned(map[]), false))];
      assert tool in Run(dep, gone + more).tools;
    } else {
      TakesDisconnect(dep, steps, who, desk, tool);
      RunDep(dep, steps);
      RunInv(dep, steps);
      ToolsBelow(s, tool);
      Removed(s, who, desk, tool);
      forall more: seq<Step> ensures tool !in Run(dep, gone + more).tools { GoneForever(dep, gone, more, tool); }
    }
  }

  /** The failing case can be reached from every state with a tool that signs in: ask for the token, then
    * disconnect. */
  lemma SignInCanBeUnderWay(dep: Deployment, steps: seq<Step>, tool: Id)
    requires var s := Run(dep, steps); tool in s.tools && SignsIn(dep, s.tools[tool])
    ensures var s := Run(dep, steps + [AtDesk(DoCompleteOAuth(tool))]);
            tool in s.tools && s.tools[tool] == Run(dep, steps).tools[tool] && SigningIn(s.open, tool)
  {
    hide Run, CompleteOAuth, SignsIn;
    TakesCompleteOAuth(dep, steps, tool);
    RunDep(dep, steps);
    SignInWaits(Run(dep, steps), tool);
    assert |Run(dep, steps).calls| in Run(dep, steps + [AtDesk(DoCompleteOAuth(tool))]).open;
  }
}
