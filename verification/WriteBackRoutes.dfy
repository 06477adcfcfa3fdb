/** Which way an external call goes: the tool's own bridge, the cloud application, or in process; and when
  * a settlement finds its way open. */
module WriteBackRoutes {
  import opened Options
  import opened Records
  import opened WriteBack
  import opened WriteBackShapes
  import opened WriteBackInvariants
  import opened WriteBackLedger
  import opened WriteBackJobs
  import opened WriteBackHistory
  import opened WriteBackSteps
  import opened WriteBackTheorems
  import opened WriteBackGuarantees

  // --- one tool -----------------------------------------------------------------------------------

  /** The bridge is known, was seen in the last 45 seconds, and lets the action through. */
  predicate BridgeOpen(s: State, b: Id, key: string, action: string) {
    b in s.bridges && s.bridges[b].lastSeen.Some? && s.now - s.bridges[b].lastSeen.value <= 45
    && (s.bridges[b].allowed == {} || key + ":" + action in s.bridges[b].allowed)
  }

  predicate CloudTool(dep: Deployment, t: Tool) { t.bridge.None? && t.spec && t.key in dep.cloudApps }

  /** A call of this tool would be let out. */
  predicate RouteOpen(s: State, t: Tool, action: string) {
    (t.bridge.Some? ==> BridgeOpen(s, t.bridge.value, t.key, action))
    && (CloudTool(s.dep, t) ==> action in s.dep.cloudApps[t.key].writable)
  }

  /** The call went the tool's way: through its own bridge if it has one, to the cloud application if it
    * carries a spec of one, in process otherwise. */
  ghost predicate OnRoute(dep: Deployment, jobs: map<Id, Job>, t: Tool, call: Call) {
    && (call.channel.ViaBridge? <==> t.bridge.Some?)
    && (call.channel.ViaBridge? ==> QueuedAt(jobs, t.bridge.value, call))
    && (call.channel == Cloud <==> CloudTool(dep, t))
  }

  /** The call's job is queued at this bridge and asks for what the call asks for. */
  ghost predicate QueuedAt(jobs: map<Id, Job>, b: Id, call: Call)
    requires call.channel.ViaBridge?
  {
    call.channel.job in jobs && jobs[call.channel.job].bridge == b
    && jobs[call.channel.job].key == call.key && jobs[call.channel.job].action == call.action
    && jobs[call.channel.job].params == call.params
  }

  /** A call through a bridge begins exactly when the bridge is open, and is queued there. */
  lemma BridgeRoute(s: State, o: Origin, b: Id, key: string, action: string, params: Payload, w: Await)
    ensures var st := BridgeStart(s, o, b, key, action, params, w);
            (st.Started? <==> BridgeOpen(s, b, key, action))
            && (st.Started? ==>
                  |st.state.calls| == |s.calls| + 1 && st.state.calls[|s.calls|].channel == ViaBridge(s.next)
                  && QueuedAt(st.state.jobs, b, st.state.calls[|s.calls|]))
  {
    hide Begins;
  }

  lemma OwnRoute(s: State, o: Origin, key: string, action: string, params: Payload, ch: Channel, w: Await)
    requires !ch.ViaBridge?
    ensures var s' := OwnCall(s, o, key, action, params, ch, w);
            |s'.calls| == |s.calls| + 1 && s'.calls[|s.calls|].channel == ch
  {
    hide Begins;
  }

  /** A tool's call begins exactly when its route is open, and takes it. */
  lemma ToolRoute(s: State, o: Origin, t: Tool, action: string, params: Payload, w: Await)
    ensures var st := RunTool(s, o, t, action, params, w);
            (st.Started? <==> RouteOpen(s, t, action))
            && (st.Started? ==> |st.state.calls| == |s.calls| + 1
                                && OnRoute(s.dep, st.state.jobs, t, st.state.calls[|s.calls|]))
  {
    hide BridgeStart, QueuedAt, BridgeOpen, OwnCall, Begins;
    if t.bridge.Some? {
      BridgeRoute(s, o, t.bridge.value, t.key, action, params, w);
    } else {
      OwnRoute(s, o, t.key, action, params, Cloud, w);
      OwnRoute(s, o, t.key, action, params, Local, w);
    }
  }

  // --- settlements ------------------------------------------------------------------------------------

  lemma BeganAs(s: State, s': State, sh: Shape)
    requires Fits(s, s', sh) && s'.calls != s.calls
    ensures sh.Calling? && |s'.calls| == |s.calls| + 1 && s'.calls[|s.calls|].origin == sh.o
  {}

  lemma SettleRoute(s: State, row: Request)
    ensures var s' := Settle(s, row);
            s'.calls != s.calls ==>
              row.tool in s.tools && |s'.calls| == |s.calls| + 1
              && s'.calls[|s.calls|].origin == Settlement(row.id)
              && OnRoute(s.dep, s'.jobs, s.tools[row.tool], s'.calls[|s.calls|])
  {
    hide RunTool, Close, Begins, OnRoute, RouteOpen, Fits;
    if row.tool in s.tools {
      ToolRoute(s, Settlement(row.id), s.tools[row.tool], row.action, row.params, AwaitSettle(row));
    }
    if Settle(s, row).calls != s.calls {
      var sh := SettleShape(s, row);
      BeganAs(s, Settle(s, row), sh);
    }
  }

  /** An approved request can run: the switch is off, its tool and connector are there, its route is open. */
  predicate Ready(s: State, row: Request) {
    !s.halted && row.tool in s.tools && row.key in s.dep.connectors && RouteOpen(s, s.tools[row.tool], row.action)
  }

  /** Why an approved request that cannot run is closed. */
  function WhyNot(s: State, row: Request): Fault
    requires !Ready(s, row)
  {
    if s.halted then AutonomyHalted
    else if row.tool !in s.tools || row.key !in s.dep.connectors then NoLongerAvailable
    else if s.tools[row.tool].bridge.None? then NoWritePath
    else
      var b := s.tools[row.tool].bridge.value;
      if b !in s.bridges then NoSuchBridge
      else if s.bridges[b].lastSeen.None? || s.now - s.bridges[b].lastSeen.value > 45 then BridgeOffline
      else NotOnAllowlist
  }

  /** Settling an approved request begins its call and leaves the row alone if and only if the request can
    * run, and closes it as failed, with the reason, otherwise. */
  lemma SettlesIff(s: State, row: Request)
    requires Approved(s, row.id)
    ensures var s' := Settle(s, row);
            if Ready(s, row) then |s'.calls| == |s.calls| + 1 && s'.reqs == s.reqs
            else s'.calls == s.calls
                 && s'.reqs == s.reqs[row.id := row.(status := Failed, reason := WhyNot(s, row))]
  {
    hide RunTool, OnRoute, RouteOpen, Begins, Close;
    forall why { FailedRow(s, row, why); }
    if row.tool in s.tools {
      var t, w := s.tools[row.tool], AwaitSettle(row);
      ToolRoute(s, Settlement(row.id), t, row.action, row.params, w);
      WhyRefused(s, Settlement(row.id), t, row.action, row.params, w);
      var st := RunTool(s, Settlement(row.id), t, row.action, row.params, w);
      if st.Started? { BeginsKeepsRows(s, st.state, Settlement(row.id), t.key, row.action, row.params, w); }
    }
  }

  lemma FailedRow(s: State, row: Request, why: Fault)
    ensures var s' := Close(s, row, Raised(why));
            s'.calls == s.calls && s'.reqs == s.reqs[row.id := row.(status := Failed, reason := why)]
  {}

  lemma BeginsKeepsRows(s: State, s': State, o: Origin, key: string, action: string, params: Payload, w: Await)
    requires Begins(s, s', o, key, action, params, w)
    ensures s'.reqs == s.reqs && |s'.calls| == |s.calls| + 1
  {}

  lemma WhyRefused(s: State, o: Origin, t: Tool, action: string, params: Payload, w: Await)
    ensures var st := RunTool(s, o, t, action, params, w);
            st.Refused? ==>
              st.why == if t.bridge.None? then NoWritePath
                        else if t.bridge.value !in s.bridges then NoSuchBridge
                        else if s.bridges[t.bridge.value].lastSeen.None?
                                || s.now - s.bridges[t.bridge.value].lastSeen.value > 45 then BridgeOffline
                        else NotOnAllowlist
  {
    hide Begins, OwnCall;
  }

  /** From any reachable state: approving a pending request begins exactly one call, and the row stays
    * pending, if and only if the request can run; otherwise it is failed at once, with the reason. */
  lemma ApprovalRunsIff(dep: Deployment, steps: seq<Step>, approver: string, r: Id, reason: string)
    requires var s := Run(dep, steps); r in s.reqs && s.reqs[r].status.Pending? && approver != s.reqs[r].maker
    ensures var s, s' := Run(dep, steps), Run(dep, steps + [AtDesk(DoDecide(approver, r, true, reason, false))]);
            if Ready(s, s.reqs[r]) then |s'.calls| == |s.calls| + 1 && s'.reqs == s.reqs
            else s'.calls == s.calls && r in s'.reqs && s'.reqs[r].status.Failed?
                 && s'.reqs[r].reason == WhyNot(s, s.reqs[r])
  {
    hide Run, Settle, Ready, Basic, Ledger, Queue;
    var s := Run(dep, steps);
    TakesDecide(dep, steps, approver, r, true, reason, false);
    RunInv(dep, steps);
    RowIsItsOwn(s, r);
    var s1, row := ApproveGate(s, r, approver), s.reqs[r].(approver := Some(approver));
    SettlesIff(s1, row);
    SameReadiness(s, s1, s.reqs[r], row);
  }

  lemma RowIsItsOwn(s: State, r: Id)
    requires Basic(s) && r in s.reqs
    ensures s.reqs[r].id == r
  {}

  lemma SameReadiness(s: State, s1: State, a: Request, b: Request)
    requires s1.tools == s.tools && s1.bridges == s.bridges && s1.dep == s.dep && s1.now == s.now
    requires s1.halted == s.halted
    requires b.tool == a.tool && b.key == a.key && b.action == a.action
    ensures Ready(s1, b) <==> Ready(s, a)
    ensures !Ready(s, a) ==> WhyNot(s1, b) == WhyNot(s, a)
  {}

  /** And so does a desk poll that reaches the pending copy of an approved request. */
  lemma PollRunsIff(s: State, p: Id)
    requires PollReady(s, p) && s.polls[p].rows[0].status.Pending? && Approved(s, s.polls[p].rows[0].id)
    ensures var s', row := PollNext(s, p), s.polls[p].rows[0];
            if Ready(s, row) then |s'.calls| == |s.calls| + 1 && s'.reqs == s.reqs
            else s'.calls == s.calls
                 && s'.reqs == s.reqs[row.id := row.(status := Failed, reason := WhyNot(s, row))]
  {
    hide Settle, Ready;
    SettlesIff(s, s.polls[p].rows[0]);
  }

  // --- over runs ----------------------------------------------------------------------------------------

  /** A step that starts a settlement call takes the route of the tool its request names. */
  lemma DeskRoute(s: State, d: DeskStep)
    requires Basic(s)
    ensures var s' := DeskNext(s, d);
            s'.calls != s.calls && |s'.calls| > |s.calls| && s'.calls[|s.calls|].origin.Settlement? ==>
              var r := s'.calls[|s.calls|].origin.request;
              r in s.reqs && s.reqs[r].tool in s.tools
              && OnRoute(s.dep, s'.jobs, s.tools[s.reqs[r].tool], s'.calls[|s.calls|])
  {
    hide Invoke, Decide, PollStart, PollNext, Return, OnlyTools, Connect, Disconnect, OnRoute, Basic, Fits;
    hide TerminalExec, TerminalHosts, TestSpec, CompleteOAuth;
    match d
    case DoInvoke(who, desk, tool, action, params) =>
      var sh := InvokeShape(s, who, desk, tool, action, params);
      OriginIs(s, Invoke(s, who, desk, tool, action, params), sh);
    case DoDecide(approver, r, approve, reason, stop) => DecideRoute(s, approver, r, approve, reason, stop);
    case DoPollStart(who, desk) => PollStartCalls(s, who, desk);
    case DoPollNext(p) => PollNextRoute(s, p);
    case DoReturn(c, local, timedOut) => ReturnCalls(s, c, local, timedOut);
    case DoConnect(_, _, _, _, _, _) => ToolsCalls(s, DeskNext(s, d));
    case DoDisconnect(_, _, _) => ToolsCalls(s, DeskNext(s, d));
    case _ =>
      var sh := OwnShape(s, d);
      OriginIs(s, DeskNext(s, d), sh);
  }

  lemma OriginIs(s: State, s': State, sh: Shape)
    requires Fits(s, s', sh)
    ensures |s'.calls| > |s.calls| ==> sh.Calling? && s'.calls[|s.calls|].origin == sh.o
  {}

  lemma PollStartCalls(s: State, who: string, desk: Id)
    ensures PollStart(s, who, desk).calls == s.calls
  {
    hide RowsOf;
  }

  lemma ReturnCalls(s: State, c: nat, local: Outcome, timedOut: bool)
    ensures Return(s, c, local, timedOut).calls == s.calls
  {
    hide Finish, OutcomeOf;
    if c in s.open { forall out { FinishCalls(s.(open := s.open - {c}), s.open[c], out); } }
  }

  lemma CopyTool(s: State, row: Request)
    requires CopyOf(row, s.reqs)
    ensures row.id in s.reqs && s.reqs[row.id].tool == row.tool
  {}

  lemma DecideRoute(s: State, approver: string, r: Id, approve: bool, reason: string, stop: bool)
    requires Basic(s)
    ensures var s' := Decide(s, approver, r, approve, reason, stop);
            |s'.calls| > |s.calls| && s'.calls[|s.calls|].origin.Settlement? ==>
              var q := s'.calls[|s.calls|].origin.request;
              q in s.reqs && s.reqs[q].tool in s.tools
              && OnRoute(s.dep, s'.jobs, s.tools[s.reqs[q].tool], s'.calls[|s.calls|])
  {
    hide Settle, Basic, OnRoute;
    if r in s.reqs {
      RowIsItsOwn(s, r);
      SettleRoute(ApproveGate(s, r, approver), s.reqs[r].(approver := Some(approver)));
    }
  }

  lemma PollNextRoute(s: State, p: Id)
    requires Basic(s)
    ensures var s' := PollNext(s, p);
            |s'.calls| > |s.calls| && s'.calls[|s.calls|].origin.Settlement? ==>
              var q := s'.calls[|s.calls|].origin.request;
              q in s.reqs && s.reqs[q].tool in s.tools
              && OnRoute(s.dep, s'.jobs, s.tools[s.reqs[q].tool], s'.calls[|s.calls|])
  {
    hide Settle, OnRoute;
    if PollReady(s, p) {
      var row := s.polls[p].rows[0];
      assert row in s.polls[p].rows;
      assert CopyOf(row, s.reqs);
      CopyTool(s, row);
      SettleRoute(s, row);
    }
  }

  /** Every settlement call of every run took the route of the tool that its request names, as that tool
    * stood when the call began: for a tool on a bridge its job is queued at that very bridge. */
  lemma SettlementTakesToolsRoute(dep: Deployment, steps: seq<Step>, c: nat) returns (k: nat)
    requires c < |Run(dep, steps).calls| && Run(dep, steps).calls[c].origin.Settlement?
    ensures k < |steps| && |Before(dep, steps, k).calls| == c < |Before(dep, steps, k + 1).calls|
    ensures var s, call := Run(dep, steps), Run(dep, steps).calls[c];
            var r, was := call.origin.request, Before(dep, steps, k).tools;
            r in s.reqs && s.reqs[r].tool in was && OnRoute(dep, s.jobs, was[s.reqs[r].tool], call)
  {
    hide DeskNext, Basic, Ledger, Queue, OneCall, OnRoute, JobsGrow, RowsGrow;
    k := CallBegan(dep, steps, c);
    var s := Before(dep, steps, k);
    RunStep(dep, steps, k);
    RunInv(dep, steps[..k]);
    RunDep(dep, steps[..k]);
    DeskRoute(s, steps[k].d);
    JobsNeverReturnToPending(dep, steps, k + 1);
    RowsGrowOverRun(dep, steps, k);
    var call := Run(dep, steps).calls[c];
    var r := call.origin.request;
    SameTool(s.reqs, Run(dep, steps).reqs, r);
    RouteStays(dep, Before(dep, steps, k + 1).jobs, Run(dep, steps).jobs, s.tools[s.reqs[r].tool], call);
  }

  lemma SameTool(reqs: map<Id, Request>, reqs': map<Id, Request>, r: Id)
    requires RowsGrow(reqs, reqs') && r in reqs
    ensures r in reqs' && reqs'[r].tool == reqs[r].tool
  {}

  lemma RouteStays(dep: Deployment, jobs: map<Id, Job>, jobs': map<Id, Job>, t: Tool, call: Call)
    requires OnRoute(dep, jobs, t, call) && JobsGrow(jobs, jobs')
    ensures OnRoute(dep, jobs', t, call)
  {}
}
