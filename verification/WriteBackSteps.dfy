/** One step more: the run goes on by the operation that the step names. */
module WriteBackSteps {
  import opened Options
  import opened Records
  import opened WriteBack

  lemma Takes(dep: Deployment, steps: seq<Step>, step: Step)
    ensures Run(dep, steps + [step]) == Next(Run(dep, steps), step)
  {
    hide Next;
    assert (steps + [step])[..|steps|] == steps;
  }

  lemma TakesAdmin(dep: Deployment, steps: seq<Step>, a: AdminStep)
    ensures Run(dep, steps + [ByAdmin(a)]) == AdminNext(Run(dep, steps), a)
  {
    hide Run, AdminNext;
    Takes(dep, steps, ByAdmin(a));
  }

  lemma TakesInvoke(dep: Deployment, steps: seq<Step>,
      who: string, desk: Id, tool: Id, action: string, params: Payload)
    ensures Run(dep, steps + [AtDesk(DoInvoke(who, desk, tool, action, params))])
            == Invoke(Run(dep, steps), who, desk, tool, action, params)
  {
    hide Run, Invoke, Decide, PollStart, PollNext, Return, Connect, CompleteOAuth, Disconnect, TerminalExec,
      TerminalHosts, TestSpec;
    Takes(dep, steps, AtDesk(DoInvoke(who, desk, tool, action, params)));
  }

  lemma TakesDecide(dep: Deployment, steps: seq<Step>,
      approver: string, r: Id, approve: bool, reason: string, stop: bool)
    ensures Run(dep, steps + [AtDesk(DoDecide(approver, r, approve, reason, stop))])
            == Decide(Run(dep, steps), approver, r, approve, reason, stop)
  {
    hide Run, Invoke, Decide, PollStart, PollNext, Return, Connect, CompleteOAuth, Disconnect, TerminalExec,
      TerminalHosts, TestSpec;
    Takes(dep, steps, AtDesk(DoDecide(approver, r, approve, reason, stop)));
  }

  lemma TakesPollStart(dep: Deployment, steps: seq<Step>, who: string, desk: Id)
    ensures Run(dep, steps + [AtDesk(DoPollStart(who, desk))]) == PollStart(Run(dep, steps), who, desk)
  {
    hide Run, Invoke, Decide, PollStart, PollNext, Return, Connect, CompleteOAuth, Disconnect, TerminalExec,
      TerminalHosts, TestSpec;
    Takes(dep, steps, AtDesk(DoPollStart(who, desk)));
  }

  lemma TakesPollNext(dep: Deployment, steps: seq<Step>, p: Id)
    ensures Run(dep, steps + [AtDesk(DoPollNext(p))]) == PollNext(Run(dep, steps), p)
  {
    hide Run, Invoke, Decide, PollStart, PollNext, Return, Connect, CompleteOAuth, Disconnect, TerminalExec,
      TerminalHosts, TestSpec;
    Takes(dep, steps, AtDesk(DoPollNext(p)));
  }

  lemma TakesReturn(dep: Deployment, steps: seq<Step>, c: nat, local: Outcome, timedOut: bool)
    ensures Run(dep, steps + [AtDesk(DoReturn(c, local, timedOut))]) == Return(Run(dep, steps), c, local, timedOut)
  {
    hide Run, Invoke, Decide, PollStart, PollNext, Return, Connect, CompleteOAuth, Disconnect, TerminalExec,
      TerminalHosts, TestSpec;
    Takes(dep, steps, AtDesk(DoReturn(c, local, timedOut)));
  }

  lemma TakesConnect(dep: Deployment, steps: seq<Step>,
      who: string, desk: Id, key: string, bridge: Option<Id>, spec: bool, signedIn: bool)
    ensures Run(dep, steps + [AtDesk(DoConnect(who, desk, key, bridge, spec, signedIn))])
            == Connect(Run(dep, steps), who, desk, key, bridge, spec, signedIn)
  {
    hide Run, Invoke, Decide, PollStart, PollNext, Return, Connect, CompleteOAuth, Disconnect, TerminalExec,
      TerminalHosts, TestSpec;
    Takes(dep, steps, AtDesk(DoConnect(who, desk, key, bridge, spec, signedIn)));
  }

  lemma TakesCompleteOAuth(dep: Deployment, steps: seq<Step>, tool: Id)
    ensures Run(dep, steps + [AtDesk(DoCompleteOAuth(tool))]) == CompleteOAuth(Run(dep, steps), tool)
  {
    hide Run, Invoke, Decide, PollStart, PollNext, Return, Connect, CompleteOAuth, Disconnect, TerminalExec,
      TerminalHosts, TestSpec;
    Takes(dep, steps, AtDesk(DoCompleteOAuth(tool)));
  }

  lemma TakesDisconnect(dep: Deployment, steps: seq<Step>, who: string, desk: Id, tool: Id)
    ensures Run(dep, steps + [AtDesk(DoDisconnect(who, desk, tool))]) == Disconnect(Run(dep, steps), who, desk, tool)
  {
    hide Run, Invoke, Decide, PollStart, PollNext, Return, Connect, CompleteOAuth, Disconnect, TerminalExec,
      TerminalHosts, TestSpec;
    Takes(dep, steps, AtDesk(DoDisconnect(who, desk, tool)));
  }

  lemma TakesTerminalExec(dep: Deployment, steps: seq<Step>,
      who: string, desk: Id, b: Id, safe: bool, params: Payload)
    ensures Run(dep, steps + [AtDesk(DoTerminalExec(who, desk, b, safe, params))])
            == TerminalExec(Run(dep, steps), who, desk, b, safe, params)
  {
    hide Run, Invoke, Decide, PollStart, PollNext, Return, Connect, CompleteOAuth, Disconnect, TerminalExec,
      TerminalHosts, TestSpec;
    Takes(dep, steps, AtDesk(DoTerminalExec(who, desk, b, safe, params)));
  }

  lemma TakesTerminalHosts(dep: Deployment, steps: seq<Step>, who: string, desk: Id, b: Id)
    ensures Run(dep, steps + [AtDesk(DoTerminalHosts(who, desk, b))]) == TerminalHosts(Run(dep, steps), who, desk, b)
  {
    hide Run, Invoke, Decide, PollStart, PollNext, Return, Connect, CompleteOAuth, Disconnect, TerminalExec,
      TerminalHosts, TestSpec;
    Takes(dep, steps, AtDesk(DoTerminalHosts(who, desk, b)));
  }

  lemma TakesTestSpec(dep: Deployment, steps: seq<Step>, who: string, desk: Id, via: Option<Id>)
    ensures Run(dep, steps + [AtDesk(DoTestSpec(who, desk, via))]) == TestSpec(Run(dep, steps), who, desk, via)
  {
    hide Run, Invoke, Decide, PollStart, PollNext, Return, Connect, CompleteOAuth, Disconnect, TerminalExec,
      TerminalHosts, TestSpec;
    Takes(dep, steps, AtDesk(DoTestSpec(who, desk, via)));
  }

  lemma TakesPair(dep: Deployment, steps: seq<Step>, desk: Id, code: string)
    ensures Run(dep, steps + [AtBridge(DoPair(desk, code))]) == Pair(Run(dep, steps), desk, code)
  {
    hide Run, Pair, Claim, Hello, SetAllowed, Revoke, ClaimJobs, SubmitResult;
    Takes(dep, steps, AtBridge(DoPair(desk, code)));
  }

  lemma TakesClaim(dep: Deployment, steps: seq<Step>, code: string)
    ensures Run(dep, steps + [AtBridge(DoClaim(code))]) == Claim(Run(dep, steps), code)
  {
    hide Run, Pair, Claim, Hello, SetAllowed, Revoke, ClaimJobs, SubmitResult;
    Takes(dep, steps, AtBridge(DoClaim(code)));
  }

  lemma TakesHello(dep: Deployment, steps: seq<Step>, b: Id, secret: int)
    ensures Run(dep, steps + [AtBridge(DoHello(b, secret))]) == Hello(Run(dep, steps), b, secret)
  {
    hide Run, Pair, Claim, Hello, SetAllowed, Revoke, ClaimJobs, SubmitResult;
    Takes(dep, steps, AtBridge(DoHello(b, secret)));
  }

  lemma TakesSetAllowed(dep: Deployment, steps: seq<Step>, desk: Id, b: Id, actions: seq<string>)
    ensures Run(dep, steps + [AtBridge(DoSetAllowed(desk, b, actions))])
            == SetAllowed(Run(dep, steps), desk, b, actions)
  {
    hide Run, Pair, Claim, Hello, SetAllowed, Revoke, ClaimJobs, SubmitResult;
    Takes(dep, steps, AtBridge(DoSetAllowed(desk, b, actions)));
  }

  lemma TakesRevoke(dep: Deployment, steps: seq<Step>, desk: Id, b: Id)
    ensures Run(dep, steps + [AtBridge(DoRevoke(desk, b))]) == Revoke(Run(dep, steps), desk, b)
  {
    hide Run, Pair, Claim, Hello, SetAllowed, Revoke, ClaimJobs, SubmitResult;
    Takes(dep, steps, AtBridge(DoRevoke(desk, b)));
  }

  lemma TakesClaimJobs(dep: Deployment, steps: seq<Step>, b: Id, secret: int)
    ensures Run(dep, steps + [AtBridge(DoClaimJobs(b, secret))]) == ClaimJobs(Run(dep, steps), b, secret)
  {
    hide Run, Pair, Claim, Hello, SetAllowed, Revoke, ClaimJobs, SubmitResult;
    Takes(dep, steps, AtBridge(DoClaimJobs(b, secret)));
  }

  lemma TakesSubmit(dep: Deployment, steps: seq<Step>, b: Id, secret: int, j: Id, answer: Answer)
    ensures Run(dep, steps + [AtBridge(DoSubmit(b, secret, j, answer))])
            == SubmitResult(Run(dep, steps), b, secret, j, answer)
  {
    hide Run, Pair, Claim, Hello, SetAllowed, Revoke, ClaimJobs, SubmitResult;
    Takes(dep, steps, AtBridge(DoSubmit(b, secret, j, answer)));
  }
}
