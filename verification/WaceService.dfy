/** The connector, gate, bridge and kill-switch services over one repository, updating it in
  * place. Every method is proved against its step of the `WriteBack` machine, and the object always
  * stands where the run of the steps it has taken stands. */
module WaceService {
  import opened Options
  import opened Records
  import W = WriteBack
  import L = WriteBackLedger
  import G = WriteBackGuarantees
  import H = WriteBackHandlers
  import N = WriteBackSteps
  import O = WriteBackOrder
  import T = WriteBackTheorems

  /** What an agent is handed for a job. */
  datatype Handout = Handout(id: Id, key: string, action: string, params: Payload)

  ghost predicate IsHandout(h: Handout, jobs: map<Id, Job>, j: Id) {
    h.id == j && j in jobs && h.key == jobs[j].key && h.action == jobs[j].action && h.params == jobs[j].params
  }

  /** Some call was started through this job with exactly this key, action and parameters. */
  ghost predicate CarriesCall(h: Handout, calls: seq<Call>) {
    exists c :: 0 <= c < |calls| && calls[c].channel == ViaBridge(h.id)
      && calls[c].key == h.key && calls[c].action == h.action && calls[c].params == h.params
  }

  class Wace {
    const dep: Deployment
    var now: int
    var halted: bool
    var reasons: seq<string>
    var policy: Policy
    var tools: map<Id, Tool>
    var gate: map<Id, Gate>
    var reqs: map<Id, Request>
    var bridges: map<Id, Bridge>
    var jobs: map<Id, Job>
    var audit: seq<Event>
    var polls: map<Id, Poll>
    var open: map<nat, Await>
    var next: Id
    var started: nat               // external calls begun so far
    ghost var calls: seq<Call>
    ghost var handed: seq<Id>
    ghost var submitted: seq<Submission>
    ghost var keys: map<Id, string>
    ghost var steps: seq<W.Step>   // every step taken so far

    ghost predicate Counted()
      reads this
    {
      started == |calls|
    }

    /** The tables are those the run of all steps taken so far ends with. */
    ghost predicate Valid()
      reads this
    {
      Counted() && Abs() == W.Run(dep, steps)
    }

    ghost function Abs(): W.State
      reads this
    {
      W.State(dep, now, halted, reasons, policy, tools, gate, reqs, bridges, jobs, audit, polls, open,
              calls, handed, submitted, keys, next)
    }

    constructor (dep: Deployment)
      ensures Valid() && Abs() == W.Init(dep) && steps == []
    {
      this.dep := dep;
      now, halted, reasons, policy := 0, false, [], Policy(false, false, []);
      tools, gate, reqs, bridges, jobs := map[], map[], map[], map[], map[];
      audit, polls, open, next, started := [], map[], map[], 0, 0;
      calls, handed, submitted, keys, steps := [], [], [], map[], [];
    }

    // --- what the object promises at any time -------------------------------------------------

    /** The stored status of every request is what its receipts say, with one request receipt each. */
    lemma LogAndRowsAgree(r: Id)
      requires Valid()
      ensures if r in reqs then L.Replay(audit, r) == Some(reqs[r].status) && L.Asked(audit, r) == 1
              else L.Replay(audit, r) == None && L.Asked(audit, r) == 0
    {
      hide W.Run;
      T.ReplayIsTheStoredStatus(dep, steps, r);
    }

    /** Every settlement call it ever made asked for what its request asks for, in the name of an
      * approver who is not the maker, while the switch was off. */
    lemma SettlementsAreApproved(c: nat)
      requires Valid() && c < |calls| && calls[c].origin.Settlement?
      ensures var call := calls[c]; var r := call.origin.request;
              r in reqs && call.key == reqs[r].key && call.action == reqs[r].action && call.params == reqs[r].params
              && call.approver.Some? && call.approver.value != reqs[r].maker && !call.halted
    {
      hide W.Run;
      T.RunInv(dep, steps);
      G.BasicCalls(Abs(), c);
    }

    lemma CallsAreTheRuns()
      requires Valid()
      ensures W.Run(dep, steps).calls == calls
    {
      hide W.Run;
    }

    /** If its callers kept the discipline, it never started two calls for one request. */
    lemma NothingRanTwice(r: Id, c: nat, d: nat)
      requires Valid() && O.Orderly(dep, steps) && T.SettlesBy(calls, r, c) && T.SettlesBy(calls, r, d)
      ensures c == d
    {
      CallsAreTheRuns();
      hide *;
      O.OneCallEach(dep, steps, r, c, d);
    }

    // --- governance.py: the gate, the log and the switch --------------------------------

    method AppendAudit(kind: Kind, actor: string, desk: Id, request: Option<Id>)
      modifies this`audit
      ensures audit == old(audit) + [Event(kind, actor, desk, request)]
    {
      audit := audit + [Event(kind, actor, desk, request)];
    }

    method ApproveGelTask(r: Id, approver: string)
      modifies this`gate
      ensures Abs() == W.ApproveGate(old(Abs()), r, approver)
    {
      gate := gate[r := Gate(GateApproved, Some(approver))];
    }

    method Activate(reason: string)
      requires Valid()
      modifies this`halted, this`reasons, this`steps
      ensures Valid() && steps == old(steps) + [W.ByAdmin(W.DoHalt(reason))]
      ensures halted && reasons == [if reason == "" then "halted" else reason]
    {
      hide W.Run, W.Next;
      N.TakesAdmin(dep, steps, W.DoHalt(reason));
      steps := steps + [W.ByAdmin(W.DoHalt(reason))];
      halted := true;
      reasons := [if reason == "" then "halted" else reason];
    }

    method Deactivate()
      requires Valid()
      modifies this`halted, this`reasons, this`steps
      ensures Valid() && steps == old(steps) + [W.ByAdmin(W.DoResume)]
      ensures !halted && reasons == []
    {
      hide W.Run, W.Next;
      N.TakesAdmin(dep, steps, W.DoResume);
      steps := steps + [W.ByAdmin(W.DoResume)];
      halted := false;
      reasons := [];
    }

    /** Field by field, as the patch names them. */
    method PutPolicy(patch: Patch)
      requires Counted()
      modifies this`policy
      ensures Counted() && steps == old(steps)
      ensures policy == W.Patched(old(policy), patch)
    {
      if patch.requireApproval.Some? { policy := policy.(requireApproval := patch.requireApproval.value); }
      if patch.blockTerminal.Some? { policy := policy.(blockTerminal := patch.blockTerminal.value); }
      if patch.blocked.Some? {
        var list := patch.blocked.value;
        policy := policy.(blocked := if |list| > W.MAX_BLOCKED then list[..W.MAX_BLOCKED] else list);
      }
    }

    method SetOrgPolicy(patch: Patch)
      requires Valid()
      modifies this`policy, this`steps
      ensures Valid() && steps == old(steps) + [W.ByAdmin(W.DoSetPolicy(patch))]
      ensures policy == W.Patched(old(policy), patch)
    {
      hide W.Run, W.Next, W.Patched;
      N.TakesAdmin(dep, steps, W.DoSetPolicy(patch));
      steps := steps + [W.ByAdmin(W.DoSetPolicy(patch))];
      PutPolicy(patch);
    }

    method Tick(seconds: nat)
      requires Valid()
      modifies this`now, this`steps
      ensures Valid() && steps == old(steps) + [W.ByAdmin(W.DoTick(seconds))] && now == old(now) + seconds
    {
      hide W.Run, W.Next;
      N.TakesAdmin(dep, steps, W.DoTick(seconds));
      steps := steps + [W.ByAdmin(W.DoTick(seconds))];
      now := now + seconds;
    }

    // --- starting an external call ---------------------------------------------------------

    method StartCall(o: Origin, key: string, action: string, params: Payload, ch: Channel, w: Await)
      requires Counted()
      modifies this`open, this`started, this`calls
      ensures Counted()
      ensures Abs() == W.StartCall(old(Abs()), W.MakeCall(old(Abs()), o, key, action, params, ch), w)
    {
      open := open[started := w];
      calls := calls + [W.MakeCall(Abs(), o, key, action, params, ch)];
      started := started + 1;
    }

    /** `run_via_bridge` up to the enqueued job; None when the call began. */
    method RunViaBridge(o: Origin, b: Id, key: string, action: string, params: Payload, w: Await)
      returns (fault: Option<Fault>)
      requires Counted()
      modifies this`open, this`started, this`calls, this`jobs, this`next
      ensures Counted()
      ensures match W.BridgeStart(old(Abs()), o, b, key, action, params, w)
              case Refused(why) => fault == Some(why) && Abs() == old(Abs())
              case Started(s) => fault == None && Abs() == s
    {
      if b !in bridges { return Some(NoSuchBridge); }
      if !W.Online(bridges[b], now) { return Some(BridgeOffline); }
      if bridges[b].allowed != {} && key + ":" + action !in bridges[b].allowed { return Some(NotOnAllowlist); }
      StartCall(o, key, action, params, ViaBridge(next), w);
      jobs := jobs[next := Job(b, key, action, params, JobPending, map[], "")];
      next := next + 1;
      fault := None;
    }

    method RunCustomWrite(o: Origin, key: string, action: string, params: Payload, w: Await)
      returns (fault: Option<Fault>)
      requires Counted()
      modifies this`open, this`started, this`calls
      ensures Counted()
      ensures match W.CloudWrite(old(Abs()), o, key, action, params, w)
              case Refused(why) => fault == Some(why) && Abs() == old(Abs())
              case Started(s) => fault == None && Abs() == s
    {
      if key !in dep.cloudApps || action !in dep.cloudApps[key].writable { return Some(NoWritePath); }
      StartCall(o, key, action, params, Cloud, w);
      fault := None;
    }

    method RunTool(o: Origin, t: Tool, action: string, params: Payload, w: Await) returns (fault: Option<Fault>)
      requires Counted()
      modifies this`open, this`started, this`calls, this`jobs, this`next
      ensures Counted()
      ensures match W.RunTool(old(Abs()), o, t, action, params, w)
              case Refused(why) => fault == Some(why) && Abs() == old(Abs())
              case Started(s) => fault == None && Abs() == s
    {
      if t.bridge.Some? {
        fault := RunViaBridge(o, t.bridge.value, t.key, action, params, w);
      } else if t.spec && t.key in dep.cloudApps {
        fault := RunCustomWrite(o, t.key, action, params, w);
      } else {
        StartCall(o, t.key, action, params, Local, w);
        fault := None;
      }
    }

    // --- write requests ------------------------------------------------------------------------

    method RequestWrite(who: string, desk: Id, tool: Id, key: string, action: string, params: Payload) returns (r: Id)
      requires Counted()
      modifies this`gate, this`reqs, this`audit, this`next
      ensures Counted() && r == old(next) && Abs() == W.RequestWrite(old(Abs()), who, desk, tool, key, action, params)
    {
      r := next;
      var row := Request(r, desk, who, tool, key, action, params, Pending, None, None, NoFault);
      next := next + 1;
      gate := gate[r := Gate(GatePending, None)];
      reqs := reqs[r := row];
      AppendAudit(WriteRequested, who, desk, Some(r));
      assert Abs() == old(Abs()).(next := next, gate := gate, reqs := reqs, audit := audit);
    }

    method Close(row: Request, out: Outcome)
      requires Counted()
      modifies this`reqs, this`audit
      ensures Counted() && Abs() == W.Close(old(Abs()), row, out)
    {
      match out
      case Returned(res) =>
        reqs := reqs[row.id := row.(status := Executed, result := Some(res))];
        AppendAudit(WriteExecuted, "gel-gate", row.desk, Some(row.id));
      case Raised(why) =>
        reqs := reqs[row.id := row.(status := Failed, reason := why)];
        AppendAudit(WriteFailed, "gel-gate", row.desk, Some(row.id));
    }

    method Settle(row: Request)
      requires Counted()
      modifies this`open, this`started, this`calls, this`jobs, this`next, this`reqs, this`audit
      ensures Counted() && Abs() == W.Settle(old(Abs()), row)
    {
      if row.id !in gate || !gate[row.id].status.GateApproved? { return; }
      var fault: Option<Fault>;
      if halted {
        fault := Some(AutonomyHalted);
      } else if row.tool !in tools || row.key !in dep.connectors {
        fault := Some(NoLongerAvailable);
      } else {
        fault := RunTool(Settlement(row.id), tools[row.tool], row.action, row.params, AwaitSettle(row));
      }
      if fault.Some? { Close(row, Raised(fault.value)); }
    }

    /** The decision on the tables. */
    method Decide(approver: string, r: Id, approve: bool, reason: string, stop: bool) returns (accepted: bool)
      requires Counted()
      modifies this`open, this`started, this`calls, this`jobs, this`next, this`reqs, this`audit, this`gate
      ensures Counted()
      ensures Abs() == W.Decide(old(Abs()), approver, r, approve, reason, stop)
      ensures accepted
              <==> r in old(reqs) && old(reqs)[r].status.Pending? && !(approve && approver == old(reqs)[r].maker)
    {
      hide W.Settle, W.Reject, W.ApproveGate;
      if r !in reqs || !reqs[r].status.Pending? { return false; }
      var row := reqs[r];
      if approve && approver == row.maker { return false; }
      accepted := true;
      if approve {
        ApproveGelTask(r, approver);
        if !stop { Settle(row.(approver := Some(approver))); }
      } else {
        Reject(row, approver, reason);
      }
    }

    method Reject(row: Request, approver: string, reason: string)
      modifies this`gate, this`reqs, this`audit
      ensures Abs() == W.Reject(old(Abs()), row, approver, reason)
    {
      var why := if reason == "" then RejectedByApprover else Message(reason);
      gate := gate[row.id := Gate(GateRejected, Some(approver))];
      reqs := reqs[row.id := row.(status := Rejected, approver := Some(approver), reason := why)];
      AppendAudit(WriteRejected, approver, row.desk, Some(row.id));
    }

    /** `decide_write_back`; true when the decision was accepted. */
    method DecideWriteBack(approver: string, r: Id, approve: bool, reason: string, stop: bool) returns (accepted: bool)
      requires Valid()
      modifies this
      ensures Valid() && steps == old(steps) + [W.AtDesk(W.DoDecide(approver, r, approve, reason, stop))]
      ensures Abs() == W.Decide(old(Abs()), approver, r, approve, reason, stop)
      ensures accepted
              <==> r in old(reqs) && old(reqs)[r].status.Pending? && !(approve && approver == old(reqs)[r].maker)
    {
      hide W.Run, W.Next, W.Decide;
      N.TakesDecide(dep, steps, approver, r, approve, reason, stop);
      steps := steps + [W.AtDesk(W.DoDecide(approver, r, approve, reason, stop))];
      accepted := Decide(approver, r, approve, reason, stop);
    }

    /** The desk's rows read on the tables. */
    method ReadRows(who: string, desk: Id)
      requires Counted()
      modifies this`polls, this`next
      ensures Counted()
      ensures Abs() == W.PollStart(old(Abs()), who, desk)
    {
      hide W.RowsOf, W.Owns;
      if !W.Owns(dep, who, desk) { return; }
      polls := polls[next := Poll(W.RowsOf(reqs, desk, next), None)];
      next := next + 1;
      assert Abs() == old(Abs()).(polls := polls, next := next);
    }

    method ListWriteRequests(who: string, desk: Id)
      requires Valid()
      modifies this`polls, this`next, this`steps
      ensures Valid() && steps == old(steps) + [W.AtDesk(W.DoPollStart(who, desk))]
      ensures Abs() == W.PollStart(old(Abs()), who, desk)
    {
      hide W.Run, W.Next, W.PollStart;
      N.TakesPollStart(dep, steps, who, desk);
      steps := steps + [W.AtDesk(W.DoPollStart(who, desk))];
      ReadRows(who, desk);
    }

    /** The next row of a poll on the tables. */
    method SettleNext(p: Id)
      requires Counted()
      modifies this`open, this`started, this`calls, this`jobs, this`next, this`reqs, this`audit, this`polls
      ensures Counted()
      ensures Abs() == W.PollNext(old(Abs()), p)
    {
      hide W.Settle;
      if p !in polls || polls[p].rows == [] { return; }
      if polls[p].waiting.Some? && polls[p].waiting.value in open { return; }
      var row, before := polls[p].rows[0], started;
      if row.status.Pending? { Settle(row); }
      var waiting := if started > before then Some(before) else None;
      polls := polls[p := Poll(polls[p].rows[1..], waiting)];
    }

    method SettleNextListed(p: Id)
      requires Valid()
      modifies this
      ensures Valid() && steps == old(steps) + [W.AtDesk(W.DoPollNext(p))]
      ensures Abs() == W.PollNext(old(Abs()), p)
    {
      hide W.Run, W.Next, W.PollNext;
      N.TakesPollNext(dep, steps, p);
      steps := steps + [W.AtDesk(W.DoPollNext(p))];
      SettleNext(p);
    }

    // --- invoke --------------------------------------------------------------------------------

    method InvokeSpec(who: string, tool: Id, action: string, params: Payload)
      requires Counted() && tool in tools
      modifies this`open, this`started, this`calls, this`jobs, this`next, this`gate, this`reqs, this`audit
      ensures Counted() && Abs() == W.InvokeSpec(old(Abs()), who, tool, action, params)
    {
      var t := tools[tool];
      var act := W.ActionOf(dep, t.key, action);
      var w := AwaitUse(who, t.desk, false);
      if act.Some? && act.value.access.Write? {
        if !act.value.direct || policy.requireApproval {
          var _ := RequestWrite(who, t.desk, tool, t.key, action, params);
        } else {
          var _ := RunCustomWrite(DirectWrite(who), t.key, action, params, AwaitUse(who, t.desk, true));
        }
      } else if t.key in dep.cloudApps && action in dep.cloudApps[t.key].readable {
        StartCall(ReadUse(who), t.key, action, params, Cloud, w);
      } else if action != "list" && action != "open" {
        return;
      } else if t.bridge.Some? {
        var _ := RunViaBridge(ReadUse(who), t.bridge.value, "custom", action, params, w);
      } else {
        StartCall(ReadUse(who), "custom", action, params, Cloud, w);
      }
    }

    method InvokeCatalog(who: string, tool: Id, action: string, params: Payload)
      requires Counted() && tool in tools
      modifies this`open, this`started, this`calls, this`jobs, this`next, this`gate, this`reqs, this`audit
      ensures Counted() && Abs() == W.InvokeCatalog(old(Abs()), who, tool, action, params)
    {
      var t := tools[tool];
      var act := W.ActionOf(dep, t.key, action);
      if act.None? { return; }
      if act.value.access.Write? && (!act.value.direct || policy.requireApproval) {
        var _ := RequestWrite(who, t.desk, tool, t.key, action, params);
        return;
      }
      var c := dep.connectors[t.key];
      if c.needsAuth {
        if !t.signedIn { return; }
      } else if t.bridge.None? && !c.enabled {
        return;
      }
      var o := if act.value.access.Write? then DirectWrite(who) else ReadUse(who);
      var _ := RunTool(o, t, action, params, AwaitUse(who, t.desk, false));
    }

    method Invoke(who: string, desk: Id, tool: Id, action: string, params: Payload)
      requires Valid()
      modifies this
      ensures Valid() && steps == old(steps) + [W.AtDesk(W.DoInvoke(who, desk, tool, action, params))]
      ensures Abs() == W.Invoke(old(Abs()), who, desk, tool, action, params)
    {
      hide W.Run, W.Next;
      N.TakesInvoke(dep, steps, who, desk, tool, action, params);
      steps := steps + [W.AtDesk(W.DoInvoke(who, desk, tool, action, params))];
      if !W.Owns(dep, who, desk) || halted { return; }
      if tool !in tools || tools[tool].desk != desk { return; }
      if tools[tool].spec { InvokeSpec(who, tool, action, params); } else { InvokeCatalog(who, tool, action, params); }
    }

    method TerminalExec(who: string, desk: Id, b: Id, safe: bool, params: Payload)
      requires Valid()
      modifies this
      ensures Valid() && steps == old(steps) + [W.AtDesk(W.DoTerminalExec(who, desk, b, safe, params))]
      ensures Abs() == W.TerminalExec(old(Abs()), who, desk, b, safe, params)
    {
      hide W.Run, W.Next;
      N.TakesTerminalExec(dep, steps, who, desk, b, safe, params);
      steps := steps + [W.AtDesk(W.DoTerminalExec(who, desk, b, safe, params))];
      if !W.Owns(dep, who, desk) || policy.blockTerminal || !safe || halted { return; }
      var _ := RunViaBridge(Terminal(who), b, "ssh", "exec", params, AwaitTerminal(who, desk));
    }

    method TerminalHosts(who: string, desk: Id, b: Id)
      requires Valid()
      modifies this
      ensures Valid() && steps == old(steps) + [W.AtDesk(W.DoTerminalHosts(who, desk, b))]
      ensures Abs() == W.TerminalHosts(old(Abs()), who, desk, b)
    {
      hide W.Run, W.Next;
      N.TakesTerminalHosts(dep, steps, who, desk, b);
      steps := steps + [W.AtDesk(W.DoTerminalHosts(who, desk, b))];
      if !W.Owns(dep, who, desk) { return; }
      var _ := RunViaBridge(Diagnostic(who), b, "ssh", "hosts", map[], AwaitNothing);
    }

    method TestCustomSpec(who: string, desk: Id, via: Option<Id>)
      requires Valid()
      modifies this
      ensures Valid() && steps == old(steps) + [W.AtDesk(W.DoTestSpec(who, desk, via))]
      ensures Abs() == W.TestSpec(old(Abs()), who, desk, via)
    {
      hide W.Run, W.Next;
      N.TakesTestSpec(dep, steps, who, desk, via);
      steps := steps + [W.AtDesk(W.DoTestSpec(who, desk, via))];
      if !W.Owns(dep, who, desk) { return; }
      if via.Some? {
        var _ := RunViaBridge(Diagnostic(who), via.value, "custom", "list", map[], AwaitNothing);
      } else {
        StartCall(Diagnostic(who), "custom", "list", map[], Cloud, AwaitNothing);
      }
    }

    // --- an external call returns ----------------------------------------------------------------

    /** A waiting call looks at its outcome: `local` for WACE's own call, the job's for a bridge call. */
    method Return(c: nat, ch: Channel, local: Outcome, timedOut: bool)
      requires Valid() && (c < |calls| ==> ch == calls[c].channel)
      modifies this
      ensures Valid() && steps == old(steps) + [W.AtDesk(W.DoReturn(c, local, timedOut))]
      ensures Abs() == W.Return(old(Abs()), c, local, timedOut)
    {
      hide W.Run, W.Next;
      N.TakesReturn(dep, steps, c, local, timedOut);
      steps := steps + [W.AtDesk(W.DoReturn(c, local, timedOut))];
      if c !in open || c >= started { return; }
      var out := if ch.ViaBridge? then W.BridgeAnswer(jobs, ch.job, timedOut) else Some(local);
      if out.None? { return; }
      var w := open[c];
      open := open - {c};
      Finish(w, out.value);
    }

    method Finish(w: Await, out: Outcome)
      requires Counted()
      modifies this`reqs, this`audit, this`tools
      ensures Counted() && Abs() == W.Finish(old(Abs()), w, out)
    {
      match w
      case AwaitSettle(row) => Close(row, out);
      case AwaitUse(who, desk, direct) =>
        if out.Returned? { AppendAudit(Invoked(direct), who, desk, None); }
      case AwaitTerminal(who, desk) =>
        if out.Returned? { AppendAudit(TerminalRun, who, desk, None); }
      case AwaitToken(tool, asked) =>
        if out.Returned? {
          tools := tools[tool := asked.(signedIn := true)];
          AppendAudit(ToolConnected, asked.owner, asked.desk, None);
        }
      case AwaitNothing =>
    }

    // --- tools -----------------------------------------------------------------------------------------

    /** The new tool on the tables. */
    method AddTool(who: string, desk: Id, key: string, bridge: Option<Id>, spec: bool, signedIn: bool)
      returns (tool: Option<Id>)
      requires Counted()
      modifies this`tools, this`keys, this`next, this`audit
      ensures Counted()
      ensures Abs() == W.Connect(old(Abs()), who, desk, key, bridge, spec, signedIn)
      ensures tool.Some? <==> W.Owns(dep, who, desk) && key !in old(policy).blocked
    {
      if !W.Owns(dep, who, desk) || key in policy.blocked { return None; }
      tool := Some(next);
      tools := tools[next := Tool(desk, who, key, bridge, spec, signedIn)];
      keys := keys[next := key];
      next := next + 1;
      AppendAudit(ToolConnected, who, desk, None);
      assert Abs() == old(Abs()).(tools := tools, keys := keys, next := next, audit := audit);
    }

    method Connect(who: string, desk: Id, key: string, bridge: Option<Id>, spec: bool, signedIn: bool)
      returns (tool: Option<Id>)
      requires Valid()
      modifies this
      ensures Valid() && steps == old(steps) + [W.AtDesk(W.DoConnect(who, desk, key, bridge, spec, signedIn))]
      ensures Abs() == W.Connect(old(Abs()), who, desk, key, bridge, spec, signedIn)
      ensures tool.Some? <==> W.Owns(dep, who, desk) && key !in old(policy).blocked
    {
      hide W.Run, W.Next, W.Connect;
      N.TakesConnect(dep, steps, who, desk, key, bridge, spec, signedIn);
      steps := steps + [W.AtDesk(W.DoConnect(who, desk, key, bridge, spec, signedIn))];
      tool := AddTool(who, desk, key, bridge, spec, signedIn);
    }

    method CompleteOAuth(tool: Id)
      requires Valid()
      modifies this
      ensures Valid() && steps == old(steps) + [W.AtDesk(W.DoCompleteOAuth(tool))]
      ensures Abs() == W.CompleteOAuth(old(Abs()), tool)
    {
      hide W.Run, W.Next;
      N.TakesCompleteOAuth(dep, steps, tool);
      steps := steps + [W.AtDesk(W.DoCompleteOAuth(tool))];
      if tool !in tools || !W.SignsIn(dep, tools[tool]) { return; }
      var t := tools[tool];
      StartCall(SignIn(t.owner), "oauth", "exchange", map[], Cloud, AwaitToken(tool, t));
    }

    /** The removal on the tables. */
    method RemoveTool(who: string, desk: Id, tool: Id)
      requires Counted()
      modifies this`tools, this`audit
      ensures Counted()
      ensures Abs() == W.Disconnect(old(Abs()), who, desk, tool)
    {
      if !W.Owns(dep, who, desk) || tool !in tools || tools[tool].desk != desk { return; }
      tools := tools - {tool};
      AppendAudit(ToolDisconnected, who, desk, None);
    }

    method Disconnect(who: string, desk: Id, tool: Id)
      requires Valid()
      modifies this
      ensures Valid() && steps == old(steps) + [W.AtDesk(W.DoDisconnect(who, desk, tool))]
      ensures Abs() == W.Disconnect(old(Abs()), who, desk, tool)
    {
      hide W.Run, W.Next, W.Disconnect;
      N.TakesDisconnect(dep, steps, who, desk, tool);
      steps := steps + [W.AtDesk(W.DoDisconnect(who, desk, tool))];
      RemoveTool(who, desk, tool);
    }

    // --- bridge.py ---------------------------------------------------------------------------------------

    method Pair(desk: Id, code: string) returns (b: Id, secret: int)
      requires Valid()
      modifies this
      ensures Valid() && steps == old(steps) + [W.AtBridge(W.DoPair(desk, code))]
      ensures Abs() == W.Pair(old(Abs()), desk, code)
      ensures b == old(next) && secret == old(next) + 1 && b in bridges && bridges[b].hash == Sha256(secret)
    {
      hide W.Run, W.Next;
      N.TakesPair(dep, steps, desk, code);
      steps := steps + [W.AtBridge(W.DoPair(desk, code))];
      b, secret := next, next + 1;
      bridges := bridges[b := Bridge(desk, Sha256(secret), {}, None, code, Some(secret), Some(now + 1800))];
      next := next + 2;
    }

    /** `claim`: walk the bridges to the first one showing the code. */
    method ClaimCode(code: string) returns (token: Option<(Id, int)>)
      requires Valid()
      modifies this
      ensures Valid() && steps == old(steps) + [W.AtBridge(W.DoClaim(code))]
      ensures Abs() == W.Claim(old(Abs()), code) && token == W.ClaimToken(old(Abs()), code)
    {
      hide W.Run, W.Next;
      N.TakesClaim(dep, steps, code);
      steps := steps + [W.AtBridge(W.DoClaim(code))];
      var typed := W.Normalise(code);
      if typed == "" { return None; }
      var b := 0;
      while b < next
        invariant W.FirstWithCode(bridges, typed, 0, next) == W.FirstWithCode(bridges, typed, b, next)
        invariant Abs() == old(Abs())
      {
        if b in bridges && bridges[b].code != "" && bridges[b].code == typed {
          var row := bridges[b];
          if row.pairSecret.None? { return None; }
          if row.expires.Some? && row.expires.value < now { return None; }
          bridges := bridges[b := row.(pairSecret := None, expires := None)];
          return Some((b, row.pairSecret.value));
        }
        b := b + 1;
      }
      return None;
    }

    method Hello(b: Id, secret: int) returns (known: bool)
      requires Valid()
      modifies this`bridges, this`steps
      ensures Valid() && steps == old(steps) + [W.AtBridge(W.DoHello(b, secret))]
      ensures Abs() == W.Hello(old(Abs()), b, secret)
      ensures known <==> b in old(bridges) && old(bridges)[b].hash == Sha256(secret)
    {
      hide W.Run, W.Next;
      N.TakesHello(dep, steps, b, secret);
      steps := steps + [W.AtBridge(W.DoHello(b, secret))];
      if b !in bridges || bridges[b].hash != Sha256(secret) { return false; }
      bridges := bridges[b := bridges[b].(lastSeen := Some(now))];
      known := true;
    }

    method SetAllowedActions(desk: Id, b: Id, actions: seq<string>)
      requires Valid()
      modifies this`bridges, this`steps
      ensures Valid() && steps == old(steps) + [W.AtBridge(W.DoSetAllowed(desk, b, actions))]
      ensures Abs() == W.SetAllowed(old(Abs()), desk, b, actions)
    {
      hide W.Run, W.Next, W.Allowlist;
      N.TakesSetAllowed(dep, steps, desk, b, actions);
      steps := steps + [W.AtBridge(W.DoSetAllowed(desk, b, actions))];
      if b !in bridges || bridges[b].desk != desk { return; }
      bridges := bridges[b := bridges[b].(allowed := W.Allowlist(actions))];
    }

    method Revoke(desk: Id, b: Id)
      requires Valid()
      modifies this`bridges, this`steps
      ensures Valid() && steps == old(steps) + [W.AtBridge(W.DoRevoke(desk, b))]
      ensures Abs() == W.Revoke(old(Abs()), desk, b)
    {
      hide W.Run, W.Next;
      N.TakesRevoke(dep, steps, desk, b);
      steps := steps + [W.AtBridge(W.DoRevoke(desk, b))];
      if b !in bridges || bridges[b].desk != desk { return; }
      bridges := bridges - {b};
    }

    /** The jobs are marked running one by one, and each is described to the agent. */
    method MarkRunning(ids: seq<Id>) returns (claimed: seq<Handout>)
      requires forall j :: j in ids ==> j in jobs
      modifies this`jobs
      ensures jobs == W.MarkRunning(old(jobs), ids)
      ensures |claimed| == |ids| && forall i :: 0 <= i < |ids| ==> IsHandout(claimed[i], old(jobs), ids[i])
    {
      claimed := [];
      var i := 0;
      while i < |ids|
        invariant 0 <= i <= |ids| && |claimed| == i
        invariant jobs == W.MarkRunning(old(jobs), ids[..i]) && jobs.Keys == old(jobs).Keys
        invariant forall k :: 0 <= k < i ==> IsHandout(claimed[k], old(jobs), ids[k])
      {
        assert ids[i] in ids;
        var job := jobs[ids[i]];
        assert ids[..i + 1] == ids[..i] + [ids[i]];
        jobs := jobs[ids[i] := job.(status := JobRunning)];
        claimed := claimed + [Handout(ids[i], job.key, job.action, job.params)];
        i := i + 1;
      }
      assert ids[..i] == ids;
    }

    /** The hand-over on the tables. */
    method HandOver(b: Id, secret: int) returns (claimed: seq<Handout>)
      requires Counted()
      modifies this`bridges, this`jobs, this`handed
      ensures Counted()
      ensures Abs() == W.ClaimJobs(old(Abs()), b, secret)
      ensures claimed != [] ==> b in old(bridges) && old(bridges)[b].hash == Sha256(secret)
      ensures |handed| == |old(handed)| + |claimed|
      ensures forall i :: 0 <= i < |claimed| ==> IsHandout(claimed[i], old(jobs), handed[|old(handed)| + i])
    {
      hide W.PendingOf, W.MarkRunning;
      if b !in bridges || bridges[b].hash != Sha256(secret) { return []; }
      bridges := bridges[b := bridges[b].(lastSeen := Some(now))];
      var ids := W.PendingOf(jobs, b, next);
      PendingAreJobs(jobs, b, next);
      assert forall i :: 0 <= i < |ids| ==> ids[i] in ids;
      claimed := MarkRunning(ids);
      handed := handed + ids;
      assert Abs() == old(Abs()).(bridges := bridges, jobs := jobs, handed := handed);
    }

    /** The agent polls and is handed all its pending jobs, none of which was ever handed out before. */
    method ClaimJobs(b: Id, secret: int) returns (claimed: seq<Handout>)
      requires Valid()
      modifies this
      ensures Valid() && steps == old(steps) + [W.AtBridge(W.DoClaimJobs(b, secret))]
      ensures Abs() == W.ClaimJobs(old(Abs()), b, secret)
      ensures claimed != [] ==> b in old(bridges) && old(bridges)[b].hash == Sha256(secret)
      ensures |handed| == |old(handed)| + |claimed|
      ensures forall i :: 0 <= i < |claimed| ==> IsHandout(claimed[i], old(jobs), handed[|old(handed)| + i])
      ensures forall i :: 0 <= i < |claimed| ==> claimed[i].id !in old(handed) && CarriesCall(claimed[i], calls)
    {
      hide W.Run, W.Next, W.ClaimJobs;
      ghost var was, before := jobs, steps;
      N.TakesClaimJobs(dep, steps, b, secret);
      steps := steps + [W.AtBridge(W.DoClaimJobs(b, secret))];
      claimed := HandOver(b, secret);
      G.JobsAreHandedOnce(dep, steps);
      OnlyGrew(old(Abs()), b, secret);
      forall i | 0 <= i < |claimed| ensures CarriesCall(claimed[i], calls) {
        HandoutCarries(before, claimed[i], was, handed[|old(handed)| + i]);
      }
    }

    lemma HandoutCarries(before: seq<W.Step>, h: Handout, was: map<Id, Job>, j: Id)
      requires IsHandout(h, was, j) && was == W.Run(dep, before).jobs && calls == W.Run(dep, before).calls
      ensures CarriesCall(h, calls)
    {
      hide W.Run;
      H.JobsCarryCalls(dep, before, j);
    }

    lemma OnlyGrew(s: W.State, b: Id, secret: int)
      ensures s.handed <= W.ClaimJobs(s, b, secret).handed
    {}

    lemma PendingAreJobs(jobs: map<Id, Job>, b: Id, upto: Id)
      ensures forall j :: j in W.PendingOf(jobs, b, upto) ==> j in jobs
    {}

    /** The answer on the tables. */
    method PutAnswer(b: Id, secret: int, j: Id, answer: Answer) returns (accepted: bool)
      requires Counted()
      modifies this`jobs, this`submitted
      ensures Counted()
      ensures Abs() == W.SubmitResult(old(Abs()), b, secret, j, answer)
      ensures accepted <==> b in old(bridges) && old(bridges)[b].hash == Sha256(secret)
                            && j in old(jobs) && old(jobs)[j].bridge == b
    {
      if b !in bridges || bridges[b].hash != Sha256(secret) { return false; }
      if j !in jobs || jobs[j].bridge != b { return false; }
      if answer.error != "" {
        jobs := jobs[j := jobs[j].(status := JobFailed, error := W.Clip(answer.error, 2000))];
      } else {
        jobs := jobs[j := jobs[j].(status := JobDone, result := answer.result)];
      }
      submitted := submitted + [Submission(b, j, answer)];
      accepted := true;
    }

    method SubmitResult(b: Id, secret: int, j: Id, answer: Answer) returns (accepted: bool)
      requires Valid()
      modifies this
      ensures Valid() && steps == old(steps) + [W.AtBridge(W.DoSubmit(b, secret, j, answer))]
      ensures Abs() == W.SubmitResult(old(Abs()), b, secret, j, answer)
      ensures accepted <==> b in old(bridges) && old(bridges)[b].hash == Sha256(secret)
                            && j in old(jobs) && old(jobs)[j].bridge == b
    {
      hide W.Run, W.Next, W.SubmitResult;
      N.TakesSubmit(dep, steps, b, secret, j, answer);
      steps := steps + [W.AtBridge(W.DoSubmit(b, secret, j, answer))];
      accepted := PutAnswer(b, secret, j, answer);
    }
  }
}
