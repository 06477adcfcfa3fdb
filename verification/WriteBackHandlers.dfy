/** What each handler does and exactly when: who may act on a desk, what an invocation comes to, when the
  * service's own calls begin, what a decision stores, what reaches an agent and what its answer becomes. */
module WriteBackHandlers {
  import opened Options
  import opened Records
  import opened WriteBack
  import opened WriteBackShapes
  import opened WriteBackInvariants
  import opened WriteBackLedger
  import opened WriteBackJobs
  import opened WriteBackHistory
  import opened WriteBackSteps
  import opened WriteBackTheorems
  import opened WriteBackGuarantees
  import opened WriteBackRoutes
  import opened WriteBackSecrets
  import Strings

  // --- whose desk ---------------------------------------------------------------------------------

  /** The work unit is assigned to this contributor. */
  predicate Assigned(dep: Deployment, who: string, desk: Id) { (desk, who) in dep.owners.Items }

  /** The contributor and desk a step names, if it names any. */
  function NamedBy(d: DeskStep): Option<(string, Id)> {
    match d
    case DoInvoke(who, desk, _, _, _) => Some((who, desk))
    case DoPollStart(who, desk) => Some((who, desk))
    case DoConnect(who, desk, _, _, _, _) => Some((who, desk))
    case DoDisconnect(who, desk, _) => Some((who, desk))
    case DoTerminalExec(who, desk, _, _, _) => Some((who, desk))
    case DoTerminalHosts(who, desk, _) => Some((who, desk))
    case DoTestSpec(who, desk, _) => Some((who, desk))
    case _ => None
  }

  /** A step that names a desk changes nothing unless the contributor it names is the one the desk is
    * assigned to. */
  lemma OnlyTheOwnerActs(s: State, d: DeskStep)
    requires NamedBy(d).Some? && !Assigned(s.dep, NamedBy(d).value.0, NamedBy(d).value.1)
    ensures DeskNext(s, d) == s
  {
    hide InvokeSpec, InvokeCatalog, BridgeStart, OwnCall, RowsOf, OnlyTools;
  }

  lemma AssignedOwns(dep: Deployment, who: string, desk: Id)
    ensures Assigned(dep, who, desk) <==> Owns(dep, who, desk)
  {}

  // --- the service's own calls -----------------------------------------------------------------------

  /** Exactly one call began, at this bridge. */
  ghost predicate BeganAt(s: State, s': State, b: Id, o: Origin, key: string, action: string, params: Payload, w: Await)
  {
    Begins(s, s', o, key, action, params, w) && s'.calls[|s.calls|].channel == ViaBridge(s.next)
    && QueuedAt(s'.jobs, b, s'.calls[|s.calls|])
  }

  lemma StartsAt(s: State, o: Origin, b: Id, key: string, action: string, params: Payload, w: Await)
    ensures var st := BridgeStart(s, o, b, key, action, params, w);
            if BridgeOpen(s, b, key, action) then st.Started? && BeganAt(s, st.state, b, o, key, action, params, w)
            else st.Refused?
  {
    hide BridgeStart, Begins, QueuedAt, BridgeOpen;
    BridgeRoute(s, o, b, key, action, params, w);
  }

  /** A terminal command goes out exactly for the desk's owner, while the policy does not block terminals,
    * the precheck found it safe, the switch is off and the bridge is open; otherwise nothing happens. */
  lemma TerminalBeginsIff(s: State, who: string, desk: Id, b: Id, safe: bool, params: Payload)
    ensures var s' := TerminalExec(s, who, desk, b, safe, params);
            if Assigned(s.dep, who, desk) && !s.policy.blockTerminal && safe && !s.halted
               && BridgeOpen(s, b, "ssh", "exec")
            then BeganAt(s, s', b, Terminal(who), "ssh", "exec", params, AwaitTerminal(who, desk))
            else s' == s
  {
    hide BridgeStart, BridgeOpen, BeganAt, Owns, Assigned;
    AssignedOwns(s.dep, who, desk);
    StartsAt(s, Terminal(who), b, "ssh", "exec", params, AwaitTerminal(who, desk));
  }

  lemma HostsBeginIff(s: State, who: string, desk: Id, b: Id)
    ensures var s' := TerminalHosts(s, who, desk, b);
            if Assigned(s.dep, who, desk) && BridgeOpen(s, b, "ssh", "hosts")
            then BeganAt(s, s', b, Diagnostic(who), "ssh", "hosts", map[], AwaitNothing)
            else s' == s
  {
    hide BridgeStart, BridgeOpen, BeganAt, Owns, Assigned;
    AssignedOwns(s.dep, who, desk);
    StartsAt(s, Diagnostic(who), b, "ssh", "hosts", map[], AwaitNothing);
  }

  /** Exactly one call of the service itself to the outside began. */
  ghost predicate BeganOut(s: State, s': State, o: Origin, key: string, action: string, params: Payload, w: Await) {
    Begins(s, s', o, key, action, params, w) && s'.calls[|s.calls|].channel == Cloud
  }

  lemma StartsOut(s: State, o: Origin, key: string, action: string, params: Payload, w: Await)
    ensures BeganOut(s, OwnCall(s, o, key, action, params, Cloud, w), o, key, action, params, w)
  {
    hide Begins;
  }

  lemma PreviewBeginsIff(s: State, who: string, desk: Id, via: Option<Id>)
    ensures var s' := TestSpec(s, who, desk, via);
            if !Assigned(s.dep, who, desk) then s' == s
            else if via.None? then BeganOut(s, s', Diagnostic(who), "custom", "list", map[], AwaitNothing)
            else if BridgeOpen(s, via.value, "custom", "list")
            then BeganAt(s, s', via.value, Diagnostic(who), "custom", "list", map[], AwaitNothing)
            else s' == s
  {
    hide BridgeStart, BridgeOpen, BeganAt, BeganOut, OwnCall, Owns, Assigned;
    AssignedOwns(s.dep, who, desk);
    StartsOut(s, Diagnostic(who), "custom", "list", map[], AwaitNothing);
    if via.Some? { StartsAt(s, Diagnostic(who), via.value, "custom", "list", map[], AwaitNothing); }
  }

  /** A sign-in code is exchanged exactly for a tool without bridge and spec whose connector signs in. */
  lemma SignInBeginsIff(s: State, tool: Id)
    ensures var s' := CompleteOAuth(s, tool);
            if tool in s.tools && s.tools[tool].bridge.None? && !s.tools[tool].spec
               && s.tools[tool].key in s.dep.connectors && s.dep.connectors[s.tools[tool].key].needsAuth
            then BeganOut(s, s', SignIn(s.tools[tool].owner), "oauth", "exchange", map[],
                          AwaitToken(tool, s.tools[tool]))
            else s' == s
  {
    hide OwnCall, BeganOut;
    if tool in s.tools {
      StartsOut(s, SignIn(s.tools[tool].owner), "oauth", "exchange", map[], AwaitToken(tool, s.tools[tool]));
    }
  }

  // --- tools and the policy -----------------------------------------------------------------------------

  /** A tool is connected exactly by the desk's owner under a key the policy does not block, as given. */
  lemma ConnectsIff(s: State, who: string, desk: Id, key: string, bridge: Option<Id>, spec: bool, signedIn: bool)
    ensures var s' := Connect(s, who, desk, key, bridge, spec, signedIn);
            if Assigned(s.dep, who, desk) && key !in s.policy.blocked
            then s'.tools == s.tools[s.next := Tool(desk, who, key, bridge, spec, signedIn)] && s'.next == s.next + 1
                 && s'.audit == s.audit + [Event(ToolConnected, who, desk, None)]
            else s' == s
  {
    hide OnlyTools;
  }

  /** A tool is disconnected exactly by the owner of its own desk. */
  lemma DisconnectsIff(s: State, who: string, desk: Id, tool: Id)
    ensures var s' := Disconnect(s, who, desk, tool);
            if Assigned(s.dep, who, desk) && tool in s.tools && s.tools[tool].desk == desk
            then s'.tools == s.tools - {tool} && s'.audit == s.audit + [Event(ToolDisconnected, who, desk, None)]
            else s' == s
  {
    hide OnlyTools;
  }

  /** A policy change sets what it names, at most sixty blocked connectors, and leaves the rest. */
  lemma PatchedIs(p: Policy, patch: Patch)
    ensures var q := Patched(p, patch);
            && q.requireApproval == (match patch.requireApproval case Some(x) => x case None => p.requireApproval)
            && q.blockTerminal == (match patch.blockTerminal case Some(x) => x case None => p.blockTerminal)
            && (patch.blocked.None? ==> q.blocked == p.blocked)
            && (patch.blocked.Some? ==>
                  q.blocked <= patch.blocked.value
                  && |q.blocked| == if |patch.blocked.value| <= 60 then |patch.blocked.value| else 60)
  {}

  function NonBlanks(actions: seq<string>): nat {
    if actions == [] then 0
    else NonBlanks(actions[..|actions| - 1]) + if Strings.Strip(actions[|actions| - 1]) == "" then 0 else 1
  }

  /** This entry says it, once stripped, and is among the first hundred that are not blank. */
  predicate Says(actions: seq<string>, i: int, what: string) {
    0 <= i < |actions| && Strings.Strip(actions[i]) == what && NonBlanks(actions[..i]) < 100
  }

  lemma {:induction false} CleanedSays(actions: seq<string>, what: string)
    requires what != ""
    ensures |Cleaned(actions)| == NonBlanks(actions)
    ensures forall k :: 0 <= k < |Cleaned(actions)| && Cleaned(actions)[k] == what ==>
              exists i :: 0 <= i < |actions| && Strings.Strip(actions[i]) == what && NonBlanks(actions[..i]) == k
    ensures forall i :: 0 <= i < |actions| && Strings.Strip(actions[i]) == what ==>
              NonBlanks(actions[..i]) < |Cleaned(actions)| && Cleaned(actions)[NonBlanks(actions[..i])] == what
  {
    hide Strings.Strip;
    if actions != [] {
      var n := |actions| - 1;
      var pre := actions[..n];
      CleanedSays(pre, what);
      assert forall i :: 0 <= i <= n ==> pre[..i] == actions[..i];
      forall k | 0 <= k < |Cleaned(actions)| && Cleaned(actions)[k] == what
        ensures exists i :: 0 <= i < |actions| && Strings.Strip(actions[i]) == what && NonBlanks(actions[..i]) == k
      {
        if k < |Cleaned(pre)| {
          var i :| 0 <= i < n && Strings.Strip(pre[i]) == what && NonBlanks(pre[..i]) == k;
          assert Strings.Strip(actions[i]) == what && NonBlanks(actions[..i]) == k;
        } else {
          assert Strings.Strip(actions[n]) == what && NonBlanks(actions[..n]) == k;
        }
      }
      forall i | 0 <= i < |actions| && Strings.Strip(actions[i]) == what
        ensures NonBlanks(actions[..i]) < |Cleaned(actions)| && Cleaned(actions)[NonBlanks(actions[..i])] == what
      {
        if i < n { assert Strings.Strip(pre[i]) == what && NonBlanks(pre[..i]) == NonBlanks(actions[..i]); }
      }
    }
  }

  lemma AllowlistSays(actions: seq<string>, what: string)
    requires what != ""
    ensures what in Allowlist(actions) <==> exists i :: Says(actions, i, what)
    ensures Allowlist(actions) == {} <==> NonBlanks(actions) == 0
  {
    hide NonBlanks, Cleaned;
    CleanedSays(actions, what);
    var list := Cleaned(actions);
    if what in Allowlist(actions) {
      var k :| 0 <= k < |list| && k < 100 && list[k] == what;
      var i :| 0 <= i < |actions| && Strings.Strip(actions[i]) == what && NonBlanks(actions[..i]) == k;
      assert Says(actions, i, what);
    }
    if i :| Says(actions, i, what) { assert list[NonBlanks(actions[..i])] == what; }
    if |list| > 0 { assert list[0] in Allowlist(actions); }
  }

  /** After its desk set a bridge's allowlist, the bridge lets an action through if and only if one of the
    * first hundred entries that are not blank says so, or all are blank: such a list allows everything. */
  lemma AllowsIff(s: State, desk: Id, b: Id, actions: seq<string>, key: string, action: string)
    requires b in s.bridges && s.bridges[b].desk == desk && s.bridges[b].lastSeen == Some(s.now)
    ensures BridgeOpen(SetAllowed(s, desk, b, actions), b, key, action)
            <==> NonBlanks(actions) == 0 || exists i :: Says(actions, i, key + ":" + action)
  {
    hide NonBlanks, Says, Allowlist;
    OnlyTheDeskAdministers(s, desk, b, actions);
    AllowlistSays(actions, key + ":" + action);
  }

  /** Step i turned the switch on and nothing has turned it off since. */
  ghost predicate StillPressed(steps: seq<Step>, i: int) {
    0 <= i < |steps| && steps[i].ByAdmin? && steps[i].a.DoHalt?
    && forall k :: i < k < |steps| ==> steps[k] != ByAdmin(DoResume)
  }

  /** The switch is on exactly while some step that turned it on has not been answered by one that turns it
    * off; while it is off there is no reason. */
  lemma {:induction false} SwitchIsAsLastPressed(dep: Deployment, steps: seq<Step>)
    ensures Run(dep, steps).halted <==> exists i :: StillPressed(steps, i)
    ensures !Run(dep, steps).halted ==> Run(dep, steps).reasons == []
  {
    hide Next, StillPressed;
    if steps == [] {
      NeverPressed();
    } else {
      var n := |steps| - 1;
      SwitchIsAsLastPressed(dep, steps[..n]);
      SwitchStep(Run(dep, steps[..n]), steps[n]);
      PressedBefore(steps);
    }
  }

  lemma NeverPressed()
    ensures forall i :: !StillPressed([], i)
  {}

  /** The one reason is the one given last. */
  lemma {:induction false} ReasonIsTheLast(dep: Deployment, steps: seq<Step>, i: nat)
    requires i < |steps| && steps[i].ByAdmin? && steps[i].a.DoHalt?
    requires forall k :: i < k < |steps| && steps[k].ByAdmin? ==> !steps[k].a.DoHalt? && !steps[k].a.DoResume?
    ensures Run(dep, steps).reasons == [if steps[i].a.reason == "" then "halted" else steps[i].a.reason]
  {
    hide Next;
    var n := |steps| - 1;
    SwitchStep(Run(dep, steps[..n]), steps[n]);
    if i < n { ReasonIsTheLast(dep, steps[..n], i); }
  }

  lemma PressedBefore(steps: seq<Step>)
    requires steps != []
    ensures var n := |steps| - 1; var last := steps[n];
            (exists i :: StillPressed(steps, i))
            <==> (last.ByAdmin? && last.a.DoHalt?)
                 || (last != ByAdmin(DoResume) && exists i :: StillPressed(steps[..n], i))
  {
    var n := |steps| - 1;
    var pre, last := steps[..n], steps[n];
    if last.ByAdmin? && last.a.DoHalt? { assert StillPressed(steps, n); }
    if i :| StillPressed(pre, i) && last != ByAdmin(DoResume) { assert StillPressed(steps, i); }
    if i :| StillPressed(steps, i) && i < n { assert StillPressed(pre, i); }
  }

  lemma BridgeSwitch(s: State, b: BridgeStep)
    ensures BridgeNext(s, b).halted == s.halted && BridgeNext(s, b).reasons == s.reasons
  {
    hide OnlyBridges, SameDesk, ClaimToken, PendingOf, MarkRunning, Answered;
    match b
    case DoClaim(code) => ClaimSwitch(s, code);
    case _ =>
  }

  lemma ClaimSwitch(s: State, code: string)
    ensures Claim(s, code).halted == s.halted && Claim(s, code).reasons == s.reasons
  {
    hide OnlyBridges, ClaimToken;
  }

  lemma SwitchStep(s: State, step: Step)
    ensures var s' := Next(s, step);
            if step.ByAdmin? && step.a.DoHalt?
            then s'.halted && s'.reasons == [if step.a.reason == "" then "halted" else step.a.reason]
            else if step == ByAdmin(DoResume) then !s'.halted && s'.reasons == []
            else s'.halted == s.halted && s'.reasons == s.reasons
  {
    hide DeskNext, BridgeNext, AdminNext, SameDesk, AtMostOneCall;
    match step
    case AtDesk(d) => DeskOneCall(s, d); OneCallSwitch(s, DeskNext(s, d));
    case AtBridge(b) => BridgeSwitch(s, b);
    case ByAdmin(a) => AdminSwitch(s, a);
  }

  lemma OneCallSwitch(s: State, s': State)
    requires AtMostOneCall(s, s')
    ensures s'.halted == s.halted && s'.reasons == s.reasons
  {}

  lemma AdminSwitch(s: State, a: AdminStep)
    ensures var s' := AdminNext(s, a);
            match a
            case DoHalt(reason) => s'.halted && s'.reasons == [if reason == "" then "halted" else reason]
            case DoResume => !s'.halted && s'.reasons == []
            case _ => s'.halted == s.halted && s'.reasons == s.reasons
  {
    hide SameDesk, Patched;
  }

  // --- invoke ----------------------------------------------------------------------------------------------

  /** The catalogue declares this action of this connector a write, and says whether it may run directly. */
  predicate Declares(dep: Deployment, key: string, action: string, direct: bool) {
    key in dep.connectors && action in dep.connectors[key].actions
    && dep.connectors[key].actions[action].access.Write? && dep.connectors[key].actions[action].direct == direct
  }

  /** Needs an approval: a declared write that is not direct, or any declared write under the policy. */
  predicate Gated(s: State, key: string, action: string) {
    Declares(s.dep, key, action, false) || (s.policy.requireApproval && Declares(s.dep, key, action, true))
  }

  /** A catalogue tool is usable: signed in where its connector signs in, and enabled where it neither signs
    * in nor has a bridge. */
  predicate Usable(dep: Deployment, t: Tool)
    requires t.key in dep.connectors
  {
    if dep.connectors[t.key].needsAuth then t.signedIn else t.bridge.Some? || dep.connectors[t.key].enabled
  }

  predicate CatalogRuns(s: State, t: Tool, action: string) {
    t.key in s.dep.connectors && action in s.dep.connectors[t.key].actions && Usable(s.dep, t)
    && RouteOpen(s, t, action)
  }

  /** An invocation of a catalogue tool: a gated write becomes a request; anything else the catalogue knows
    * runs, on the tool's own route, exactly when the tool is usable and its route open; nothing happens
    * otherwise. */
  lemma CatalogInvocationIs(s: State, who: string, tool: Id, action: string, params: Payload)
    requires tool in s.tools && !s.tools[tool].spec
    ensures var t, s' := s.tools[tool], InvokeCatalog(s, who, tool, action, params);
            if Gated(s, t.key, action) then s' == RequestWrite(s, who, t.desk, tool, t.key, action, params)
            else if CatalogRuns(s, t, action) then
              var o := if Declares(s.dep, t.key, action, true) then DirectWrite(who) else ReadUse(who);
              Begins(s, s', o, t.key, action, params, AwaitUse(who, t.desk, false))
              && OnRoute(s.dep, s'.jobs, t, s'.calls[|s.calls|])
            else s' == s
  {
    hide RunTool, Begins, OnRoute, RouteOpen, RequestWrite;
    var t, w := s.tools[tool], AwaitUse(who, s.tools[tool].desk, false);
    ToolRoute(s, DirectWrite(who), t, action, params, w);
    ToolRoute(s, ReadUse(who), t, action, params, w);
  }

  /** What a spec tool asks of its own application rather than of the service's file access. */
  predicate SpecReads(dep: Deployment, key: string, action: string) {
    key in dep.cloudApps && action in dep.cloudApps[key].readable
  }

  predicate SpecWrites(dep: Deployment, key: string, action: string) {
    key in dep.cloudApps && action in dep.cloudApps[key].writable
  }

  /** An invocation of a spec tool: a gated write becomes a request; a direct write goes out where the
    * application has a write path; a read goes to the application where it is declared, and listing and
    * opening go through the tool's bridge, or out without one. */
  lemma SpecInvocationIs(s: State, who: string, tool: Id, action: string, params: Payload)
    requires tool in s.tools
    ensures var t, s' := s.tools[tool], InvokeSpec(s, who, tool, action, params);
            var w := AwaitUse(who, t.desk, false);
            if Gated(s, t.key, action) then s' == RequestWrite(s, who, t.desk, tool, t.key, action, params)
            else if Declares(s.dep, t.key, action, true) then
              if SpecWrites(s.dep, t.key, action)
              then BeganOut(s, s', DirectWrite(who), t.key, action, params, AwaitUse(who, t.desk, true))
              else s' == s
            else if SpecReads(s.dep, t.key, action) then BeganOut(s, s', ReadUse(who), t.key, action, params, w)
            else if action !in {"list", "open"} then s' == s
            else if t.bridge.None? then BeganOut(s, s', ReadUse(who), "custom", action, params, w)
            else if BridgeOpen(s, t.bridge.value, "custom", action)
            then BeganAt(s, s', t.bridge.value, ReadUse(who), "custom", action, params, w)
            else s' == s
  {
    hide BridgeStart, OwnCall, BeganOut, BeganAt, BridgeOpen, RequestWrite;
    var t, w := s.tools[tool], AwaitUse(who, s.tools[tool].desk, false);
    StartsOut(s, DirectWrite(who), t.key, action, params, AwaitUse(who, t.desk, true));
    StartsOut(s, ReadUse(who), t.key, action, params, w);
    StartsOut(s, ReadUse(who), "custom", action, params, w);
    if t.bridge.Some? { StartsAt(s, ReadUse(who), t.bridge.value, "custom", action, params, w); }
  }

  /** An invocation by the desk's owner on a tool of that desk, with the switch off, is one of the two;
    * any other does nothing. */
  lemma InvocationIs(s: State, who: string, desk: Id, tool: Id, action: string, params: Payload)
    ensures var s' := Invoke(s, who, desk, tool, action, params);
            if Assigned(s.dep, who, desk) && !s.halted && tool in s.tools && s.tools[tool].desk == desk
            then s' == if s.tools[tool].spec then InvokeSpec(s, who, tool, action, params)
                       else InvokeCatalog(s, who, tool, action, params)
            else s' == s
  {
    hide InvokeSpec, InvokeCatalog;
  }

  // --- decisions ---------------------------------------------------------------------------------------------

  /** A decision is accepted exactly on a pending row, not by its maker if it approves. A rejection stores
    * who rejected and why on the row and the gate record; an approval stores who approved on the gate
    * record and, unless the process stops there, settles. */
  lemma DecisionIs(s: State, approver: string, r: Id, approve: bool, reason: string, stop: bool)
    requires r in s.reqs ==> s.reqs[r].id == r
    ensures var s' := Decide(s, approver, r, approve, reason, stop);
            if r !in s.reqs || s.reqs[r].status != Pending || (approve && approver == s.reqs[r].maker) then s' == s
            else if !approve then
              s'.gate == s.gate[r := Gate(GateRejected, Some(approver))]
              && s'.reqs == s.reqs[r := s.reqs[r].(status := Rejected, approver := Some(approver),
                                    reason := if reason == "" then RejectedByApprover else Message(reason))]
              && s'.audit == s.audit + [Event(WriteRejected, approver, s.reqs[r].desk, Some(r))]
              && s'.calls == s.calls
            else
              s'.gate[r := Gate(GateApproved, Some(approver))] == s'.gate
              && (stop ==> s'.gate == s.gate[r := Gate(GateApproved, Some(approver))] && s'.reqs == s.reqs
                           && s'.audit == s.audit && s'.calls == s.calls)
  {
    hide Settle;
    if r in s.reqs { SettleGate(ApproveGate(s, r, approver), s.reqs[r].(approver := Some(approver))); }
  }

  lemma SettleGate(s: State, row: Request)
    ensures Settle(s, row).gate == s.gate
  {
    hide Settle, Fits;
    var sh := SettleShape(s, row);
    FitsGate(s, Settle(s, row), sh);
  }

  lemma FitsGate(s: State, s': State, sh: Shape)
    requires Fits(s, s', sh) && !sh.Asking?
    ensures s'.gate == s.gate
  {}

  // --- lists in order ------------------------------------------------------------------------------------------

  ghost predicate Listed(reqs: map<Id, Request>, desk: Id, upto: Id, row: Request) {
    0 <= row.id < upto && row.id in reqs && reqs[row.id] == row && row.desk == desk
  }

  ghost predicate Newest(rows: seq<Request>) { forall i, k :: 0 <= i < k < |rows| ==> rows[i].id > rows[k].id }

  /** A desk's list holds exactly its rows, newest first. */
  lemma {:induction false} RowsOfIs(reqs: map<Id, Request>, desk: Id, upto: Id)
    requires RowsOk(reqs)
    ensures forall row :: row in RowsOf(reqs, desk, upto) <==> Listed(reqs, desk, upto, row)
    ensures Newest(RowsOf(reqs, desk, upto))
    decreases upto
  {
    if upto > 0 {
      RowsOfIs(reqs, desk, upto - 1);
      var rows, rest := RowsOf(reqs, desk, upto), RowsOf(reqs, desk, upto - 1);
      if upto - 1 in reqs && reqs[upto - 1].desk == desk {
        assert rows == [reqs[upto - 1]] + rest;
        forall k | 0 <= k < |rest| ensures rest[k].id < upto - 1 { assert rest[k] in rest; }
      } else {
        assert rows == rest;
      }
    }
  }

  ghost predicate Ascending(ids: seq<Id>) { forall i, k :: 0 <= i < k < |ids| ==> ids[i] < ids[k] }

  /** A bridge's pending jobs are handed over oldest first. */
  lemma {:induction false} PendingInOrder(jobs: map<Id, Job>, b: Id, upto: Id)
    ensures Ascending(PendingOf(jobs, b, upto)) && forall j :: j in PendingOf(jobs, b, upto) ==> j < upto
    decreases upto
  {
    if upto > 0 {
      PendingInOrder(jobs, b, upto - 1);
      var ids, rest := PendingOf(jobs, b, upto), PendingOf(jobs, b, upto - 1);
      assert ids == rest || ids == rest + [upto - 1];
      forall i | 0 <= i < |rest| ensures rest[i] < upto - 1 { assert rest[i] in rest; }
    }
  }

  // --- a job carries its call --------------------------------------------------------------------------------------

  /** Every queued job was queued by a call that asks for exactly what it asks for. */
  ghost predicate Carries(calls: seq<Call>, jobs: map<Id, Job>, j: Id) {
    j in jobs
    && exists c :: 0 <= c < |calls| && calls[c].channel == ViaBridge(j) && QueuedAt(jobs, jobs[j].bridge, calls[c])
  }

  lemma {:induction false} JobsCarryCalls(dep: Deployment, steps: seq<Step>, j: Id)
    requires j in Run(dep, steps).jobs
    ensures Carries(Run(dep, steps).calls, Run(dep, steps).jobs, j)
  {
    hide Next, Queue, Basic, Ledger, AtMostOneCall, JobsGrow, Carries;
    var n := |steps| - 1;
    var s, s' := Run(dep, steps[..n]), Run(dep, steps);
    RunInv(dep, steps[..n]);
    QueueKept(s, steps[n]);
    CallsGrow(s, steps[n], j);
    if j in s.jobs {
      JobsCarryCalls(dep, steps[..n], j);
      CarriesStays(s.calls, s'.calls, s.jobs, s'.jobs, j);
    }
  }

  lemma CallsGrow(s: State, step: Step, j: Id)
    ensures s.calls <= Next(s, step).calls
    ensures j in Next(s, step).jobs && j !in s.jobs ==> Carries(Next(s, step).calls, Next(s, step).jobs, j)
  {
    hide DeskNext, AdminNext, ClaimJobs, SubmitResult, AtMostOneCall, Carries;
    match step
    case AtDesk(d) => DeskOneCall(s, d); OneCallCarries(s, DeskNext(s, d), j);
    case AtBridge(b) => BridgeJobs(s, b, j);
    case ByAdmin(_) =>
  }

  lemma OneCallCarries(s: State, s': State, j: Id)
    requires AtMostOneCall(s, s')
    ensures s.calls <= s'.calls && (j in s'.jobs && j !in s.jobs ==> Carries(s'.calls, s'.jobs, j))
  {
    if j in s'.jobs && j !in s.jobs { assert s'.calls[|s.calls|].channel == ViaBridge(j); }
  }

  lemma BridgeJobs(s: State, b: BridgeStep, j: Id)
    ensures BridgeNext(s, b).calls == s.calls && (j in BridgeNext(s, b).jobs ==> j in s.jobs)
  {
    hide Pair, Claim, Hello, SetAllowed, Revoke, PendingOf, OnlyBridges;
  }

  lemma CarriesStays(calls: seq<Call>, calls': seq<Call>, jobs: map<Id, Job>, jobs': map<Id, Job>, j: Id)
    requires j in jobs && Carries(calls, jobs, j) && calls <= calls' && JobsGrow(jobs, jobs')
    ensures Carries(calls', jobs', j)
  {
    var c :| 0 <= c < |calls| && calls[c].channel == ViaBridge(j) && QueuedAt(jobs, jobs[j].bridge, calls[c]);
    assert calls'[c] == calls[c];
  }

  // --- an agent's answer reaches the row -----------------------------------------------------------------

  /** From any reachable state: the answer a bridge submits under its secret is what the settlement waiting
    * for the job stores. A result executes the row with it, an empty one with an empty text; an error fails
    * it with the error's first two thousand characters. */
  lemma AnswerReachesRow(s: State, c: nat, j: Id, b: Id, secret: int, answer: Answer, local: Outcome)
    requires c in s.open && s.open[c].AwaitSettle? && c < |s.calls| && s.calls[c].channel == ViaBridge(j)
    requires j in s.jobs && s.jobs[j].bridge == b && b in s.bridges && s.bridges[b].hash == Sha256(secret)
    ensures var row := s.open[c].row;
            var s' := Next(Next(s, AtBridge(DoSubmit(b, secret, j, answer))), AtDesk(DoReturn(c, local, false)));
            s'.reqs == s.reqs[row.id :=
              if answer.error == ""
              then row.(status := Executed,
                        result := Some(if answer.result == map[] then map["text" := ""] else answer.result))
              else row.(status := Failed,
                        reason := Message(if |answer.error| <= 2000 then answer.error else answer.error[..2000]))]
  {
    hide Finish, Close, SameDesk;
    var s1 := SubmitResult(s, b, secret, j, answer);
    assert BridgeNext(s, DoSubmit(b, secret, j, answer)) == s1;
    var out := BridgeAnswer(s1.jobs, j, false);
    SettleFinish(s1.(open := s1.open - {c}), s1.open[c], out.value);
    ClosedAs(s1.(open := s1.open - {c}), s1.open[c].row, out.value);
  }

  lemma ClosedAs(s: State, row: Request, out: Outcome)
    ensures Close(s, row, out).reqs
            == s.reqs[row.id := match out
                                case Returned(res) => row.(status := Executed, result := Some(res))
                                case Raised(why) => row.(status := Failed, reason := why)]
  {}

  /** While its job is neither answered nor gone and its wait is not over, a bridge call does not come back;
    * at the end of its wait, or without its job, it comes back as unanswered. */
  lemma UnansweredWaits(s: State, c: nat, j: Id, local: Outcome)
    requires c in s.open && c < |s.calls| && s.calls[c].channel == ViaBridge(j)
    ensures j in s.jobs && (s.jobs[j].status.JobPending? || s.jobs[j].status.JobRunning?) ==>
              Return(s, c, local, false) == s
    ensures s.open[c].AwaitSettle? ==>
              var row := s.open[c].row;
              Return(s, c, local, true).reqs == s.reqs[row.id := row.(status := Failed, reason := NoAnswerInTime)]
  {
    hide Finish, Close;
    var s1 := s.(open := s.open - {c});
    if s.open[c].AwaitSettle? {
      SettleFinish(s1, s.open[c], Raised(NoAnswerInTime));
      ClosedAs(s1, s.open[c].row, Raised(NoAnswerInTime));
    }
  }
}
