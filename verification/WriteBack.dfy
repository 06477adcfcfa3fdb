/** The governed write-back and bridge protocol as a state machine.
  *
  * One step is one atomic stretch of a service call. A call that waits for an
  * external system is two steps: the stretch up to the external call, and `Return`
  * once the call comes back (or the bridge wait times out). Anything may happen in
  * between. `Decide` may also stop after recording the approval at the gate.
  */
module WriteBack {
  import opened Options
  import opened Records
  import Strings

  datatype State = State(
    dep: Deployment,
    now: int,
    halted: bool,
    reasons: seq<string>,
    policy: Policy,
    tools: map<Id, Tool>,
    gate: map<Id, Gate>,
    reqs: map<Id, Request>,
    bridges: map<Id, Bridge>,
    jobs: map<Id, Job>,
    audit: seq<Event>,
    polls: map<Id, Poll>,
    open: map<nat, Await>,        // external calls that have not returned
    calls: seq<Call>,             // history: every external call started
    handed: seq<Id>,              // history: jobs handed to an agent, in order
    submitted: seq<Submission>,   // history: answers accepted from agents
    keys: map<Id, string>,        // history: the connector each tool was connected with
    next: Id)

  function Init(dep: Deployment): State {
    State(dep, 0, false, [], Policy(false, false, []), map[], map[], map[], map[], map[], [], map[], map[],
          [], [], [], map[], 0)
  }

  // --- small reads ----------------------------------------------------------------

  predicate Owns(dep: Deployment, who: string, desk: Id) {
    desk in dep.owners && dep.owners[desk] == who
  }

  function ActionOf(dep: Deployment, key: string, action: string): Option<Action> {
    if key in dep.connectors && action in dep.connectors[key].actions
    then Some(dep.connectors[key].actions[action]) else None
  }

  predicate DeclaredWrite(dep: Deployment, key: string, action: string) {
    ActionOf(dep, key, action).Some? && ActionOf(dep, key, action).value.access.Write?
  }

  predicate Approved(s: State, r: Id) { r in s.gate && s.gate[r].status.GateApproved? }

  /** Last seen within 45 seconds. */
  predicate Online(b: Bridge, now: int) { b.lastSeen.Some? && now - b.lastSeen.value <= 45 }

  predicate Authentic(s: State, bridge: Id, secret: int) {
    bridge in s.bridges && s.bridges[bridge].hash == Sha256(secret)
  }

  function Clip(text: string, n: nat): string { if |text| <= n then text else text[..n] }

  /** The rows of a desk, newest first. */
  function RowsOf(reqs: map<Id, Request>, desk: Id, upto: Id): seq<Request> {
    if upto <= 0 then []
    else if upto - 1 in reqs && reqs[upto - 1].desk == desk then [reqs[upto - 1]] + RowsOf(reqs, desk, upto - 1)
    else RowsOf(reqs, desk, upto - 1)
  }

  /** The pending jobs of a bridge, oldest first. */
  function PendingOf(jobs: map<Id, Job>, bridge: Id, upto: Id): seq<Id> {
    if upto <= 0 then []
    else if upto - 1 in jobs && jobs[upto - 1].bridge == bridge && jobs[upto - 1].status.JobPending?
    then PendingOf(jobs, bridge, upto - 1) + [upto - 1]
    else PendingOf(jobs, bridge, upto - 1)
  }

  // --- starting an external call ------------------------------------------------------

  datatype Start = Refused(why: Fault) | Started(state: State)

  function StartCall(s: State, call: Call, await: Await): State {
    s.(calls := s.calls + [call], open := s.open[|s.calls| := await])
  }

  /** Who the gate record says approved the request a call settles. */
  function ApproverFor(s: State, o: Origin): Option<string> {
    if o.Settlement? && Approved(s, o.request) then s.gate[o.request].approver else None
  }

  function MakeCall(s: State, o: Origin, key: string, action: string, params: Payload, ch: Channel): Call {
    Call(o, key, action, params, ch, s.halted, s.policy.requireApproval, ApproverFor(s, o))
  }

  /** From s to s' exactly one external call began, and nothing but its own job was queued. */
  ghost predicate Begins(s: State, s': State, o: Origin, key: string, action: string, params: Payload, w: Await) {
    && |s'.calls| == |s.calls| + 1 && s'.calls[..|s.calls|] == s.calls
    && s'.open == s.open[|s.calls| := w]
    && s'.dep == s.dep && s'.now == s.now && s'.halted == s.halted && s'.reasons == s.reasons && s'.policy == s.policy
    && s'.tools == s.tools && s'.keys == s.keys && s'.gate == s.gate && s'.reqs == s.reqs && s'.bridges == s.bridges
    && s'.audit == s.audit && s'.polls == s.polls && s'.handed == s.handed && s'.submitted == s.submitted
    && var c := s'.calls[|s.calls|];
       c == MakeCall(s, o, key, action, params, c.channel)
       && match c.channel
          case ViaBridge(j) =>
            j == s.next && s'.next == s.next + 1 && j in s'.jobs
            && s'.jobs == s.jobs[j := Job(s'.jobs[j].bridge, key, action, params, JobPending, map[], "")]
          case _ => s'.jobs == s.jobs && s'.next == s.next
  }

  /** `run_via_bridge` up to the enqueued job. */
  function BridgeStart(s: State, o: Origin, bridge: Id, key: string, action: string, params: Payload,
          w: Await): (r: Start)
    ensures r.Started? ==> Begins(s, r.state, o, key, action, params, w)
  {
    if bridge !in s.bridges then Refused(NoSuchBridge)
    else if !Online(s.bridges[bridge], s.now) then Refused(BridgeOffline)
    else if s.bridges[bridge].allowed != {} && key + ":" + action !in s.bridges[bridge].allowed then
      Refused(NotOnAllowlist)
    else
      var job := Job(bridge, key, action, params, JobPending, map[], "");
      var s1 := StartCall(s, MakeCall(s, o, key, action, params, ViaBridge(s.next)), w);
      Started(s1.(jobs := s.jobs[s.next := job], next := s.next + 1))
  }

  /** A call goes through a bridge exactly when the bridge is known, online and allows the action, and
    * then queues one pending job for that very bridge. */
  lemma BridgeStartsIff(s: State, o: Origin, bridge: Id, key: string, action: string, params: Payload, w: Await)
    ensures var r := BridgeStart(s, o, bridge, key, action, params, w);
            && (r.Started? <==>
                  bridge in s.bridges && Online(s.bridges[bridge], s.now)
                  && (s.bridges[bridge].allowed == {} || key + ":" + action in s.bridges[bridge].allowed))
            && (r.Started? ==>
                  r.state.calls[|s.calls|].channel == ViaBridge(s.next)
                  && r.state.jobs == s.jobs[s.next := Job(bridge, key, action, params, JobPending, map[], "")])
  {
    hide Begins;
  }

  /** A call WACE makes itself, to a cloud application or in process. */
  function OwnCall(s: State, o: Origin, key: string, action: string, params: Payload, ch: Channel,
          w: Await): (s': State)
    requires !ch.ViaBridge?
    ensures Begins(s, s', o, key, action, params, w)
  {
    StartCall(s, MakeCall(s, o, key, action, params, ch), w)
  }

  /** A declared cloud write; an action without a write path is refused before the POST. */
  function CloudWrite(s: State, o: Origin, key: string, action: string, params: Payload, w: Await): (r: Start)
    ensures r.Started? ==> Begins(s, r.state, o, key, action, params, w)
  {
    if key in s.dep.cloudApps && action in s.dep.cloudApps[key].writable
    then Started(OwnCall(s, o, key, action, params, Cloud, w))
    else Refused(NoWritePath)
  }

  /** `_run_tool`: through the desk's bridge, as a cloud write, or locally. */
  function RunTool(s: State, o: Origin, t: Tool, action: string, params: Payload, w: Await): (r: Start)
    ensures r.Started? ==> Begins(s, r.state, o, t.key, action, params, w)
  {
    if t.bridge.Some? then BridgeStart(s, o, t.bridge.value, t.key, action, params, w)
    else if t.spec && t.key in s.dep.cloudApps then CloudWrite(s, o, t.key, action, params, w)
    else Started(OwnCall(s, o, t.key, action, params, Local, w))
  }

  function StateOf(s: State, start: Start): State {
    match start case Started(s1) => s1 case Refused(_) => s
  }

  // --- write requests -----------------------------------------------------------------

  function RequestWrite(s: State, who: string, desk: Id, tool: Id, key: string, action: string,
          params: Payload): State
  {
    var r := s.next;
    s.(gate := s.gate[r := Gate(GatePending, None)],
       reqs := s.reqs[r := Request(r, desk, who, tool, key, action, params, Pending, None, None, NoFault)],
       audit := s.audit + [Event(WriteRequested, who, desk, Some(r))],
       next := r + 1)
  }

  /** Save the settled row and append its receipt. */
  function Close(s: State, row: Request, out: Outcome): (s': State)
    ensures s'.polls == s.polls && s'.calls == s.calls && s'.gate == s.gate && s'.open == s.open
  {
    match out
    case Returned(res) =>
      s.(reqs := s.reqs[row.id := row.(status := Executed, result := Some(res))],
         audit := s.audit + [Event(WriteExecuted, "gel-gate", row.desk, Some(row.id))])
    case Raised(msg) =>
      s.(reqs := s.reqs[row.id := row.(status := Failed, reason := msg)],
         audit := s.audit + [Event(WriteFailed, "gel-gate", row.desk, Some(row.id))])
  }

  /** `_settle_write_request` up to its external call, on the caller's copy of the row. */
  function Settle(s: State, row: Request): (s': State)
    ensures s'.polls == s.polls
  {
    hide Close, RunTool;
    if !Approved(s, row.id) then s
    else if s.halted then Close(s, row, Raised(AutonomyHalted))
    else if row.tool !in s.tools || row.key !in s.dep.connectors then
      Close(s, row, Raised(NoLongerAvailable))
    else
      match RunTool(s, Settlement(row.id), s.tools[row.tool], row.action, row.params, AwaitSettle(row))
      case Refused(why) => Close(s, row, Raised(why))
      case Started(s1) => s1
  }

  function Reject(s: State, row: Request, approver: string, reason: string): State {
    var why := if reason == "" then RejectedByApprover else Message(reason);
    s.(gate := s.gate[row.id := Gate(GateRejected, Some(approver))],
       reqs := s.reqs[row.id := row.(status := Rejected, approver := Some(approver), reason := why)],
       audit := s.audit + [Event(WriteRejected, approver, row.desk, Some(row.id))])
  }

  function ApproveGate(s: State, r: Id, approver: string): State {
    s.(gate := s.gate[r := Gate(GateApproved, Some(approver))])
  }

  /** `decide_write_back`; `stop` is a process that dies once the gate record is saved. */
  function Decide(s: State, approver: string, r: Id, approve: bool, reason: string, stop: bool): State {
    if r !in s.reqs || !s.reqs[r].status.Pending? then s
    else if approve && approver == s.reqs[r].maker then s
    else if !approve then Reject(s, s.reqs[r], approver, reason)
    else if stop then ApproveGate(s, r, approver)
    else Settle(ApproveGate(s, r, approver), s.reqs[r].(approver := Some(approver)))
  }

  /** `list_write_requests`: read the desk's rows... */
  function PollStart(s: State, who: string, desk: Id): State {
    if !Owns(s.dep, who, desk) then s
    else s.(polls := s.polls[s.next := Poll(RowsOf(s.reqs, desk, s.next), None)], next := s.next + 1)
  }

  predicate PollReady(s: State, p: Id) {
    p in s.polls && s.polls[p].rows != [] &&
    (s.polls[p].waiting.Some? ==> s.polls[p].waiting.value !in s.open)
  }

  /** ...then settle each row that was pending when it was read. */
  function PollNext(s: State, p: Id): State {
    if !PollReady(s, p) then s
    else
      var row := s.polls[p].rows[0];
      var s1 := if row.status.Pending? then Settle(s, row) else s;
      var waiting := if |s1.calls| > |s.calls| then Some(|s.calls|) else None;
      s1.(polls := s.polls[p := Poll(s.polls[p].rows[1..], waiting)])
  }

  // --- invoke ---------------------------------------------------------------------------

  function InvokeSpec(s: State, who: string, tool: Id, action: string, params: Payload): State
    requires tool in s.tools
  {
    var t := s.tools[tool];
    var act := ActionOf(s.dep, t.key, action);
    if act.Some? && act.value.access.Write? then
      if !act.value.direct || s.policy.requireApproval
      then RequestWrite(s, who, t.desk, tool, t.key, action, params)
      else StateOf(s, CloudWrite(s, DirectWrite(who), t.key, action, params, AwaitUse(who, t.desk, true)))
    else if t.key in s.dep.cloudApps && action in s.dep.cloudApps[t.key].readable then
      OwnCall(s, ReadUse(who), t.key, action, params, Cloud, AwaitUse(who, t.desk, false))
    else if action != "list" && action != "open" then s
    else if t.bridge.Some? then
      StateOf(s, BridgeStart(s, ReadUse(who), t.bridge.value, "custom", action, params, AwaitUse(who, t.desk, false)))
    else OwnCall(s, ReadUse(who), "custom", action, params, Cloud, AwaitUse(who, t.desk, false))
  }

  function InvokeCatalog(s: State, who: string, tool: Id, action: string, params: Payload): State
    requires tool in s.tools
  {
    var t := s.tools[tool];
    var act := ActionOf(s.dep, t.key, action);
    if act.None? then s
    else if act.value.access.Write? && (!act.value.direct || s.policy.requireApproval) then
      RequestWrite(s, who, t.desk, tool, t.key, action, params)
    else
      var c := s.dep.connectors[t.key];
      if c.needsAuth && !t.signedIn then s
      else if !c.needsAuth && t.bridge.None? && !c.enabled then s
      else
        var o := if act.value.access.Write? then DirectWrite(who) else ReadUse(who);
        // the receipt of a catalogue write carries no `direct` mark
        StateOf(s, RunTool(s, o, t, action, params, AwaitUse(who, t.desk, false)))
  }

  function Invoke(s: State, who: string, desk: Id, tool: Id, action: string, params: Payload): State {
    if !Owns(s.dep, who, desk) || s.halted then s
    else if tool !in s.tools || s.tools[tool].desk != desk then s
    else if s.tools[tool].spec then InvokeSpec(s, who, tool, action, params)
    else InvokeCatalog(s, who, tool, action, params)
  }

  // --- terminal and diagnostics ------------------------------------------------------------

  /** `terminal_exec`; `safe` is the verdict of the destructive-command precheck. */
  function TerminalExec(s: State, who: string, desk: Id, bridge: Id, safe: bool, params: Payload): State {
    if !Owns(s.dep, who, desk) || s.policy.blockTerminal || !safe || s.halted then s
    else StateOf(s, BridgeStart(s, Terminal(who), bridge, "ssh", "exec", params, AwaitTerminal(who, desk)))
  }

  function TerminalHosts(s: State, who: string, desk: Id, bridge: Id): State {
    if !Owns(s.dep, who, desk) then s
    else StateOf(s, BridgeStart(s, Diagnostic(who), bridge, "ssh", "hosts", map[], AwaitNothing))
  }

  /** `test_custom_spec` on a spec that cleaned without error. */
  function TestSpec(s: State, who: string, desk: Id, bridge: Option<Id>): State {
    if !Owns(s.dep, who, desk) then s
    else if bridge.Some? then
      StateOf(s, BridgeStart(s, Diagnostic(who), bridge.value, "custom", "list", map[], AwaitNothing))
    else OwnCall(s, Diagnostic(who), "custom", "list", map[], Cloud, AwaitNothing)
  }

  // --- an external call returns --------------------------------------------------------------

  /** What `run_via_bridge` answers when it next looks at its job; None while it keeps waiting. */
  function BridgeAnswer(jobs: map<Id, Job>, j: Id, timedOut: bool): Option<Outcome> {
    if timedOut || j !in jobs then Some(Raised(NoAnswerInTime))
    else match jobs[j].status
      case JobDone => Some(Returned(if jobs[j].result == map[] then map["text" := ""] else jobs[j].result))
      case JobFailed => Some(Raised(if jobs[j].error == "" then BridgeJobFailed else Message(jobs[j].error)))
      case _ => None
  }

  /** The outcome a waiting call sees now, if it has one. */
  function OutcomeOf(s: State, c: nat, local: Outcome, timedOut: bool): Option<Outcome> {
    if c !in s.open || c >= |s.calls| then None
    else match s.calls[c].channel
      case ViaBridge(j) => BridgeAnswer(s.jobs, j, timedOut)
      case _ => Some(local)
  }

  function Return(s: State, c: nat, local: Outcome, timedOut: bool): State {
    var out := OutcomeOf(s, c, local, timedOut);
    if out.None? || c !in s.open then s
    else Finish(s.(open := s.open - {c}), s.open[c], out.value)
  }

  function Finish(s: State, w: Await, out: Outcome): State {
    match w
    case AwaitSettle(row) => Close(s, row, out)
    case AwaitUse(who, desk, direct) =>
      if out.Returned? then s.(audit := s.audit + [Event(Invoked(direct), who, desk, None)]) else s
    case AwaitTerminal(who, desk) =>
      if out.Returned? then s.(audit := s.audit + [Event(TerminalRun, who, desk, None)]) else s
    case AwaitToken(tool, asked) =>
      // the row saved is the copy read before the exchange
      if out.Returned?
      then s.(tools := s.tools[tool := asked.(signedIn := true)],
              audit := s.audit + [Event(ToolConnected, asked.owner, asked.desk, None)])
      else s
    case AwaitNothing => s
  }

  // --- tools, policy and the kill switch -------------------------------------------------------

  /** The switch, the policy and the clock stand as they did. */
  ghost predicate SameRule(s: State, s': State) {
    s'.halted == s.halted && s'.reasons == s.reasons && s'.policy == s.policy && s'.now == s.now
  }

  /** Connecting and disconnecting change the tool table and append a receipt about no request. */
  ghost predicate OnlyTools(s: State, s': State) {
    && SameRule(s, s')
    && s'.dep == s.dep && s'.gate == s.gate && s'.reqs == s.reqs && s'.open == s.open && s'.polls == s.polls
    && s'.calls == s.calls && s'.jobs == s.jobs && s'.handed == s.handed && s'.submitted == s.submitted
    && s'.bridges == s.bridges && s.next <= s'.next
    && (s'.keys == s.keys || (s.next < s'.next && s.next in s'.keys && s'.keys == s.keys[s.next := s'.keys[s.next]]))
    && (s'.audit == s.audit || exists e: Event :: e.request.None? && s'.audit == s.audit + [e])
    && (forall t :: t in s'.tools ==>
          (t == s.next && t in s'.keys && s'.tools[t].key == s'.keys[t]) || (t in s.tools && s'.tools[t] == s.tools[t]))
  }

  /** `connect`, once the configuration of the chosen connector form was accepted. */
  function Connect(s: State, who: string, desk: Id, key: string, bridge: Option<Id>, spec: bool,
          signedIn: bool): (s': State)
    ensures OnlyTools(s, s')
  {
    if !Owns(s.dep, who, desk) || key in s.policy.blocked then s
    else s.(tools := s.tools[s.next := Tool(desk, who, key, bridge, spec, signedIn)], keys := s.keys[s.next := key],
            audit := s.audit + [Event(ToolConnected, who, desk, None)], next := s.next + 1)
  }

  /** A tool waiting for its owner's sign-in: no bridge and no spec, only a token is missing. */
  predicate SignsIn(dep: Deployment, t: Tool) {
    t.bridge.None? && !t.spec && t.key in dep.connectors && dep.connectors[t.key].needsAuth
  }

  /** `complete_oauth` up to the exchange of the code at the provider. */
  function CompleteOAuth(s: State, tool: Id): State {
    if tool !in s.tools || !SignsIn(s.dep, s.tools[tool]) then s
    else OwnCall(s, SignIn(s.tools[tool].owner), "oauth", "exchange", map[], Cloud, AwaitToken(tool, s.tools[tool]))
  }

  function Disconnect(s: State, who: string, desk: Id, tool: Id): (s': State)
    ensures OnlyTools(s, s')
  {
    if !Owns(s.dep, who, desk) || tool !in s.tools || s.tools[tool].desk != desk then s
    else s.(tools := s.tools - {tool}, audit := s.audit + [Event(ToolDisconnected, who, desk, None)])
  }

  // --- the bridge's own side ----------------------------------------------------------------------

  /** The desk's side of the state: all a bridge agent or an administrator leaves alone. */
  ghost predicate SameDesk(s: State, s': State) {
    && s'.dep == s.dep && s'.tools == s.tools && s'.gate == s.gate && s'.reqs == s.reqs
    && s'.audit == s.audit && s'.polls == s.polls && s'.open == s.open && s'.calls == s.calls && s'.keys == s.keys
  }

  /** Pairing touches the bridge table alone. */
  ghost predicate OnlyBridges(s: State, s': State) {
    SameDesk(s, s') && s'.halted == s.halted && s'.next >= s.next && s'.jobs == s.jobs
    && s'.handed == s.handed && s'.submitted == s.submitted
  }

  /** `pair`: the secret is a fresh number; the pairing code is whatever was drawn. */
  function Pair(s: State, desk: Id, code: string): (s': State)
    ensures OnlyBridges(s, s')
  {
    var b := Bridge(desk, Sha256(s.next + 1), {}, None, code, Some(s.next + 1), Some(s.now + 1800));
    s.(bridges := s.bridges[s.next := b], next := s.next + 2)
  }

  /** The first bridge showing this pairing code. */
  function FirstWithCode(bridges: map<Id, Bridge>, code: string, from: Id, upto: Id): Option<Id>
    decreases upto - from
  {
    if from >= upto then None
    else if from in bridges && bridges[from].code != "" && bridges[from].code == code then Some(from)
    else FirstWithCode(bridges, code, from + 1, upto)
  }

  function Normalise(code: string): string { Strings.Upper(Strings.Strip(code)) }

  /** The token `claim` hands out for a code as typed, if any. */
  function ClaimToken(s: State, typed: string): Option<(Id, int)> {
    var code := Normalise(typed);
    var b := if code == "" then None else FirstWithCode(s.bridges, code, 0, s.next);
    if b.None? || b.value !in s.bridges then None
    else
      var row := s.bridges[b.value];
      if row.pairSecret.None? || (row.expires.Some? && row.expires.value < s.now) then None
      else Some((b.value, row.pairSecret.value))
  }

  function Claim(s: State, code: string): (s': State)
    ensures OnlyBridges(s, s')
  {
    var t := ClaimToken(s, code);
    if t.None? || t.value.0 !in s.bridges then s
    else s.(bridges := s.bridges[t.value.0 := s.bridges[t.value.0].(pairSecret := None, expires := None)])
  }

  function Hello(s: State, bridge: Id, secret: int): (s': State)
    ensures OnlyBridges(s, s')
  {
    if !Authentic(s, bridge, secret) then s
    else s.(bridges := s.bridges[bridge := s.bridges[bridge].(lastSeen := Some(s.now))])
  }

  const MAX_ALLOWED: nat := 100

  /** The entries of an allowlist, stripped; blank ones are dropped. */
  function Cleaned(actions: seq<string>): seq<string> {
    if actions == [] then []
    else
      var last := Strings.Strip(actions[|actions| - 1]);
      Cleaned(actions[..|actions| - 1]) + if last == "" then [] else [last]
  }

  /** The first hundred of them. */
  function Allowlist(actions: seq<string>): set<string> {
    var list := Cleaned(actions);
    var kept := if |list| > MAX_ALLOWED then list[..MAX_ALLOWED] else list;
    set a | a in kept
  }

  function SetAllowed(s: State, desk: Id, bridge: Id, actions: seq<string>): (s': State)
    ensures OnlyBridges(s, s')
  {
    if bridge !in s.bridges || s.bridges[bridge].desk != desk then s
    else s.(bridges := s.bridges[bridge := s.bridges[bridge].(allowed := Allowlist(actions))])
  }

  function Revoke(s: State, desk: Id, bridge: Id): (s': State)
    ensures OnlyBridges(s, s')
  {
    if bridge !in s.bridges || s.bridges[bridge].desk != desk then s
    else s.(bridges := s.bridges - {bridge})
  }

  function MarkRunning(jobs: map<Id, Job>, ids: seq<Id>): map<Id, Job> {
    map j | j in jobs :: if j in ids then jobs[j].(status := JobRunning) else jobs[j]
  }

  function ClaimJobs(s: State, bridge: Id, secret: int): (s': State)
    ensures SameDesk(s, s') && s'.halted == s.halted && s'.next == s.next && s'.submitted == s.submitted
  {
    if !Authentic(s, bridge, secret) then s
    else
      var ids := PendingOf(s.jobs, bridge, s.next);
      s.(bridges := s.bridges[bridge := s.bridges[bridge].(lastSeen := Some(s.now))],
         jobs := MarkRunning(s.jobs, ids), handed := s.handed + ids)
  }

  function Answered(job: Job, answer: Answer): Job {
    if answer.error != "" then job.(status := JobFailed, error := Clip(answer.error, 2000))
    else job.(status := JobDone, result := answer.result)
  }

  function SubmitResult(s: State, bridge: Id, secret: int, j: Id, answer: Answer): (s': State)
    ensures SameDesk(s, s') && s'.halted == s.halted && s'.next == s.next && s'.handed == s.handed
  {
    if !Authentic(s, bridge, secret) || j !in s.jobs || s.jobs[j].bridge != bridge then s
    else s.(jobs := s.jobs[j := Answered(s.jobs[j], answer)],
            submitted := s.submitted + [Submission(bridge, j, answer)])
  }

  // --- steps and runs ---------------------------------------------------------------------------------

  datatype DeskStep =
    | DoInvoke(who: string, desk: Id, tool: Id, action: string, params: Payload)
    | DoDecide(approver: string, r: Id, approve: bool, reason: string, stop: bool)
    | DoPollStart(who: string, desk: Id)
    | DoPollNext(p: Id)
    | DoReturn(c: nat, local: Outcome, timedOut: bool)
    | DoConnect(who: string, desk: Id, key: string, bridge: Option<Id>, spec: bool, signedIn: bool)
    | DoCompleteOAuth(tool: Id)
    | DoDisconnect(who: string, desk: Id, tool: Id)
    | DoTerminalExec(who: string, desk: Id, b: Id, safe: bool, params: Payload)
    | DoTerminalHosts(who: string, desk: Id, b: Id)
    | DoTestSpec(who: string, desk: Id, via: Option<Id>)

  datatype BridgeStep =
    | DoPair(desk: Id, code: string)
    | DoClaim(code: string)
    | DoHello(b: Id, secret: int)
    | DoSetAllowed(desk: Id, b: Id, actions: seq<string>)
    | DoRevoke(desk: Id, b: Id)
    | DoClaimJobs(b: Id, secret: int)
    | DoSubmit(b: Id, secret: int, j: Id, answer: Answer)

  datatype AdminStep = DoSetPolicy(patch: Patch) | DoHalt(reason: string) | DoResume | DoTick(seconds: nat)

  datatype Step = AtDesk(d: DeskStep) | AtBridge(b: BridgeStep) | ByAdmin(a: AdminStep)

  function DeskNext(s: State, step: DeskStep): State {
    match step
    case DoInvoke(who, desk, tool, action, params) => Invoke(s, who, desk, tool, action, params)
    case DoDecide(approver, r, approve, reason, stop) => Decide(s, approver, r, approve, reason, stop)
    case DoPollStart(who, desk) => PollStart(s, who, desk)
    case DoPollNext(p) => PollNext(s, p)
    case DoReturn(c, local, timedOut) => Return(s, c, local, timedOut)
    case DoConnect(who, desk, key, bridge, spec, signedIn) => Connect(s, who, desk, key, bridge, spec, signedIn)
    case DoCompleteOAuth(tool) => CompleteOAuth(s, tool)
    case DoDisconnect(who, desk, tool) => Disconnect(s, who, desk, tool)
    case DoTerminalExec(who, desk, b, safe, params) => TerminalExec(s, who, desk, b, safe, params)
    case DoTerminalHosts(who, desk, b) => TerminalHosts(s, who, desk, b)
    case DoTestSpec(who, desk, via) => TestSpec(s, who, desk, via)
  }

  function BridgeNext(s: State, step: BridgeStep): (s': State)
    ensures SameDesk(s, s') && s'.halted == s.halted && s'.next >= s.next
    ensures !step.DoClaimJobs? ==> s'.handed == s.handed
    ensures !step.DoSubmit? ==> s'.submitted == s.submitted
    ensures !step.DoClaimJobs? && !step.DoSubmit? ==> s'.jobs == s.jobs
  {
    hide Pair, Claim, Hello, SetAllowed, Revoke, ClaimJobs, SubmitResult;
    match step
    case DoPair(desk, code) => Pair(s, desk, code)
    case DoClaim(code) => Claim(s, code)
    case DoHello(b, secret) => Hello(s, b, secret)
    case DoSetAllowed(desk, b, actions) => SetAllowed(s, desk, b, actions)
    case DoRevoke(desk, b) => Revoke(s, desk, b)
    case DoClaimJobs(b, secret) => ClaimJobs(s, b, secret)
    case DoSubmit(b, secret, j, answer) => SubmitResult(s, b, secret, j, answer)
  }

  const MAX_BLOCKED: nat := 60

  function Or<T>(o: Option<T>, d: T): T { if o.Some? then o.value else d }

  /** `set_org_policy`: the fields named, the blocked list cut to its first sixty. */
  function Patched(p: Policy, patch: Patch): Policy {
    var blocked := Or(patch.blocked, p.blocked);
    Policy(Or(patch.requireApproval, p.requireApproval), Or(patch.blockTerminal, p.blockTerminal),
           if patch.blocked.Some? && |blocked| > MAX_BLOCKED then blocked[..MAX_BLOCKED] else blocked)
  }

  function AdminNext(s: State, step: AdminStep): (s': State)
    ensures SameDesk(s, s') && s'.next == s.next && s'.jobs == s.jobs && s'.handed == s.handed
            && s'.submitted == s.submitted
  {
    match step
    case DoSetPolicy(patch) => s.(policy := Patched(s.policy, patch))
    case DoHalt(reason) => s.(halted := true, reasons := [if reason == "" then "halted" else reason])
    case DoResume => s.(halted := false, reasons := [])
    case DoTick(d) => s.(now := s.now + d)
  }

  function Next(s: State, step: Step): State {
    match step
    case AtDesk(d) => DeskNext(s, d)
    case AtBridge(b) => BridgeNext(s, b)
    case ByAdmin(a) => AdminNext(s, a)
  }

  function Run(dep: Deployment, steps: seq<Step>): State {
    if steps == [] then Init(dep) else Next(Run(dep, steps[..|steps| - 1]), steps[|steps| - 1])
  }
}
