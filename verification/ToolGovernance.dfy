/** The integration catalogue, its lifecycle policy, the agent bindings and the credential tickets. */
module ToolGovernance {
  import opened Options

  type Id = int

  // --- the lifecycle policy -------------------------------------------------------------------

  datatype Status = DISCOVERED | PROPOSED | REVIEWED | APPROVED | ENABLED | DISABLED | REVOKED
  datatype Authority = ARCHITECT | DEPUTY | INTEGRATION_GOVERNOR | STANDARDS_AGENT | LAWYER | ORACLE | SYSTEM

  const SOVEREIGNTY := {ARCHITECT, DEPUTY}
  const GOVERNORS := SOVEREIGNTY + {INTEGRATION_GOVERNOR}
  const REVIEWERS := GOVERNORS + {STANDARDS_AGENT, LAWYER}
  const PROPOSERS := REVIEWERS + {ORACLE, SYSTEM}

  /** Who may take a tool from one status to another; None when the policy has no such transition. */
  function Rule(from: Status, to: Status): Option<set<Authority>> {
    match (from, to)
    case (DISCOVERED, PROPOSED) => Some(PROPOSERS)
    case (PROPOSED, REVIEWED) => Some(REVIEWERS)
    case (REVIEWED, APPROVED) => Some(GOVERNORS)
    case (APPROVED, ENABLED) => Some(GOVERNORS)
    case (ENABLED, DISABLED) => Some(GOVERNORS)
    case (DISABLED, ENABLED) => Some(GOVERNORS)
    case (PROPOSED, DISCOVERED) => Some(REVIEWERS)
    case (REVIEWED, PROPOSED) => Some(REVIEWERS)
    case (ENABLED, REVOKED) => Some(GOVERNORS)
    case (DISABLED, REVOKED) => Some(GOVERNORS)
    case (APPROVED, REVOKED) => Some(GOVERNORS)
    case (REVIEWED, REVOKED) => Some(SOVEREIGNTY)
    case (PROPOSED, REVOKED) => Some(SOVEREIGNTY)
    case (DISCOVERED, REVOKED) => Some(SOVEREIGNTY)
    case _ => None
  }

  datatype Verdict = Terminal | Invalid | Unauthorized | Permitted

  function Validate(from: Status, to: Status, actor: Authority): Verdict {
    if from == REVOKED then Terminal
    else if Rule(from, to).None? then Invalid
    else if actor !in Rule(from, to).value then Unauthorized
    else Permitted
  }

  predicate Bindable(status: Status) { status == APPROVED || status == ENABLED }

  /** The statuses a tool can have from its approval on. */
  predicate Governed(status: Status) { status in {APPROVED, ENABLED, DISABLED, REVOKED} }

  // --- the vault ----------------------------------------------------------------------------------

  /** An AES-GCM ciphertext: key, product (the authenticated data), nonce and text. */
  datatype Sealed = Sealed(key: int, product: string, nonce: int, text: string)

  function Unseal(key: int, product: string, c: Sealed): Option<string> {
    if c.key == key && c.product == product then Some(c.text) else None
  }

  // --- tables ---------------------------------------------------------------------------------------

  datatype Tool = Tool(name: string, status: Status, product: Option<string>)
  datatype Binding = Binding(tool: Id, agent: Id, product: string, ref: Option<Sealed>)

  datatype State = State(
    vault: Option<int>,                    // the vault's key, if a vault is configured
    agents: map<Id, string>,               // agent -> product
    tools: map<Id, Tool>,
    bindings: map<Id, Binding>,
    next: Id,
    trace: map<Id, seq<Status>>,           // history: the statuses each tool entered
    given: map<Id, Option<string>>)        // history: the credential each binding was assigned with

  function Init(vault: Option<int>): State { State(vault, map[], map[], map[], 0, map[], map[]) }

  function Register(s: State, name: string, product: Option<string>): State {
    if exists t :: t in s.tools && s.tools[t].name == name then s
    else s.(tools := s.tools[s.next := Tool(name, DISCOVERED, product)],
            trace := s.trace[s.next := [DISCOVERED]], next := s.next + 1)
  }

  function Trace(trace: map<Id, seq<Status>>, t: Id): seq<Status> { if t in trace then trace[t] else [] }

  function Transition(s: State, t: Id, to: Status, actor: Authority): State {
    if t !in s.tools || !Validate(s.tools[t].status, to, actor).Permitted? then s
    else s.(tools := s.tools[t := s.tools[t].(status := to)], trace := s.trace[t := Trace(s.trace, t) + [to]])
  }

  datatype Refusal = IsolationViolation | ToolNotFound | NotApproved | NoVault | Duplicate

  predicate Bound(s: State, tool: Id, agent: Id, product: string) {
    exists b :: b in s.bindings && s.bindings[b].tool == tool && s.bindings[b].agent == agent
                && s.bindings[b].product == product
  }

  /** The validation steps of `assign_tool`, in order. */
  function AssignRefusal(s: State, product: string, agent: Id, tool: Id, credential: Option<string>): Option<Refusal> {
    if agent !in s.agents || s.agents[agent] != product then Some(IsolationViolation)
    else if tool !in s.tools then Some(ToolNotFound)
    else if !Bindable(s.tools[tool].status) then Some(NotApproved)
    else if credential.Some? && s.vault.None? then Some(NoVault)
    else if Bound(s, tool, agent, product) then Some(Duplicate)
    else None
  }

  function Assign(s: State, product: string, agent: Id, tool: Id, credential: Option<string>): State {
    if AssignRefusal(s, product, agent, tool, credential).Some? then s
    else
      var ref := if credential.Some? && s.vault.Some?
                 then Some(Sealed(s.vault.value, product, s.next, credential.value)) else None;
      s.(bindings := s.bindings[s.next := Binding(tool, agent, product, ref)],
         given := s.given[s.next := credential], next := s.next + 1)
  }

  function RevokeBinding(s: State, b: Id, product: string): State {
    if b !in s.bindings || s.bindings[b].product != product then s
    else s.(bindings := s.bindings - {b})
  }

  // --- access and tickets ---------------------------------------------------------------------------------

  predicate Matches(s: State, b: Id, agent: Id, tool: Id) {
    b in s.bindings && s.bindings[b].agent == agent && s.bindings[b].tool == tool
  }

  /** `.first()` over the bindings of an agent and a tool. */
  function First(s: State, agent: Id, tool: Id, from: Id): Option<Id>
    decreases s.next - from
  {
    if from >= s.next then None
    else if Matches(s, from, agent, tool) then Some(from)
    else First(s, agent, tool, from + 1)
  }

  predicate Access(s: State, agent: Id, tool: Id, requesting: Option<string>) {
    var b := First(s, agent, tool, 0);
    b.Some? && b.value in s.bindings
    && (requesting.Some? ==> s.bindings[b.value].product == requesting.value)
    && tool in s.tools && s.tools[tool].status == ENABLED
  }

  /** What a ticket carries: the unsealed text, or without a vault the stored reference itself. */
  datatype Credential = Text(text: string) | Stored(ref: Sealed)

  datatype Ticket = Ticket(agent: Id, tool: Id, product: string, credential: Option<Credential>)
    | BindingNotFound | IsolationError | AccessDenied | DecryptionError

  function IssueTicket(s: State, agent: Id, tool: Id, product: string): Ticket {
    var b := First(s, agent, tool, 0);
    if b.None? || b.value !in s.bindings then BindingNotFound
    else if s.bindings[b.value].product != product then IsolationError
    else if !Access(s, agent, tool, Some(product)) then AccessDenied
    else
      var ref := s.bindings[b.value].ref;
      if ref.None? then Ticket(agent, tool, product, None)
      else if s.vault.None? then Ticket(agent, tool, product, Some(Stored(ref.value)))
      else
        var text := Unseal(s.vault.value, product, ref.value);
        if text.None? then DecryptionError else Ticket(agent, tool, product, Some(Text(text.value)))
  }

  // --- runs --------------------------------------------------------------------------------------------------

  datatype Step =
    | DoCreateAgent(product: string) | DoRegister(name: string, owner: Option<string>)
    | DoTransition(t: Id, to: Status, actor: Authority)
    | DoAssign(product: string, agent: Id, tool: Id, credential: Option<string>) | DoRevoke(b: Id, product: string)

  function Next(s: State, step: Step): State {
    match step
    case DoCreateAgent(product) => s.(agents := s.agents[s.next := product], next := s.next + 1)
    case DoRegister(name, owner) => Register(s, name, owner)
    case DoTransition(t, to, actor) => Transition(s, t, to, actor)
    case DoAssign(product, agent, tool, credential) => Assign(s, product, agent, tool, credential)
    case DoRevoke(b, product) => RevokeBinding(s, b, product)
  }

  function Run(vault: Option<int>, steps: seq<Step>): State {
    if steps == [] then Init(vault) else Next(Run(vault, steps[..|steps| - 1]), steps[|steps| - 1])
  }

  // --- the invariant --------------------------------------------------------------------------------------------

  /** Consecutive statuses follow the policy for some authority. */
  ghost predicate Follows(trace: seq<Status>) {
    && trace != [] && trace[0] == DISCOVERED
    && forall i :: 0 <= i < |trace| - 1 ==> Rule(trace[i], trace[i + 1]).Some?
  }

  ghost predicate TracesOk(tools: map<Id, Tool>, trace: map<Id, seq<Status>>) {
    tools.Keys == trace.Keys
    && forall t :: t in tools ==> Follows(trace[t]) && trace[t][|trace[t]| - 1] == tools[t].status
  }

  ghost predicate BindingsOk(s: State) {
    && s.bindings.Keys <= s.given.Keys
    && (forall b :: b in s.bindings ==> BindingOk(s, b, s.bindings[b]))
    && OnePerAgent(s.bindings)
  }

  /** An agent has at most one binding for a tool. */
  ghost predicate OnePerAgent(bindings: map<Id, Binding>) {
    forall b, c ::
      b in bindings && c in bindings && bindings[b].agent == bindings[c].agent && bindings[b].tool == bindings[c].tool
      ==> b == c
  }

  predicate ApprovedAt(trace: seq<Status>, i: int) { 0 <= i < |trace| && trace[i] == APPROVED }

  ghost predicate BindingOk(s: State, b: Id, row: Binding)
    requires b in s.given
  {
    && 0 <= b < s.next && row.tool in s.tools && Governed(s.tools[row.tool].status)
    && row.agent in s.agents && s.agents[row.agent] == row.product
    && (s.given[b].Some? <==> row.ref.Some?)
    && (row.ref.Some? ==> s.vault.Some? && row.ref.value == Sealed(s.vault.value, row.product, b, s.given[b].value))
  }

  ghost predicate Inv(s: State) {
    && 0 <= s.next && (forall t :: t in s.tools ==> t < s.next) && (forall a :: a in s.agents ==> a < s.next)
    && TracesOk(s.tools, s.trace) && BindingsOk(s)
  }

  lemma FollowsOn(trace: seq<Status>, to: Status)
    requires Follows(trace) && Rule(trace[|trace| - 1], to).Some?
    ensures Follows(trace + [to])
  {
    var longer := trace + [to];
    forall i | 0 <= i < |longer| - 1 ensures Rule(longer[i], longer[i + 1]).Some? {
      if i < |trace| - 1 { assert Rule(trace[i], trace[i + 1]).Some?; }
    }
  }

  lemma TransitionInv(s: State, t: Id, to: Status, actor: Authority)
    requires Inv(s)
    ensures Inv(Transition(s, t, to, actor))
  {
    hide Follows;
    if t in s.tools && Validate(s.tools[t].status, to, actor).Permitted? {
      var s' := Transition(s, t, to, actor);
      FollowsOn(s.trace[t], to);
      forall b | b in s'.bindings ensures BindingOk(s', b, s'.bindings[b]) { assert BindingOk(s, b, s.bindings[b]); }
    }
  }

  lemma AssignInv(s: State, product: string, agent: Id, tool: Id, credential: Option<string>)
    requires Inv(s)
    ensures Inv(Assign(s, product, agent, tool, credential))
  {
    hide TracesOk;
    if AssignRefusal(s, product, agent, tool, credential).None? {
      var s' := Assign(s, product, agent, tool, credential);
      forall b | b in s'.bindings ensures BindingOk(s', b, s'.bindings[b]) {
        if b != s.next { assert BindingOk(s, b, s.bindings[b]); }
      }
      NotYetBound(s, product, agent, tool);
    }
  }

  /** An agent's bindings are all for its own product. */
  lemma NotYetBound(s: State, product: string, agent: Id, tool: Id)
    requires BindingsOk(s) && agent in s.agents && s.agents[agent] == product && !Bound(s, tool, agent, product)
    ensures forall b :: b in s.bindings && s.bindings[b].agent == agent ==> s.bindings[b].tool != tool
  {
    forall b | b in s.bindings && s.bindings[b].agent == agent ensures s.bindings[b].tool != tool {
      assert BindingOk(s, b, s.bindings[b]);
    }
  }

  /** Agents and tools only ever get new ids. */
  lemma RegisterInv(s: State, s': State)
    requires Inv(s) && s'.vault == s.vault && s'.bindings == s.bindings && s'.given == s.given && s'.next == s.next + 1
    requires forall a :: a in s.agents ==> a in s'.agents && s'.agents[a] == s.agents[a]
    requires forall t :: t in s.tools ==> t in s'.tools && s'.tools[t] == s.tools[t]
    requires TracesOk(s'.tools, s'.trace)
    requires s'.agents.Keys <= s.agents.Keys + {s.next} && s'.tools.Keys <= s.tools.Keys + {s.next}
    ensures Inv(s')
  {
    forall b | b in s'.bindings ensures BindingOk(s', b, s'.bindings[b]) { assert BindingOk(s, b, s.bindings[b]); }
  }

  lemma RevokeBindingInv(s: State, b: Id, product: string)
    requires Inv(s)
    ensures Inv(RevokeBinding(s, b, product))
  {
    var s' := RevokeBinding(s, b, product);
    forall b | b in s'.bindings ensures BindingOk(s', b, s'.bindings[b]) { assert BindingOk(s, b, s.bindings[b]); }
  }

  lemma InvKept(s: State, step: Step)
    requires Inv(s)
    ensures Inv(Next(s, step))
  {
    hide Transition, Assign, RevokeBinding, BindingsOk;
    match step
    case DoCreateAgent(product) => RegisterInv(s, s.(agents := s.agents[s.next := product], next := s.next + 1));
    case DoRegister(name, owner) =>
      if !exists t :: t in s.tools && s.tools[t].name == name { RegisterInv(s, Register(s, name, owner)); }
    case DoRevoke(b, product) => RevokeBindingInv(s, b, product);
    case DoTransition(t, to, actor) => TransitionInv(s, t, to, actor);
    case DoAssign(product, agent, tool, credential) => AssignInv(s, product, agent, tool, credential);
  }

  lemma {:induction false} RunInv(vault: Option<int>, steps: seq<Step>)
    ensures Inv(Run(vault, steps))
  {
    if steps != [] {
      RunInv(vault, steps[..|steps| - 1]);
      InvKept(Run(vault, steps[..|steps| - 1]), steps[|steps| - 1]);
    }
  }

  // --- the promises ---------------------------------------------------------------------------------------------

  /** After APPROVED a tool only ever is ENABLED, DISABLED or REVOKED; after REVOKED it is nothing else. */
  lemma {:induction false} ApprovalIsOneWay(trace: seq<Status>, i: nat, k: nat)
    requires Follows(trace) && i < k < |trace| && Governed(trace[i])
    ensures trace[k] in {ENABLED, DISABLED, REVOKED} && trace[i] != REVOKED
  {
    if k > i + 1 { ApprovalIsOneWay(trace, i, k - 1); }
    assert Rule(trace[k - 1], trace[k]).Some?;
  }

  /** Over every run: a tool enters APPROVED at most once, an agent has at most one binding per tool,
    * and a bound tool has been approved. */
  lemma BindingsAreGoverned(vault: Option<int>, steps: seq<Step>)
    ensures var s := Run(vault, steps);
            && (forall t, i, k :: t in s.trace && ApprovedAt(s.trace[t], i) && ApprovedAt(s.trace[t], k) ==> i == k)
            && OnePerAgent(s.bindings)
            && (forall b :: b in s.bindings ==>
                  s.bindings[b].tool in s.tools && Governed(s.tools[s.bindings[b].tool].status))
  {
    RunInv(vault, steps);
    var s := Run(vault, steps);
    forall t, i, k | t in s.trace && ApprovedAt(s.trace[t], i) && ApprovedAt(s.trace[t], k) ensures i == k {
      if i < k { ApprovalIsOneWay(s.trace[t], i, k); }
      if k < i { ApprovalIsOneWay(s.trace[t], k, i); }
    }
    forall b | b in s.bindings ensures s.bindings[b].tool in s.tools && Governed(s.tools[s.bindings[b].tool].status) {
      assert BindingOk(s, b, s.bindings[b]);
    }
  }

  lemma {:induction false} FirstFinds(s: State, agent: Id, tool: Id, from: Id, b: Id)
    requires from <= b < s.next && Matches(s, b, agent, tool)
    requires forall c :: Matches(s, c, agent, tool) ==> c == b
    ensures First(s, agent, tool, from) == Some(b)
    decreases b - from
  {
    if from < b { FirstFinds(s, agent, tool, from + 1, b); }
  }

  lemma {:induction false} FirstIs(s: State, agent: Id, tool: Id, from: Id)
    ensures First(s, agent, tool, from).Some? ==> Matches(s, First(s, agent, tool, from).value, agent, tool)
    decreases s.next - from
  {
    if from < s.next { FirstIs(s, agent, tool, from + 1); }
  }

  /** Access is granted exactly to an agent whose binding serves the requesting product, and only
    * while the tool is ENABLED. */
  lemma AccessIff(s: State, agent: Id, tool: Id, requesting: Option<string>)
    requires Inv(s)
    ensures Access(s, agent, tool, requesting) <==>
      (exists b :: Matches(s, b, agent, tool) && (requesting.Some? ==> s.bindings[b].product == requesting.value))
      && tool in s.tools && s.tools[tool].status == ENABLED
  {
    FirstIs(s, agent, tool, 0);
    if b :| Matches(s, b, agent, tool) && (requesting.Some? ==> s.bindings[b].product == requesting.value) {
      assert BindingOk(s, b, s.bindings[b]);
      FirstFinds(s, agent, tool, 0, b);
    }
  }

  lemma RevokedStep(s: State, step: Step, tool: Id)
    requires Inv(s) && tool in s.tools && s.tools[tool].status == REVOKED
    ensures tool in Next(s, step).tools && Next(s, step).tools[tool].status == REVOKED
  {
    hide BindingsOk, TracesOk;
  }

  /** A revoked tool is never accessible again in any continuation of the run. */
  lemma {:induction false} RevokedForever(vault: Option<int>, steps: seq<Step>, i: nat, agent: Id, tool: Id,
          requesting: Option<string>)
    requires i <= |steps|
    requires var s := Run(vault, steps[..i]); tool in s.tools && s.tools[tool].status == REVOKED
    ensures var s := Run(vault, steps);
            tool in s.tools && s.tools[tool].status == REVOKED && !Access(s, agent, tool, requesting)
  {
    hide Inv, Next;
    if i == |steps| {
      assert steps[..i] == steps;
    } else {
      var n := |steps| - 1;
      assert steps[..n][..i] == steps[..i];
      RevokedForever(vault, steps[..n], i, agent, tool, requesting);
      RunInv(vault, steps[..n]);
      RevokedStep(Run(vault, steps[..n]), steps[n], tool);
    }
  }

  /** Over every run: a ticket is issued exactly to the agent bound for that product while the tool is
    * ENABLED, it is the binding's own, and no stored credential ever fails to open. */
  lemma TicketIff(vault: Option<int>, steps: seq<Step>, agent: Id, tool: Id, product: string)
    ensures var s := Run(vault, steps);
            var ticket := IssueTicket(s, agent, tool, product);
            && ticket != DecryptionError
            && (ticket.Ticket? <==> (exists b :: Matches(s, b, agent, tool) && s.bindings[b].product == product)
                                    && tool in s.tools && s.tools[tool].status == ENABLED)
            && forall b :: Matches(s, b, agent, tool) && ticket.Ticket? ==>
                 b in s.given && s.bindings[b].product == product
                 && ticket == Ticket(agent, tool, product,
                    if s.given[b].Some? then Some(Text(s.given[b].value)) else None)
  {
    hide Inv, BindingsOk, TracesOk, Access, IssueTicket;
    RunInv(vault, steps);
    var s := Run(vault, steps);
    if b :| Matches(s, b, agent, tool) {
      BoundTicket(s, b, product);
      forall c | Matches(s, c, agent, tool) ensures c == b { OnlyBinding(s, b, c); }
    } else {
      UnboundTicket(s, agent, tool, product);
    }
  }

  lemma OnlyBinding(s: State, b: Id, c: Id)
    requires Inv(s) && b in s.bindings && Matches(s, c, s.bindings[b].agent, s.bindings[b].tool)
    ensures c == b
  {}

  lemma UnboundTicket(s: State, agent: Id, tool: Id, product: string)
    requires forall b :: !Matches(s, b, agent, tool)
    ensures IssueTicket(s, agent, tool, product) == BindingNotFound
  {
    FirstIs(s, agent, tool, 0);
  }

  lemma BoundTicket(s: State, b: Id, product: string)
    requires Inv(s) && b in s.bindings
    ensures b in s.given
    ensures var row := s.bindings[b];
            IssueTicket(s, row.agent, row.tool, product)
            == if row.product != product then IsolationError
               else if row.tool !in s.tools || s.tools[row.tool].status != ENABLED then AccessDenied
               else Ticket(row.agent, row.tool, product,
                 if s.given[b].Some? then Some(Text(s.given[b].value)) else None)
  {
    assert BindingOk(s, b, s.bindings[b]);
    FirstFinds(s, s.bindings[b].agent, s.bindings[b].tool, 0, b);
  }

  // --- who may do what ------------------------------------------------------------------------------------------

  /** The whole policy: anyone proposes a discovered tool; the three governors, the standards agent and the
    * lawyer move a tool between discovered, proposed and reviewed; only the three governors approve, enable,
    * disable, or revoke what was approved; only the architect and the deputy revoke before approval. */
  lemma PermittedIff(from: Status, to: Status, actor: Authority)
    ensures Validate(from, to, actor) == Permitted <==>
              || (from == DISCOVERED && to == PROPOSED)
              || (actor in {ARCHITECT, DEPUTY, INTEGRATION_GOVERNOR, STANDARDS_AGENT, LAWYER}
                  && (from, to) in {(PROPOSED, REVIEWED), (PROPOSED, DISCOVERED), (REVIEWED, PROPOSED)})
              || (actor in {ARCHITECT, DEPUTY, INTEGRATION_GOVERNOR}
                  && (from, to) in {(REVIEWED, APPROVED), (APPROVED, ENABLED), (ENABLED, DISABLED), (DISABLED, ENABLED),
                                    (APPROVED, REVOKED), (ENABLED, REVOKED), (DISABLED, REVOKED)})
              || (actor in {ARCHITECT, DEPUTY} && from in {DISCOVERED, PROPOSED, REVIEWED} && to == REVOKED)
    ensures Validate(from, to, actor) == Terminal <==> from == REVOKED
    ensures Validate(from, to, actor) == Invalid <==> from != REVOKED && forall a :: Validate(from, to, a) != Permitted
  {
    assert Validate(from, to, ARCHITECT) == Permitted || from == REVOKED || Rule(from, to).None?;
  }

  /** Over every run: a tool's status changes only by a transition request for it, and then the actor had the
    * authority: a governor to approve, enable or disable, a governor, standards agent or lawyer to review, the
    * architect or the deputy to revoke a tool that was never approved, and a governor to revoke any other. */
  lemma EveryMoveWasAuthorised(vault: Option<int>, steps: seq<Step>, i: nat, t: Id)
    requires i < |steps| && t in Run(vault, steps[..i]).tools
    ensures t in Run(vault, steps[..i + 1]).tools
    ensures var from, to := Run(vault, steps[..i]).tools[t].status, Run(vault, steps[..i + 1]).tools[t].status;
            from != to ==>
              && steps[i].DoTransition? && steps[i].t == t && steps[i].to == to
              && (to in {APPROVED, ENABLED, DISABLED} ==> steps[i].actor in {ARCHITECT, DEPUTY, INTEGRATION_GOVERNOR})
              && (to == REVIEWED ==>
                    steps[i].actor in {ARCHITECT, DEPUTY, INTEGRATION_GOVERNOR, STANDARDS_AGENT, LAWYER})
              && (to == REVOKED && from in {DISCOVERED, PROPOSED, REVIEWED} ==> steps[i].actor in {ARCHITECT, DEPUTY})
              && (to == REVOKED ==> steps[i].actor in {ARCHITECT, DEPUTY, INTEGRATION_GOVERNOR})
  {
    hide Inv, Next, Validate;
    var s := Run(vault, steps[..i]);
    assert steps[..i + 1][..i] == steps[..i];
    RunInv(vault, steps[..i]);
    StatusStep(s, steps[i], t);
    if steps[i].DoTransition? { PermittedIff(s.tools[t].status, steps[i].to, steps[i].actor); }
  }

  lemma StatusStep(s: State, step: Step, t: Id)
    requires Inv(s) && t in s.tools
    ensures t in Next(s, step).tools
    ensures if step.DoTransition? && step.t == t && Validate(s.tools[t].status, step.to, step.actor).Permitted?
            then Next(s, step).tools[t] == s.tools[t].(status := step.to) else Next(s, step).tools[t] == s.tools[t]
  {
    hide TracesOk, BindingsOk, Validate;
  }

  /** No tool is beyond proposed, and no agent is bound. */
  ghost predicate Unreviewed(s: State) {
    s.bindings == map[] && forall t :: t in s.tools ==> s.tools[t].status in {DISCOVERED, PROPOSED}
  }

  /** A run in which only the Oracle and the system move tools leaves every tool discovered or proposed, and
    * binds nothing. */
  lemma {:induction false} OracleAloneBindsNothing(vault: Option<int>, steps: seq<Step>)
    requires forall i :: 0 <= i < |steps| && steps[i].DoTransition? ==> steps[i].actor in {ORACLE, SYSTEM}
    ensures Unreviewed(Run(vault, steps))
  {
    hide Next, Unreviewed;
    if steps == [] {
      NothingReviewed(vault);
    } else {
      var n := |steps| - 1;
      OracleAloneBindsNothing(vault, steps[..n]);
      StaysUnreviewed(Run(vault, steps[..n]), steps[n]);
    }
  }

  lemma NothingReviewed(vault: Option<int>)
    ensures Unreviewed(Init(vault))
  {}

  lemma StaysUnreviewed(s: State, step: Step)
    requires Unreviewed(s) && (step.DoTransition? ==> step.actor in {ORACLE, SYSTEM})
    ensures Unreviewed(Next(s, step))
  {
    hide Validate;
    if step.DoTransition? && step.t in s.tools { PermittedIff(s.tools[step.t].status, step.to, step.actor); }
    if step.DoAssign? && step.tool in s.tools { assert s.tools[step.tool].status in {DISCOVERED, PROPOSED}; }
  }

  // --- what is bound, registered and unbound ----------------------------------------------------------------------

  /** An assignment is accepted exactly for the product's own agent, an approved or enabled tool, a vault if
    * there is a credential to keep, and no binding of the three yet; it then adds that binding. */
  lemma AssignsIff(s: State, product: string, agent: Id, tool: Id, credential: Option<string>)
    requires Inv(s)
    ensures var s' := Assign(s, product, agent, tool, credential);
            if agent in s.agents && s.agents[agent] == product
               && tool in s.tools && s.tools[tool].status in {APPROVED, ENABLED}
               && (credential.Some? ==> s.vault.Some?)
               && (forall b :: b in s.bindings ==>
                     s.bindings[b].tool != tool || s.bindings[b].agent != agent || s.bindings[b].product != product)
            then s.next !in s.bindings && s.next in s'.bindings
                 && s'.bindings == s.bindings[s.next := s'.bindings[s.next]]
                 && s'.bindings[s.next].tool == tool && s'.bindings[s.next].agent == agent
                 && s'.bindings[s.next].product == product
                 && AssignRefusal(s, product, agent, tool, credential) == None
            else s' == s && AssignRefusal(s, product, agent, tool, credential).Some?
  {
    hide Inv;
    NextUnused(s);
  }

  /** Over every run: a binding goes back to the assignment that made it, with its agent, tool, product and
    * credential. */
  lemma {:induction false} BindingWasAssigned(vault: Option<int>, steps: seq<Step>, b: Id) returns (i: nat)
    requires b in Run(vault, steps).bindings
    ensures i < |steps| && Run(vault, steps[..i]).next == b
    ensures var s := Run(vault, steps);
            b in s.given
            && steps[i] == DoAssign(s.bindings[b].product, s.bindings[b].agent, s.bindings[b].tool, s.given[b])
  {
    hide Inv, Next;
    var n := |steps| - 1;
    var s := Run(vault, steps[..n]);
    RunInv(vault, steps[..n]);
    BindingStep(s, steps[n], b);
    if b in s.bindings {
      i := BindingWasAssigned(vault, steps[..n], b);
      assert steps[..n][..i] == steps[..i];
    } else {
      i := n;
    }
  }

  lemma BindingStep(s: State, step: Step, b: Id)
    requires Inv(s) && b in Next(s, step).bindings
    ensures var s' := Next(s, step);
            b in s'.given
            && if b in s.bindings then s'.bindings[b] == s.bindings[b] && b in s.given && s'.given[b] == s.given[b]
               else b == s.next
                    && step == DoAssign(s'.bindings[b].product, s'.bindings[b].agent, s'.bindings[b].tool, s'.given[b])
  {
    hide TracesOk, AssignRefusal;
    NextUnused(s);
  }

  /** A name is taken once; a new tool is discovered, with the product it was registered for. */
  lemma RegistersIff(s: State, name: string, product: Option<string>)
    ensures var s' := Register(s, name, product);
            if forall t :: t in s.tools ==> s.tools[t].name != name
            then s'.tools == s.tools[s.next := Tool(name, DISCOVERED, product)] && s'.bindings == s.bindings
            else s' == s
  {}

  /** A binding is removed exactly by the product it serves, and no other with it. */
  lemma UnbindsIff(s: State, b: Id, product: string)
    ensures var s' := RevokeBinding(s, b, product);
            s'.tools == s.tools && s'.agents == s.agents
            && s'.bindings == if b in s.bindings && s.bindings[b].product == product then s.bindings - {b}
                              else s.bindings
  {}

  // --- a promise the code does not keep: private tools ------------------------------------------------------------

  /** What the table's documentation says of a tool with a product: only that product binds it. */
  ghost predicate PrivateRespected(s: State) {
    forall b :: b in s.bindings && s.bindings[b].tool in s.tools && s.tools[s.bindings[b].tool].product.Some? ==>
      s.tools[s.bindings[b].tool].product.value == s.bindings[b].product
  }

  /** A step keeps private tools private exactly when it is not an accepted assignment of another
    * product's private tool: `assign_tool` does not look at the tool's product. */
  lemma PrivateKeptIff(s: State, step: Step)
    requires Inv(s) && PrivateRespected(s)
    ensures PrivateRespected(Next(s, step)) <==>
      !(step.DoAssign? && AssignRefusal(s, step.product, step.agent, step.tool, step.credential).None?
        && s.tools[step.tool].product.Some? && s.tools[step.tool].product.value != step.product)
  {
    hide Inv;
    NextUnused(s);
    if step.DoAssign? && AssignRefusal(s, step.product, step.agent, step.tool, step.credential).None? {
      assert s.next in Next(s, step).bindings;
    }
  }

  lemma NextUnused(s: State)
    requires Inv(s)
    ensures s.next !in s.bindings && s.next !in s.tools
    ensures forall b :: b in s.bindings ==> s.bindings[b].tool in s.tools
  {
    forall b | b in s.bindings ensures b < s.next && s.bindings[b].tool in s.tools {
      assert BindingOk(s, b, s.bindings[b]);
    }
  }

  lemma RunSnoc(vault: Option<int>, steps: seq<Step>, step: Step)
    ensures Run(vault, steps + [step]) == Next(Run(vault, steps), step)
  {
    assert (steps + [step])[..|steps|] == steps;
  }

  const AGENT_OF_B := DoCreateAgent("B")
  const TOOL_OF_A := DoRegister("zap", Some("A"))

  lemma ToolOfARegistered()
    ensures var s := Run(None, [AGENT_OF_B, TOOL_OF_A]);
            && s.tools == map[1 := Tool("zap", DISCOVERED, Some("A"))] && s.agents == map[0 := "B"]
            && s.bindings == map[] && s.next == 2 && 1 in s.trace
  {
    RunSnoc(None, [], AGENT_OF_B);
    RunSnoc(None, [AGENT_OF_B], TOOL_OF_A);
    assert [] + [AGENT_OF_B] == [AGENT_OF_B] && [AGENT_OF_B] + [TOOL_OF_A] == [AGENT_OF_B, TOOL_OF_A];
  }

  lemma ToolOfAApproved()
    ensures var s := Run(None, [AGENT_OF_B, TOOL_OF_A, DoTransition(1, PROPOSED, ORACLE),
                                DoTransition(1, REVIEWED, LAWYER), DoTransition(1, APPROVED, DEPUTY)]);
            && s.tools == map[1 := Tool("zap", APPROVED, Some("A"))] && s.agents == map[0 := "B"]
            && s.bindings == map[] && s.next == 2
  {
    hide Next;
    var p, v, o := DoTransition(1, PROPOSED, ORACLE), DoTransition(1, REVIEWED, LAWYER),
      DoTransition(1, APPROVED, DEPUTY);
    var two := [AGENT_OF_B, TOOL_OF_A];
    ToolOfARegistered();
    RunSnoc(None, two, p);
    RunSnoc(None, two + [p], v);
    RunSnoc(None, two + [p] + [v], o);
    assert two + [p] + [v] + [o] == [AGENT_OF_B, TOOL_OF_A, p, v, o];
    Promotes(Run(None, two), PROPOSED, ORACLE);
    Promotes(Run(None, two + [p]), REVIEWED, LAWYER);
    Promotes(Run(None, two + [p] + [v]), APPROVED, DEPUTY);
  }

  lemma Promotes(s: State, to: Status, actor: Authority)
    requires s.tools.Keys == {1} && 1 in s.trace && Validate(s.tools[1].status, to, actor).Permitted?
    ensures var s' := Next(s, DoTransition(1, to, actor));
            && s'.tools == map[1 := s.tools[1].(status := to)] && s'.agents == s.agents && s'.bindings == s.bindings
            && s'.next == s.next && 1 in s'.trace
  {}

  /** Product B binds an agent to a tool registered as private to product A. */
  lemma ForeignProductBindsPrivateTool()
    ensures !PrivateRespected(Run(None, [AGENT_OF_B, TOOL_OF_A, DoTransition(1, PROPOSED, ORACLE),
      DoTransition(1, REVIEWED, LAWYER), DoTransition(1, APPROVED, DEPUTY), DoAssign("B", 0, 1, None)]))
  {
    ToolOfAApproved();
    var five := [AGENT_OF_B, TOOL_OF_A, DoTransition(1, PROPOSED, ORACLE), DoTransition(1, REVIEWED, LAWYER),
                 DoTransition(1, APPROVED, DEPUTY)];
    RunSnoc(None, five, DoAssign("B", 0, 1, None));
    assert five + [DoAssign("B", 0, 1, None)] == [AGENT_OF_B, TOOL_OF_A, DoTransition(1, PROPOSED, ORACLE),
      DoTransition(1, REVIEWED, LAWYER), DoTransition(1, APPROVED, DEPUTY), DoAssign("B", 0, 1, None)];
    assert 2 in Assign(Run(None, five), "B", 0, 1, None).bindings;
  }
}
