/** The integration facade over its two tables, updated in place. */
module IntegrationService {
  import opened Options
  import G = ToolGovernance

  datatype Registered = Registered(tool: G.Id) | NameTaken

  class Service {
    const vault: Option<int>
    var agents: map<G.Id, string>
    var tools: map<G.Id, G.Tool>
    var bindings: map<G.Id, G.Binding>
    var next: G.Id
    ghost var trace: map<G.Id, seq<G.Status>>
    ghost var given: map<G.Id, Option<string>>

    ghost function Abs(): G.State
      reads this
    {
      G.State(vault, agents, tools, bindings, next, trace, given)
    }

    ghost predicate Valid()
      reads this
    {
      G.Inv(Abs())
    }

    constructor (vault: Option<int>)
      ensures Valid() && Abs() == G.Init(vault)
    {
      this.vault := vault;
      agents, tools, bindings, next, trace, given := map[], map[], map[], 0, map[], map[];
    }

    method CreateAgent(product: string) returns (agent: G.Id)
      requires Valid()
      modifies this
      ensures Valid() && Abs() == G.Next(old(Abs()), G.DoCreateAgent(product))
    {
      ghost var before := Abs();
      agent := next;
      agents := agents[agent := product];
      next := next + 1;
      G.InvKept(before, G.DoCreateAgent(product));
    }

    method RegisterTool(name: string, product: Option<string>) returns (r: Registered)
      requires Valid()
      modifies this
      ensures Valid() && Abs() == G.Register(old(Abs()), name, product)
      ensures r.NameTaken? <==> exists t :: t in old(tools) && old(tools)[t].name == name
    {
      hide G.Inv;
      if exists t :: t in tools && tools[t].name == name { return NameTaken; }
      ghost var before := Abs();
      r := Registered(next);
      tools := tools[next := G.Tool(name, G.DISCOVERED, product)];
      trace := trace[next := [G.DISCOVERED]];
      next := next + 1;
      G.InvKept(before, G.DoRegister(name, product));
    }

    /** None when the tool is not in the catalogue. */
    method TransitionStatus(t: G.Id, to: G.Status, actor: G.Authority) returns (v: Option<G.Verdict>)
      requires Valid()
      modifies this
      ensures Valid() && Abs() == G.Transition(old(Abs()), t, to, actor)
      ensures v == if t in old(tools) then Some(G.Validate(old(tools)[t].status, to, actor)) else None
      ensures v == Some(G.Permitted) ==>
                t in tools && tools == old(tools)[t := old(tools)[t].(status := to)]
                && (to in {G.APPROVED, G.ENABLED, G.DISABLED} ==>
                      actor in {G.ARCHITECT, G.DEPUTY, G.INTEGRATION_GOVERNOR})
      ensures v != Some(G.Permitted) ==> tools == old(tools)
    {
      hide G.Inv, G.Validate, G.Trace;
      if t in tools { G.PermittedIff(tools[t].status, to, actor); }
      if t !in tools { return None; }
      var verdict := G.Validate(tools[t].status, to, actor);
      if verdict.Permitted? {
        ghost var before := Abs();
        tools := tools[t := tools[t].(status := to)];
        trace := trace[t := G.Trace(trace, t) + [to]];
        G.InvKept(before, G.DoTransition(t, to, actor));
      }
      v := Some(verdict);
    }

    method AssignTool(product: string, agent: G.Id, tool: G.Id, credential: Option<string>)
      returns (why: Option<G.Refusal>)
      requires Valid()
      modifies this
      ensures Valid() && Abs() == G.Assign(old(Abs()), product, agent, tool, credential)
      ensures why == G.AssignRefusal(old(Abs()), product, agent, tool, credential)
    {
      hide G.Inv;
      if agent !in agents || agents[agent] != product { return Some(G.IsolationViolation); }
      if tool !in tools { return Some(G.ToolNotFound); }
      if tools[tool].status != G.APPROVED && tools[tool].status != G.ENABLED { return Some(G.NotApproved); }
      var ref: Option<G.Sealed> := None;
      if credential.Some? {
        if vault.None? { return Some(G.NoVault); }
        ref := Some(G.Sealed(vault.value, product, next, credential.value));
      }
      // the unique constraint on (tool, agent, product)
      if exists b :: b in bindings && bindings[b].tool == tool && bindings[b].agent == agent
                         && bindings[b].product == product {
        return Some(G.Duplicate);
      }
      ghost var before := Abs();
      bindings := bindings[next := G.Binding(tool, agent, product, ref)];
      given := given[next := credential];
      next := next + 1;
      G.InvKept(before, G.DoAssign(product, agent, tool, credential));
      why := None;
    }

    method RevokeBinding(b: G.Id, product: string) returns (found: bool)
      requires Valid()
      modifies this
      ensures Valid() && Abs() == G.RevokeBinding(old(Abs()), b, product)
      ensures found <==> b in old(bindings) && old(bindings)[b].product == product
    {
      if b !in bindings || bindings[b].product != product { return false; }
      ghost var before := Abs();
      bindings := bindings - {b};
      G.InvKept(before, G.DoRevoke(b, product));
      found := true;
    }
  }
}
