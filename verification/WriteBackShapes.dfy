/** What the handlers that start external calls can do, each branch named once: nothing, ask for a
  * write, begin one call, or close a request. */
module WriteBackShapes {
  import opened Options
  import opened Records
  import opened WriteBack

  datatype Shape =
    | Idle
    | Asking(who: string, desk: Id, tool: Id, key: string, action: string, params: Payload)
    | Calling(o: Origin, key: string, action: string, params: Payload, w: Await)
    | Closing(row: Request, out: Outcome)

  /** From s to s' exactly this was done. */
  ghost predicate Fits(s: State, s': State, sh: Shape) {
    match sh
    case Idle => s' == s
    case Asking(who, desk, tool, key, action, params) => s' == RequestWrite(s, who, desk, tool, key, action, params)
    case Calling(o, key, action, params, w) => Begins(s, s', o, key, action, params, w)
    case Closing(row, out) => s' == Close(s, row, out)
  }

  lemma StartedAs(s: State, st: Start, o: Origin, key: string, action: string, params: Payload, w: Await)
    returns (sh: Shape)
    requires st.Started? ==> Begins(s, st.state, o, key, action, params, w)
    ensures Fits(s, StateOf(s, st), sh) && (sh == Idle || sh == Calling(o, key, action, params, w))
  {
    hide Begins;
    sh := if st.Started? then Calling(o, key, action, params, w) else Idle;
  }

  // --- invoke ---------------------------------------------------------------------------------

  /** What an invocation through this tool may do: ask for the write, write directly where the action and
    * the policy allow it, or read. */
  ghost predicate InvokeMay(s: State, who: string, tool: Id, action: string, params: Payload, sh: Shape)
    requires tool in s.tools
  {
    var t := s.tools[tool];
    match sh
    case Idle => true
    case Asking(_, _, _, _, _, _) => sh == Asking(who, t.desk, tool, t.key, action, params)
    case Closing(_, _) => false
    case Calling(o, key, a, p, w) =>
      a == action && p == params && w.AwaitUse? && w.who == who && w.desk == t.desk
      && if o.DirectWrite? then key == t.key && DirectAllowed(s, key, action)
         else o.ReadUse? && (key == "custom" || (key == t.key && !DeclaredWrite(s.dep, key, action)))
  }

  predicate DirectAllowed(s: State, key: string, action: string) {
    DeclaredWrite(s.dep, key, action) && ActionOf(s.dep, key, action).value.direct && !s.policy.requireApproval
  }

  lemma InvokeSpecShape(s: State, who: string, tool: Id, action: string, params: Payload) returns (sh: Shape)
    requires tool in s.tools
    ensures Fits(s, InvokeSpec(s, who, tool, action, params), sh) && InvokeMay(s, who, tool, action, params, sh)
  {
    hide Begins, BridgeStart, CloudWrite, OwnCall, StateOf, RequestWrite, ActionOf;
    var t := s.tools[tool];
    var w, w' := AwaitUse(who, t.desk, false), AwaitUse(who, t.desk, true);
    if DeclaredWrite(s.dep, t.key, action) {
      if !DirectAllowed(s, t.key, action) { return Asking(who, t.desk, tool, t.key, action, params); }
      sh := StartedAs(s, CloudWrite(s, DirectWrite(who), t.key, action, params, w'), DirectWrite(who), t.key, action,
                      params, w');
    } else if t.key in s.dep.cloudApps && action in s.dep.cloudApps[t.key].readable {
      sh := Calling(ReadUse(who), t.key, action, params, w);
    } else if action != "list" && action != "open" {
      sh := Idle;
    } else if t.bridge.Some? {
      sh := StartedAs(s, BridgeStart(s, ReadUse(who), t.bridge.value, "custom", action, params, w), ReadUse(who),
                      "custom", action, params, w);
    } else {
      sh := Calling(ReadUse(who), "custom", action, params, w);
    }
  }

  lemma InvokeCatalogShape(s: State, who: string, tool: Id, action: string, params: Payload) returns (sh: Shape)
    requires tool in s.tools
    ensures Fits(s, InvokeCatalog(s, who, tool, action, params), sh) && InvokeMay(s, who, tool, action, params, sh)
  {
    hide Begins, RunTool, StateOf, RequestWrite;
    var t := s.tools[tool];
    var w := AwaitUse(who, t.desk, false);
    var act := ActionOf(s.dep, t.key, action);
    if act.None? { return Idle; }
    if act.value.access.Write? && !DirectAllowed(s, t.key, action) {
      return Asking(who, t.desk, tool, t.key, action, params);
    }
    var c := s.dep.connectors[t.key];
    if (c.needsAuth && !t.signedIn) || (!c.needsAuth && t.bridge.None? && !c.enabled) { return Idle; }
    var o := if act.value.access.Write? then DirectWrite(who) else ReadUse(who);
    sh := StartedAs(s, RunTool(s, o, t, action, params, w), o, t.key, action, params, w);
  }

  /** An invocation does anything only for the owner of the desk, on a tool of that desk, with the switch
    * off. */
  lemma InvokeShape(s: State, who: string, desk: Id, tool: Id, action: string, params: Payload) returns (sh: Shape)
    ensures Fits(s, Invoke(s, who, desk, tool, action, params), sh)
    ensures !sh.Idle? ==>
              Owns(s.dep, who, desk) && !s.halted && tool in s.tools && s.tools[tool].desk == desk
              && InvokeMay(s, who, tool, action, params, sh)
  {
    hide InvokeSpec, InvokeCatalog, InvokeMay, Owns;
    if !Owns(s.dep, who, desk) || s.halted || tool !in s.tools || s.tools[tool].desk != desk { return Idle; }
    if s.tools[tool].spec {
      sh := InvokeSpecShape(s, who, tool, action, params);
    } else {
      sh := InvokeCatalogShape(s, who, tool, action, params);
    }
  }

  // --- settling -------------------------------------------------------------------------------

  /** What a settlement of this copy may do: nothing without an approved gate record, else begin exactly
    * the call it asks for or close the request as failed. */
  ghost predicate SettleMay(s: State, row: Request, sh: Shape) {
    match sh
    case Idle => !Approved(s, row.id)
    case Asking(_, _, _, _, _, _) => false
    case Closing(closed, out) => Approved(s, row.id) && closed == row && out.Raised?
    case Calling(o, key, action, params, w) =>
      Approved(s, row.id) && !s.halted && row.tool in s.tools
      && sh == Calling(Settlement(row.id), s.tools[row.tool].key, row.action, row.params, AwaitSettle(row))
  }

  lemma SettleShape(s: State, row: Request) returns (sh: Shape)
    ensures Fits(s, Settle(s, row), sh) && SettleMay(s, row, sh)
  {
    hide Begins, RunTool, Close;
    if !Approved(s, row.id) { return Idle; }
    if s.halted { return Closing(row, Raised(AutonomyHalted)); }
    if row.tool !in s.tools || row.key !in s.dep.connectors { return Closing(row, Raised(NoLongerAvailable)); }
    match RunTool(s, Settlement(row.id), s.tools[row.tool], row.action, row.params, AwaitSettle(row))
    case Refused(why) => sh := Closing(row, Raised(why));
    case Started(_) =>
      sh := Calling(Settlement(row.id), s.tools[row.tool].key, row.action, row.params, AwaitSettle(row));
  }

  // --- calls of the service's own -----------------------------------------------------------------

  /** Terminal, host listing, spec preview and sign-in. */
  predicate OwnStep(d: DeskStep) { d.DoTerminalExec? || d.DoTerminalHosts? || d.DoTestSpec? || d.DoCompleteOAuth? }

  ghost predicate OwnMay(s: State, d: DeskStep, sh: Shape) {
    sh.Idle?
    || (sh.Calling?
        && match d
           case DoTerminalExec(who, desk, _, _, _) =>
             !s.halted && sh.o == Terminal(who) && sh.key == "ssh" && sh.w == AwaitTerminal(who, desk)
           case DoTerminalHosts(who, _, _) => sh.o == Diagnostic(who) && sh.key == "ssh" && sh.w == AwaitNothing
           case DoTestSpec(who, _, _) => sh.o == Diagnostic(who) && sh.key == "custom" && sh.w == AwaitNothing
           case DoCompleteOAuth(tool) =>
             tool in s.tools && SignsIn(s.dep, s.tools[tool]) && sh.o == SignIn(s.tools[tool].owner)
             && sh.key == "oauth" && sh.w == AwaitToken(tool, s.tools[tool])
           case _ => false)
  }

  lemma OwnShape(s: State, d: DeskStep) returns (sh: Shape)
    requires OwnStep(d)
    ensures Fits(s, DeskNext(s, d), sh) && OwnMay(s, d, sh)
  {
    hide Begins, BridgeStart, OwnCall, StateOf, SignsIn, Owns;
    match d
    case DoTerminalExec(who, desk, b, safe, params) =>
      if !Owns(s.dep, who, desk) || s.policy.blockTerminal || !safe || s.halted { return Idle; }
      sh := StartedAs(s, BridgeStart(s, Terminal(who), b, "ssh", "exec", params, AwaitTerminal(who, desk)),
                      Terminal(who), "ssh", "exec", params, AwaitTerminal(who, desk));
    case DoTerminalHosts(who, desk, b) =>
      if !Owns(s.dep, who, desk) { return Idle; }
      sh := StartedAs(s, BridgeStart(s, Diagnostic(who), b, "ssh", "hosts", map[], AwaitNothing),
                      Diagnostic(who), "ssh", "hosts", map[], AwaitNothing);
    case DoTestSpec(who, desk, via) =>
      if !Owns(s.dep, who, desk) { return Idle; }
      if via.None? { return Calling(Diagnostic(who), "custom", "list", map[], AwaitNothing); }
      sh := StartedAs(s, BridgeStart(s, Diagnostic(who), via.value, "custom", "list", map[], AwaitNothing),
                      Diagnostic(who), "custom", "list", map[], AwaitNothing);
    case DoCompleteOAuth(tool) =>
      if tool !in s.tools || !SignsIn(s.dep, s.tools[tool]) { return Idle; }
      sh := Calling(SignIn(s.tools[tool].owner), "oauth", "exchange", map[], AwaitToken(tool, s.tools[tool]));
  }
}
