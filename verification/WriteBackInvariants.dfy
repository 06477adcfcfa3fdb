/** What every step of the write-back protocol keeps. */
module WriteBackInvariants {
  import opened Options
  import opened Records
  import opened WriteBack
  import opened WriteBackShapes

  // --- the invariants, each over the tables it reads -------------------------------

  ghost predicate Below(ids: set<Id>, n: Id) { forall i :: i in ids ==> i < n }

  /** The parts of a row fixed when the write was requested. */
  ghost predicate SameAsk(a: Request, b: Request) {
    a.id == b.id && a.desk == b.desk && a.maker == b.maker && a.tool == b.tool
    && a.key == b.key && a.action == b.action && a.params == b.params
  }

  ghost predicate CopyOf(row: Request, reqs: map<Id, Request>) {
    row.id in reqs && SameAsk(row, reqs[row.id])
  }

  /** Until it is settled, a stored row names no approver. */
  predicate Unsigned(row: Request) { row.status.Pending? ==> row.approver.None? }

  ghost predicate RowsOk(reqs: map<Id, Request>) {
    forall r :: r in reqs ==> reqs[r].id == r && Unsigned(reqs[r])
  }

  /** A tool, and a write requested through it, have the key the tool was connected with. */
  ghost predicate ToolsOk(tools: map<Id, Tool>, reqs: map<Id, Request>, keys: map<Id, string>) {
    && (forall t :: t in tools ==> t in keys && tools[t].key == keys[t])
    && (forall r :: r in reqs ==> reqs[r].tool in keys && reqs[r].key == keys[reqs[r].tool])
  }

  ghost predicate GatesOk(gate: map<Id, Gate>, reqs: map<Id, Request>) {
    && gate.Keys == reqs.Keys
    && forall r :: r in reqs && gate[r].status.GateApproved? ==>
         gate[r].approver.Some? && gate[r].approver.value != reqs[r].maker
  }

  ghost predicate AwaitOk(w: Await, reqs: map<Id, Request>) { w.AwaitSettle? ==> CopyOf(w.row, reqs) }

  /** A sign-in saves a row with the tool's own key. */
  ghost predicate TokenOk(w: Await, keys: map<Id, string>) {
    w.AwaitToken? ==> w.tool in keys && w.asked.key == keys[w.tool]
  }

  ghost predicate OpenOk(open: map<nat, Await>, reqs: map<Id, Request>) {
    forall c :: c in open ==> AwaitOk(open[c], reqs)
  }

  ghost predicate TokensOk(open: map<nat, Await>, keys: map<Id, string>) {
    forall c :: c in open ==> TokenOk(open[c], keys)
  }

  ghost predicate CopiesOk(rows: seq<Request>, reqs: map<Id, Request>) {
    forall row :: row in rows ==> CopyOf(row, reqs) && Unsigned(row)
  }

  ghost predicate PollsOk(polls: map<Id, Poll>, reqs: map<Id, Request>) {
    forall p :: p in polls ==> CopiesOk(polls[p].rows, reqs)
  }

  /** What an external call may look like, by why it was started. */
  ghost predicate CallOk(dep: Deployment, c: Call, reqs: map<Id, Request>) {
    match c.origin
    case Settlement(r) =>
      !c.halted && r in reqs && c.approver.Some? && c.approver.value != reqs[r].maker
      && c.key == reqs[r].key && c.action == reqs[r].action && c.params == reqs[r].params
    case DirectWrite(_) =>
      !c.halted && !c.forced && DeclaredWrite(dep, c.key, c.action) && ActionOf(dep, c.key, c.action).value.direct
    case ReadUse(_) => !c.halted && (c.key == "custom" || !DeclaredWrite(dep, c.key, c.action))
    case Terminal(_) => !c.halted && c.key == "ssh"
    case Diagnostic(_) => c.key == "ssh" || c.key == "custom"
    case SignIn(_) => c.key == "oauth"
  }

  ghost predicate CallsOk(dep: Deployment, calls: seq<Call>, reqs: map<Id, Request>) {
    forall c :: 0 <= c < |calls| ==> CallOk(dep, calls[c], reqs)
  }

  ghost predicate Basic(s: State) {
    && Below(s.keys.Keys, s.next) && Below(s.reqs.Keys, s.next)
    && RowsOk(s.reqs)
    && ToolsOk(s.tools, s.reqs, s.keys)
    && TokensOk(s.open, s.keys)
    && GatesOk(s.gate, s.reqs)
    && OpenOk(s.open, s.reqs)
    && PollsOk(s.polls, s.reqs)
    && CallsOk(s.dep, s.calls, s.reqs)
  }

  // --- the request table only grows, and what a row asks for never changes ---------------

  ghost predicate Extends(reqs: map<Id, Request>, reqs': map<Id, Request>) {
    forall r :: r in reqs ==> r in reqs' && SameAsk(reqs[r], reqs'[r])
  }

  lemma CopiesExtend(rows: seq<Request>, reqs: map<Id, Request>, reqs': map<Id, Request>)
    requires CopiesOk(rows, reqs) && Extends(reqs, reqs')
    ensures CopiesOk(rows, reqs')
  {}

  lemma TablesExtend(s: State, reqs': map<Id, Request>)
    requires OpenOk(s.open, s.reqs) && PollsOk(s.polls, s.reqs) && CallsOk(s.dep, s.calls, s.reqs)
    requires Extends(s.reqs, reqs')
    ensures OpenOk(s.open, reqs') && PollsOk(s.polls, reqs') && CallsOk(s.dep, s.calls, reqs')
  {
    forall p | p in s.polls ensures CopiesOk(s.polls[p].rows, reqs') {
      CopiesExtend(s.polls[p].rows, s.reqs, reqs');
    }
  }

  lemma CloseBasic(s: State, row: Request, out: Outcome)
    requires Basic(s) && CopyOf(row, s.reqs)
    ensures Basic(Close(s, row, out))
  {
    hide RowsOk, ToolsOk, GatesOk, OpenOk, PollsOk, CallsOk, Extends;
    var s' := Close(s, row, out);
    ClosedRows(s, row, s'.reqs[row.id]);
    TablesExtend(s, s'.reqs);
  }

  /** Storing a settled copy keeps what speaks of the request table. */
  lemma ClosedRows(s: State, row: Request, stored: Request)
    requires RowsOk(s.reqs) && ToolsOk(s.tools, s.reqs, s.keys) && GatesOk(s.gate, s.reqs)
    requires CopyOf(row, s.reqs) && SameAsk(row, stored) && !stored.status.Pending?
    ensures var reqs' := s.reqs[row.id := stored];
            reqs'.Keys == s.reqs.Keys && Extends(s.reqs, reqs') && RowsOk(reqs')
            && ToolsOk(s.tools, reqs', s.keys) && GatesOk(s.gate, reqs')
  {}

  lemma RequestWriteBasic(s: State, who: string, desk: Id, tool: Id, key: string, action: string, params: Payload)
    requires Basic(s) && tool in s.tools && key == s.tools[tool].key
    ensures Basic(RequestWrite(s, who, desk, tool, key, action, params))
  {
    var s' := RequestWrite(s, who, desk, tool, key, action, params);
    assert s.next !in s.reqs;
    TablesExtend(s, s'.reqs);
  }

  lemma BeginsBasic(s: State, s': State, o: Origin, key: string, action: string, params: Payload, w: Await)
    requires Basic(s) && Begins(s, s', o, key, action, params, w) && AwaitOk(w, s.reqs) && TokenOk(w, s.keys)
    requires forall ch :: CallOk(s.dep, MakeCall(s, o, key, action, params, ch), s.reqs)
    ensures Basic(s')
  {
    hide AwaitOk, TokenOk, CallOk, RowsOk, ToolsOk, GatesOk, PollsOk;
    assert s'.calls == s.calls + [s'.calls[|s.calls|]];
  }

  /** What a handler may do without breaking the invariants: ask under the tool's own key, begin a call its
    * origin allows, close a faithful copy. */
  ghost predicate Sound(s: State, sh: Shape) {
    match sh
    case Idle => true
    case Asking(_, _, tool, key, _, _) => tool in s.tools && key == s.tools[tool].key
    case Calling(o, key, action, params, w) =>
      AwaitOk(w, s.reqs) && TokenOk(w, s.keys)
      && forall ch :: CallOk(s.dep, MakeCall(s, o, key, action, params, ch), s.reqs)
    case Closing(row, _) => CopyOf(row, s.reqs)
  }

  lemma FitsBasic(s: State, s': State, sh: Shape)
    requires Basic(s) && Fits(s, s', sh) && Sound(s, sh)
    ensures Basic(s')
  {
    hide Basic, Begins, RequestWrite, Close, CallOk, AwaitOk, TokenOk, CopyOf;
    match sh
    case Idle =>
    case Asking(who, desk, tool, key, action, params) => RequestWriteBasic(s, who, desk, tool, key, action, params);
    case Calling(o, key, action, params, w) => BeginsBasic(s, s', o, key, action, params, w);
    case Closing(row, out) => CloseBasic(s, row, out);
  }

  lemma InvokeIsSound(s: State, who: string, tool: Id, action: string, params: Payload, sh: Shape)
    requires Basic(s) && !s.halted && tool in s.tools && InvokeMay(s, who, tool, action, params, sh)
    ensures Sound(s, sh)
  {
    hide Basic;
  }

  /** The gate was approved by someone else, and the copy asks for what was requested. */
  lemma SettleIsSound(s: State, row: Request, sh: Shape)
    requires Basic(s) && CopyOf(row, s.reqs) && SettleMay(s, row, sh)
    ensures Sound(s, sh)
  {
    hide PollsOk, CallsOk, OpenOk, TokensOk;
  }

  lemma OwnIsSound(s: State, d: DeskStep, sh: Shape)
    requires Basic(s) && OwnMay(s, d, sh)
    ensures Sound(s, sh)
  {
    hide PollsOk, CallsOk, OpenOk, TokensOk, GatesOk;
  }

  lemma InvokeBasic(s: State, who: string, desk: Id, tool: Id, action: string, params: Payload)
    requires Basic(s)
    ensures Basic(Invoke(s, who, desk, tool, action, params))
  {
    hide Basic, Invoke, Fits, InvokeMay, Sound;
    var sh := InvokeShape(s, who, desk, tool, action, params);
    if sh.Idle? { IdleIsSound(s); } else { InvokeIsSound(s, who, tool, action, params, sh); }
    FitsBasic(s, Invoke(s, who, desk, tool, action, params), sh);
  }

  lemma IdleIsSound(s: State)
    ensures Sound(s, Idle)
  {}

  /** A settlement on a faithful copy of a row. */
  lemma SettleBasic(s: State, row: Request)
    requires Basic(s) && CopyOf(row, s.reqs)
    ensures Basic(Settle(s, row))
  {
    hide Basic, Settle, Fits, SettleMay, Sound;
    var sh := SettleShape(s, row);
    SettleIsSound(s, row, sh);
    FitsBasic(s, Settle(s, row), sh);
  }

  lemma OwnBasic(s: State, d: DeskStep)
    requires Basic(s) && OwnStep(d)
    ensures Basic(DeskNext(s, d))
  {
    hide Basic, DeskNext, Fits, OwnMay, Sound;
    var sh := OwnShape(s, d);
    OwnIsSound(s, d, sh);
    FitsBasic(s, DeskNext(s, d), sh);
  }

  lemma ApproveGateBasic(s: State, r: Id, approver: string)
    requires Basic(s) && r in s.reqs && approver != s.reqs[r].maker
    ensures Basic(ApproveGate(s, r, approver))
  {
    assert GatesOk(ApproveGate(s, r, approver).gate, s.reqs);
  }

  lemma RejectBasic(s: State, r: Id, approver: string, reason: string)
    requires Basic(s) && r in s.reqs
    ensures Basic(Reject(s, s.reqs[r], approver, reason))
  {
    var s' := Reject(s, s.reqs[r], approver, reason);
    TablesExtend(s, s'.reqs);
    assert GatesOk(s'.gate, s'.reqs);
    assert ToolsOk(s'.tools, s'.reqs, s'.keys);
  }

  lemma DecideBasic(s: State, approver: string, r: Id, approve: bool, reason: string, stop: bool)
    requires Basic(s)
    ensures Basic(Decide(s, approver, r, approve, reason, stop))
  {
    if r in s.reqs && s.reqs[r].status.Pending? {
      if !approve {
        RejectBasic(s, r, approver, reason);
      } else if approver != s.reqs[r].maker {
        ApproveGateBasic(s, r, approver);
        SettleBasic(ApproveGate(s, r, approver), s.reqs[r].(approver := Some(approver)));
      }
    }
  }

  lemma RowsOfCopies(reqs: map<Id, Request>, desk: Id, upto: Id)
    requires RowsOk(reqs)
    ensures CopiesOk(RowsOf(reqs, desk, upto), reqs)
  {}

  lemma PollBasic(s: State, p: Id, poll: Poll)
    requires Basic(s) && CopiesOk(poll.rows, s.reqs)
    ensures Basic(s.(polls := s.polls[p := poll]))
    ensures Basic(s.(polls := s.polls[p := poll], next := s.next + 1))
  {
    assert PollsOk(s.polls[p := poll], s.reqs);
  }

  lemma PollNextBasic(s: State, p: Id)
    requires Basic(s)
    ensures Basic(PollNext(s, p))
  {
    if PollReady(s, p) {
      var row := s.polls[p].rows[0];
      assert CopyOf(row, s.reqs);
      var s1 := if row.status.Pending? then Settle(s, row) else s;
      SettleBasic(s, row);
      assert CopiesOk(s1.polls[p].rows[1..], s1.reqs);
      PollBasic(s1, p, PollNext(s, p).polls[p]);
    }
  }

  lemma ReopenBasic(s: State, c: nat)
    requires Basic(s)
    ensures Basic(s.(open := s.open - {c}))
  {
    assert TokensOk(s.open - {c}, s.keys);
    assert OpenOk(s.open - {c}, s.reqs);
  }

  lemma FinishBasic(s: State, w: Await, out: Outcome)
    requires Basic(s) && AwaitOk(w, s.reqs) && TokenOk(w, s.keys)
    ensures Basic(Finish(s, w, out))
  {
    if w.AwaitSettle? { CloseBasic(s, w.row, out); }
  }

  lemma ReturnBasic(s: State, c: nat, local: Outcome, timedOut: bool)
    requires Basic(s)
    ensures Basic(Return(s, c, local, timedOut))
  {
    var out := OutcomeOf(s, c, local, timedOut);
    if out.Some? && c in s.open {
      ReopenBasic(s, c);
      FinishBasic(s.(open := s.open - {c}), s.open[c], out.value);
    }
  }

  lemma PollStartBasic(s: State, who: string, desk: Id)
    requires Basic(s)
    ensures Basic(PollStart(s, who, desk))
  {
    RowsOfCopies(s.reqs, desk, s.next);
    PollBasic(s, s.next, Poll(RowsOf(s.reqs, desk, s.next), None));
  }

  lemma ToolsBasic(s: State, s': State)
    requires Basic(s) && OnlyTools(s, s')
    ensures Basic(s')
  {
    assert ToolsOk(s'.tools, s'.reqs, s'.keys);
    assert TokensOk(s'.open, s'.keys);
  }

  lemma DeskBasic(s: State, step: DeskStep)
    requires Basic(s)
    ensures Basic(DeskNext(s, step))
  {
    hide Invoke, Decide, PollStart, PollNext, Return, TerminalExec, TerminalHosts, TestSpec, CompleteOAuth, Basic;
    match step
    case DoInvoke(who, desk, tool, action, params) => InvokeBasic(s, who, desk, tool, action, params);
    case DoDecide(approver, r, approve, reason, stop) => DecideBasic(s, approver, r, approve, reason, stop);
    case DoPollStart(who, desk) => PollStartBasic(s, who, desk);
    case DoPollNext(p) => PollNextBasic(s, p);
    case DoReturn(c, local, timedOut) => ReturnBasic(s, c, local, timedOut);
    case DoConnect(who, desk, key, bridge, spec, signedIn) =>
      ToolsBasic(s, Connect(s, who, desk, key, bridge, spec, signedIn));
    case DoDisconnect(who, desk, tool) => ToolsBasic(s, Disconnect(s, who, desk, tool));
    case _ => OwnBasic(s, step);
  }

  lemma BasicKept(s: State, step: Step)
    requires Basic(s)
    ensures Basic(Next(s, step))
  {
    hide DeskNext, BridgeNext, AdminNext;
    if step.AtDesk? { DeskBasic(s, step.d); }
  }
}
