/** The audit log against the stored rows, and how often a write request is settled. */
module WriteBackLedger {
  import opened Options
  import opened Records
  import opened WriteBack
  import opened WriteBackShapes
  import opened WriteBackInvariants

  // --- reading the log -----------------------------------------------------------------

  /** The status a write receipt announces. */
  function StatusOf(kind: Kind): Option<Status> {
    match kind
    case WriteRequested => Some(Pending)
    case WriteExecuted => Some(Executed)
    case WriteFailed => Some(Failed)
    case WriteRejected => Some(Rejected)
    case _ => None
  }

  predicate About(e: Event, r: Id) { e.request == Some(r) && StatusOf(e.kind).Some? }

  /** Fold the log by request id: the last receipt about r decides. */
  function Replay(log: seq<Event>, r: Id): Option<Status> {
    if log == [] then None
    else
      var e := log[|log| - 1];
      if About(e, r) then StatusOf(e.kind) else Replay(log[..|log| - 1], r)
  }

  function One(b: bool): nat { if b then 1 else 0 }

  /** How many `write_requested` receipts r has. */
  function Asked(log: seq<Event>, r: Id): nat {
    if log == [] then 0
    else Asked(log[..|log| - 1], r) + One(About(log[|log| - 1], r) && log[|log| - 1].kind.WriteRequested?)
  }

  /** How many executed, failed or rejected receipts r has. */
  function Settled(log: seq<Event>, r: Id): nat {
    if log == [] then 0
    else Settled(log[..|log| - 1], r) + One(About(log[|log| - 1], r) && !log[|log| - 1].kind.WriteRequested?)
  }

  /** How many external calls were started to settle r. */
  function CallsFor(calls: seq<Call>, r: Id): nat {
    if calls == [] then 0
    else CallsFor(calls[..|calls| - 1], r) + One(calls[|calls| - 1].origin == Settlement(r))
  }

  /** The settlements of r whose external call has not returned. */
  ghost function InFlight(open: map<nat, Await>, r: Id): set<nat> {
    set c | c in open && open[c].AwaitSettle? && open[c].row.id == r
  }

  /** Settlements of r, finished or under way. */
  ghost function Effects(log: seq<Event>, open: map<nat, Await>, r: Id): nat { Settled(log, r) + |InFlight(open, r)| }

  // --- the invariant ---------------------------------------------------------------------

  ghost predicate LogRow(log: seq<Event>, reqs: map<Id, Request>, r: Id) {
    if r in reqs then
      Replay(log, r) == Some(reqs[r].status) && Asked(log, r) == 1
      && (reqs[r].status.Pending? <==> Settled(log, r) == 0)
    else Replay(log, r) == None && Asked(log, r) == 0 && Settled(log, r) == 0
  }

  ghost predicate LogOk(log: seq<Event>, reqs: map<Id, Request>) { forall r :: LogRow(log, reqs, r) }

  ghost predicate OpenBelow(open: map<nat, Await>, calls: seq<Call>) { forall c :: c in open ==> c < |calls| }

  ghost predicate StartedOk(calls: seq<Call>, log: seq<Event>, open: map<nat, Await>) {
    forall r :: CallsFor(calls, r) <= Effects(log, open, r)
  }

  ghost predicate Ledger(s: State) {
    LogOk(s.audit, s.reqs) && OpenBelow(s.open, s.calls) && StartedOk(s.calls, s.audit, s.open)
  }

  lemma Appended(log: seq<Event>, e: Event, r: Id)
    ensures Replay(log + [e], r) == if About(e, r) then StatusOf(e.kind) else Replay(log, r)
    ensures Asked(log + [e], r) == Asked(log, r) + One(About(e, r) && e.kind.WriteRequested?)
    ensures Settled(log + [e], r) == Settled(log, r) + One(About(e, r) && !e.kind.WriteRequested?)
  {
    assert (log + [e])[..|log|] == log;
  }

  lemma LogUnrelated(log: seq<Event>, e: Event, reqs: map<Id, Request>)
    requires LogOk(log, reqs) && e.request.None?
    ensures LogOk(log + [e], reqs) && forall r :: Settled(log + [e], r) == Settled(log, r)
  {
    forall r
      ensures LogRow(log + [e], reqs, r)
      ensures Settled(log + [e], r) == Settled(log, r)
    {
      Appended(log, e, r);
      assert LogRow(log, reqs, r);
    }
  }

  lemma LogSettles(log: seq<Event>, e: Event, reqs: map<Id, Request>, row: Request)
    requires LogOk(log, reqs) && row.id in reqs
    requires About(e, row.id) && StatusOf(e.kind) == Some(row.status) && !row.status.Pending?
    ensures LogOk(log + [e], reqs[row.id := row])
    ensures forall r :: Settled(log + [e], r) == Settled(log, r) + One(r == row.id)
  {
    var log', reqs' := log + [e], reqs[row.id := row];
    forall r
      ensures LogRow(log', reqs', r)
      ensures Settled(log', r) == Settled(log, r) + One(r == row.id)
    {
      Appended(log, e, r);
      assert LogRow(log, reqs, r);
    }
  }

  lemma LogRequests(log: seq<Event>, e: Event, reqs: map<Id, Request>, row: Request)
    requires LogOk(log, reqs) && row.id !in reqs && About(e, row.id) && e.kind.WriteRequested? && row.status.Pending?
    ensures LogOk(log + [e], reqs[row.id := row]) && forall r :: Settled(log + [e], r) == Settled(log, r)
  {
    var log', reqs' := log + [e], reqs[row.id := row];
    forall r
      ensures LogRow(log', reqs', r)
      ensures Settled(log', r) == Settled(log, r)
    {
      Appended(log, e, r);
      assert LogRow(log, reqs, r);
    }
  }

  // --- the request a step settles --------------------------------------------------------------

  /** The request whose settlement this step decides: it passes the gate, or is rejected. */
  function Settles(s: State, step: Step): Option<Id> { if step.AtDesk? then DeskSettles(s, step.d) else None }

  function DeskSettles(s: State, step: DeskStep): Option<Id> {
    match step
    case DoDecide(approver, r, approve, _, stop) =>
      if r !in s.reqs || !s.reqs[r].status.Pending? || (approve && (approver == s.reqs[r].maker || stop))
      then None else Some(r)
    case DoPollNext(p) =>
      if PollReady(s, p) && s.polls[p].rows[0].status.Pending? && Approved(s, s.polls[p].rows[0].id)
      then Some(s.polls[p].rows[0].id) else None
    case _ => None
  }

  /** From s to s' the settlements of r, if any, grow by one and no others change. */
  ghost predicate Counts(s: State, s': State, settled: Option<Id>) {
    Counted(s.audit, s.open, s'.audit, s'.open, settled)
  }

  ghost predicate Counted(log: seq<Event>, open: map<nat, Await>, log': seq<Event>, open': map<nat, Await>,
          settled: Option<Id>)
  {
    forall r :: Effects(log', open', r) == Effects(log, open, r) + One(settled == Some(r))
  }

  lemma CloseLedger(s: State, row: Request, out: Outcome)
    requires Ledger(s) && row.id in s.reqs
    ensures Ledger(Close(s, row, out)) && Counts(s, Close(s, row, out), Some(row.id))
  {
    var s' := Close(s, row, out);
    LogSettles(s.audit, s'.audit[|s.audit|], s.reqs, s'.reqs[row.id]);
  }

  lemma StartedAppended(calls: seq<Call>, c: Call, r: Id)
    ensures CallsFor(calls + [c], r) == CallsFor(calls, r) + One(c.origin == Settlement(r))
  {
    assert (calls + [c])[..|calls|] == calls;
  }

  lemma InFlightAdded(open: map<nat, Await>, c: nat, w: Await, r: Id)
    requires c !in open
    ensures |InFlight(open[c := w], r)| == |InFlight(open, r)| + One(w.AwaitSettle? && w.row.id == r)
  {
    if w.AwaitSettle? && w.row.id == r {
      assert InFlight(open[c := w], r) == InFlight(open, r) + {c};
    } else {
      assert InFlight(open[c := w], r) == InFlight(open, r);
    }
  }

  lemma InFlightDropped(open: map<nat, Await>, c: nat, r: Id)
    requires c in open
    ensures |InFlight(open, r)| == |InFlight(open - {c}, r)| + One(open[c].AwaitSettle? && open[c].row.id == r)
  {
    InFlightAdded(open - {c}, c, open[c], r);
    assert (open - {c})[c := open[c]] == open;
  }

  /** One external call begins: a settlement of r counts once, any other call counts nothing. */
  lemma BeginsLedger(s: State, s': State, o: Origin, key: string, action: string, params: Payload, w: Await)
    requires Ledger(s) && Begins(s, s', o, key, action, params, w)
    requires o.Settlement? <==> w.AwaitSettle?
    requires o.Settlement? ==> w.row.id == o.request
    ensures Ledger(s') && Counts(s, s', if o.Settlement? then Some(o.request) else None)
  {
    assert s'.calls == s.calls + [s'.calls[|s.calls|]];
    forall r
      ensures Effects(s'.audit, s'.open, r) == Effects(s.audit, s.open, r) + One(o == Settlement(r))
      ensures CallsFor(s'.calls, r) == CallsFor(s.calls, r) + One(o == Settlement(r))
    {
      StartedAppended(s.calls, s'.calls[|s.calls|], r);
      InFlightAdded(s.open, |s.calls|, w, r);
    }
  }

  lemma RequestWriteLedger(s: State, who: string, desk: Id, tool: Id, key: string, action: string, params: Payload)
    requires Ledger(s) && s.next !in s.reqs
    ensures var s' := RequestWrite(s, who, desk, tool, key, action, params); Ledger(s') && Counts(s, s', None)
  {
    var s' := RequestWrite(s, who, desk, tool, key, action, params);
    LogRequests(s.audit, s'.audit[|s.audit|], s.reqs, s'.reqs[s.next]);
  }

  /** A step that leaves the rows, the log and the calls alone. */
  lemma QuietLedger(s: State, s': State)
    requires Ledger(s)
    requires s'.audit == s.audit && s'.reqs == s.reqs && s'.open == s.open && s'.calls == s.calls
    ensures Ledger(s') && Counts(s, s', None)
  {}

  /** What a handler's branch settles: the request whose call it begins or which it closes. */
  function SettledBy(sh: Shape): Option<Id> {
    match sh
    case Calling(o, _, _, _, _) => if o.Settlement? then Some(o.request) else None
    case Closing(row, _) => Some(row.id)
    case _ => None
  }

  lemma FitsLedger(s: State, s': State, sh: Shape)
    requires Ledger(s) && Fits(s, s', sh)
    requires match sh
             case Asking(_, _, _, _, _, _) => s.next !in s.reqs
             case Calling(o, _, _, _, w) =>
               (o.Settlement? <==> w.AwaitSettle?) && (o.Settlement? ==> w.row.id == o.request)
             case Closing(row, _) => row.id in s.reqs
             case Idle => true
    ensures Ledger(s') && Counts(s, s', SettledBy(sh))
  {
    hide Ledger, Counts, Begins, RequestWrite, Close;
    match sh
    case Idle => QuietLedger(s, s);
    case Asking(who, desk, tool, key, action, params) => RequestWriteLedger(s, who, desk, tool, key, action, params);
    case Calling(o, key, action, params, w) => BeginsLedger(s, s', o, key, action, params, w);
    case Closing(row, out) => CloseLedger(s, row, out);
  }

  lemma SettleLedger(s: State, row: Request)
    requires Ledger(s) && row.id in s.reqs
    ensures Ledger(Settle(s, row)) && Counts(s, Settle(s, row), if Approved(s, row.id) then Some(row.id) else None)
  {
    hide Ledger, Counts, Settle, Fits;
    var sh := SettleShape(s, row);
    FitsLedger(s, Settle(s, row), sh);
  }

  lemma InvokeLedger(s: State, who: string, desk: Id, tool: Id, action: string, params: Payload)
    requires Ledger(s) && s.next !in s.reqs
    ensures var s' := Invoke(s, who, desk, tool, action, params); Ledger(s') && Counts(s, s', None)
  {
    hide Ledger, Counts, Invoke, Fits;
    var sh := InvokeShape(s, who, desk, tool, action, params);
    FitsLedger(s, Invoke(s, who, desk, tool, action, params), sh);
  }

  lemma OwnLedger(s: State, d: DeskStep)
    requires Ledger(s) && OwnStep(d)
    ensures Ledger(DeskNext(s, d)) && Counts(s, DeskNext(s, d), None)
  {
    hide Ledger, Counts, DeskNext, Fits;
    var sh := OwnShape(s, d);
    FitsLedger(s, DeskNext(s, d), sh);
  }

  lemma RejectLedger(s: State, row: Request, approver: string, reason: string)
    requires Ledger(s) && row.id in s.reqs
    ensures Ledger(Reject(s, row, approver, reason)) && Counts(s, Reject(s, row, approver, reason), Some(row.id))
  {
    var s' := Reject(s, row, approver, reason);
    LogSettles(s.audit, s'.audit[|s.audit|], s.reqs, s'.reqs[row.id]);
  }

  lemma ApproveLedger(s: State, r: Id, approver: string, row: Request)
    requires Ledger(s) && row.id == r && r in s.reqs
    ensures Ledger(ApproveGate(s, r, approver)) && Counts(s, ApproveGate(s, r, approver), None)
    ensures var s' := Settle(ApproveGate(s, r, approver), row); Ledger(s') && Counts(s, s', Some(r))
  {
    hide Ledger, Counted, Settle;
    var s1 := ApproveGate(s, r, approver);
    QuietLedger(s, s1);
    SettleLedger(s1, row);
  }

  lemma DecideLedger(s: State, approver: string, r: Id, approve: bool, reason: string, stop: bool)
    requires Ledger(s) && RowsOk(s.reqs)
    ensures var s' := Decide(s, approver, r, approve, reason, stop);
            Ledger(s') && Counts(s, s', DeskSettles(s, DoDecide(approver, r, approve, reason, stop)))
  {
    hide Ledger, Counts, Settle, Reject, ApproveGate;
    QuietLedger(s, s);
    if r in s.reqs {
      RejectLedger(s, s.reqs[r], approver, reason);
      ApproveLedger(s, r, approver, s.reqs[r].(approver := Some(approver)));
    }
  }

  lemma PollNextLedger(s: State, p: Id)
    requires Ledger(s) && PollsOk(s.polls, s.reqs)
    ensures Ledger(PollNext(s, p)) && Counts(s, PollNext(s, p), DeskSettles(s, DoPollNext(p)))
  {
    hide Ledger, Settle;
    if PollReady(s, p) {
      var row := s.polls[p].rows[0];
      assert CopyOf(row, s.reqs);
      SettleLedger(s, row);
      QuietLedger(s, s);
      QuietLedger(if row.status.Pending? then Settle(s, row) else s, PollNext(s, p));
    }
  }

  /** A step that only appends a receipt about no write request. */
  lemma ReceiptLedger(s: State, s': State, e: Event)
    requires Ledger(s) && e.request.None?
    requires s'.audit == s.audit + [e] && s'.reqs == s.reqs && s'.open == s.open && s'.calls == s.calls
    ensures Ledger(s') && Counts(s, s', None)
  {
    LogUnrelated(s.audit, e, s.reqs);
    forall r ensures Effects(s'.audit, s'.open, r) == Effects(s.audit, s.open, r) {}
  }

  lemma SettledReturns(s: State, c: nat, out: Outcome)
    requires Ledger(s) && c in s.open && s.open[c].AwaitSettle? && s.open[c].row.id in s.reqs
    ensures var s' := Close(s.(open := s.open - {c}), s.open[c].row, out); Ledger(s') && Counts(s, s', None)
  {
    var row := s.open[c].row;
    var s' := Close(s.(open := s.open - {c}), row, out);
    LogSettles(s.audit, s'.audit[|s.audit|], s.reqs, s'.reqs[row.id]);
    forall r ensures Effects(s'.audit, s'.open, r) == Effects(s.audit, s.open, r) {
      InFlightDropped(s.open, c, r);
    }
  }

  /** A returned call stops being in flight just as its receipt is written. */
  lemma FinishLedger(s: State, c: nat, out: Outcome)
    requires Ledger(s) && c in s.open && AwaitOk(s.open[c], s.reqs)
    ensures var s' := Finish(s.(open := s.open - {c}), s.open[c], out); Ledger(s') && Counts(s, s', None)
  {
    hide Close, Ledger, Counted;
    var w, s1 := s.open[c], s.(open := s.open - {c});
    if w.AwaitSettle? {
      SettledReturns(s, c, out);
    } else {
      DroppedLedger(s, c);
      OtherFinishLedger(s1, w, out);
      CountsChain(s, s1, Finish(s1, w, out));
    }
  }

  lemma CountsChain(s: State, s1: State, s2: State)
    requires Counts(s, s1, None) && Counts(s1, s2, None)
    ensures Counts(s, s2, None)
  {}

  /** A call begun for anything but a settlement leaves a receipt about no request, or none. */
  lemma OtherFinishLedger(s: State, w: Await, out: Outcome)
    requires Ledger(s) && !w.AwaitSettle?
    ensures Ledger(Finish(s, w, out)) && Counts(s, Finish(s, w, out), None)
  {
    hide Ledger, Counts;
    QuietLedger(s, s);
    var s' := Finish(s, w, out);
    if s'.audit != s.audit { ReceiptLedger(s, s', s'.audit[|s.audit|]); }
  }

  lemma DroppedLedger(s: State, c: nat)
    requires Ledger(s) && c in s.open && !s.open[c].AwaitSettle?
    ensures Ledger(s.(open := s.open - {c})) && Counts(s, s.(open := s.open - {c}), None)
  {
    forall r ensures Effects(s.audit, s.open - {c}, r) == Effects(s.audit, s.open, r) { InFlightDropped(s.open, c, r); }
  }

  lemma ReturnLedger(s: State, c: nat, local: Outcome, timedOut: bool)
    requires Ledger(s) && OpenOk(s.open, s.reqs)
    ensures Ledger(Return(s, c, local, timedOut)) && Counts(s, Return(s, c, local, timedOut), None)
  {
    var out := OutcomeOf(s, c, local, timedOut);
    if out.Some? && c in s.open { FinishLedger(s, c, out.value); }
  }

  lemma ToolLedger(s: State, s': State)
    requires Ledger(s) && OnlyTools(s, s')
    ensures Ledger(s') && Counts(s, s', None)
  {
    if s'.audit != s.audit {
      var e: Event :| e.request.None? && s'.audit == s.audit + [e];
      ReceiptLedger(s, s', e);
    }
  }

  lemma PollStartLedger(s: State, who: string, desk: Id)
    requires Ledger(s)
    ensures Ledger(PollStart(s, who, desk)) && Counts(s, PollStart(s, who, desk), None)
  {
    hide Ledger, Counts, RowsOf;
    QuietLedger(s, PollStart(s, who, desk));
  }

  lemma DeskLedger(s: State, step: DeskStep)
    requires Ledger(s) && Basic(s)
    ensures Ledger(DeskNext(s, step)) && Counts(s, DeskNext(s, step), DeskSettles(s, step))
  {
    hide Invoke, Decide, PollNext, Return, Ledger, Counts, CompleteOAuth, RowsOf, OnlyTools;
    hide TerminalExec, TerminalHosts, TestSpec, Connect, Disconnect, PollStart;
    match step
    case DoInvoke(who, desk, tool, action, params) => InvokeLedger(s, who, desk, tool, action, params);
    case DoDecide(approver, r, approve, reason, stop) => DecideLedger(s, approver, r, approve, reason, stop);
    case DoPollStart(who, desk) => PollStartLedger(s, who, desk);
    case DoPollNext(p) => PollNextLedger(s, p);
    case DoReturn(c, local, timedOut) => ReturnLedger(s, c, local, timedOut);
    case DoConnect(who, desk, key, bridge, spec, in_) => ToolLedger(s, Connect(s, who, desk, key, bridge, spec, in_));
    case DoDisconnect(who, desk, tool) => ToolLedger(s, Disconnect(s, who, desk, tool));
    case _ => OwnLedger(s, step);
  }

  /** Every step keeps the ledger and settles exactly the request `Settles` names. */
  lemma LedgerKept(s: State, step: Step)
    requires Ledger(s) && Basic(s)
    ensures Ledger(Next(s, step)) && Counts(s, Next(s, step), Settles(s, step))
  {
    hide DeskNext, BridgeNext, AdminNext;
    if step.AtDesk? { DeskLedger(s, step.d); } else { QuietLedger(s, Next(s, step)); }
  }
}
