/** The bridge's job queue: every job is handed out at most once, and every answer a
  * waiting call sees was submitted by the bridge that owns the job. */
module WriteBackJobs {
  import opened Options
  import opened Records
  import opened WriteBack
  import opened WriteBackShapes

  // --- the shape of a desk step ----------------------------------------------------------

  /** At most one external call begins, marked with the switch, the policy and the gate as they
    * stand, and queueing at most its own job; no agent is involved, nor the switch, the policy or the clock. */
  ghost predicate AtMostOneCall(s: State, s': State) {
    && SameRule(s, s') && WaitsWithin(s, s')
    && s'.dep == s.dep && s'.bridges == s.bridges && s'.handed == s.handed && s'.submitted == s.submitted
    && s.next <= s'.next
    && ((s'.calls == s.calls && s'.jobs == s.jobs) || OneCall(s, s'))
  }

  /** Nothing is waited for that was not before, but the call that began. */
  ghost predicate WaitsWithin(s: State, s': State) {
    forall c :: c in s'.open ==> c in s.open || c == |s.calls| < |s'.calls|
  }

  ghost predicate OneCall(s: State, s': State) {
    && |s'.calls| == |s.calls| + 1 && s'.calls[..|s.calls|] == s.calls
    && var c := s'.calls[|s.calls|];
       c.halted == s.halted && c.forced == s.policy.requireApproval && c.approver == ApproverFor(s', c.origin)
       && match c.channel
       case ViaBridge(j) =>
         j == s.next && s.next < s'.next && j in s'.jobs && s'.jobs == s.jobs[j := s'.jobs[j]]
         && s'.jobs[j] == Job(s'.jobs[j].bridge, c.key, c.action, c.params, JobPending, map[], "")
       case _ => s'.jobs == s.jobs
  }

  lemma BeginsOneCall(s: State, s': State, o: Origin, key: string, action: string, params: Payload, w: Await)
    requires Begins(s, s', o, key, action, params, w)
    ensures AtMostOneCall(s, s')
  {}

  lemma IdleOneCall(s: State)
    ensures AtMostOneCall(s, s)
  {}

  lemma RowOneCall(s: State, row: Request, out: Outcome, approver: string, reason: string)
    ensures AtMostOneCall(s, Close(s, row, out)) && AtMostOneCall(s, Reject(s, row, approver, reason))
  {}

  lemma RequestWriteOneCall(s: State, who: string, desk: Id, tool: Id, key: string, action: string, params: Payload)
    ensures AtMostOneCall(s, RequestWrite(s, who, desk, tool, key, action, params))
  {}

  lemma FitsOneCall(s: State, s': State, sh: Shape)
    requires Fits(s, s', sh)
    ensures AtMostOneCall(s, s')
  {
    hide AtMostOneCall, Begins, RequestWrite, Close;
    match sh
    case Idle => IdleOneCall(s);
    case Asking(who, desk, tool, key, action, params) => RequestWriteOneCall(s, who, desk, tool, key, action, params);
    case Calling(o, key, action, params, w) => BeginsOneCall(s, s', o, key, action, params, w);
    case Closing(row, out) => RowOneCall(s, row, out, "", "");
  }

  lemma SettleOneCall(s: State, row: Request)
    ensures AtMostOneCall(s, Settle(s, row))
  {
    hide Settle, Fits, AtMostOneCall;
    var sh := SettleShape(s, row);
    FitsOneCall(s, Settle(s, row), sh);
  }

  lemma DecideOneCall(s: State, approver: string, r: Id, approve: bool, reason: string, stop: bool)
    ensures AtMostOneCall(s, Decide(s, approver, r, approve, reason, stop))
  {
    hide Settle, Reject;
    if r in s.reqs {
      RowOneCall(s, s.reqs[r], Raised(NoFault), approver, reason);
      SettleOneCall(ApproveGate(s, r, approver), s.reqs[r].(approver := Some(approver)));
    }
  }

  lemma PollNextOneCall(s: State, p: Id)
    ensures AtMostOneCall(s, PollNext(s, p))
  {
    hide Settle;
    if PollReady(s, p) { SettleOneCall(s, s.polls[p].rows[0]); }
  }

  lemma FinishOneCall(s: State, c: nat, w: Await, out: Outcome)
    ensures AtMostOneCall(s, Finish(s.(open := s.open - {c}), w, out))
  {
    hide Close;
    if w.AwaitSettle? { RowOneCall(s.(open := s.open - {c}), w.row, out, "", ""); }
  }

  lemma ReturnOneCall(s: State, c: nat, local: Outcome, timedOut: bool)
    ensures AtMostOneCall(s, Return(s, c, local, timedOut))
  {
    hide AtMostOneCall, OutcomeOf, Finish;
    IdleOneCall(s);
    if c in s.open { forall out { FinishOneCall(s, c, s.open[c], out); } }
  }

  lemma PollStartOneCall(s: State, who: string, desk: Id)
    ensures AtMostOneCall(s, PollStart(s, who, desk))
  {
    hide AtMostOneCall, RowsOf, Owns;
    IdleOneCall(s);
    PollsOneCall(s, s.polls[s.next := Poll(RowsOf(s.reqs, desk, s.next), None)]);
  }

  lemma PollsOneCall(s: State, polls: map<Id, Poll>)
    ensures AtMostOneCall(s, s.(polls := polls, next := s.next + 1))
  {
    QuietOneCall(s, s.(polls := polls, next := s.next + 1));
  }

  lemma QuietOneCall(s: State, s': State)
    requires SameRule(s, s') && s'.dep == s.dep && s'.bridges == s.bridges && s'.handed == s.handed
    requires s'.submitted == s.submitted && s'.open == s.open
    requires s.next <= s'.next && s'.calls == s.calls && s'.jobs == s.jobs
    ensures AtMostOneCall(s, s')
  {}

  lemma ToolsOneCall(s: State, s': State)
    requires OnlyTools(s, s')
    ensures AtMostOneCall(s, s')
  {}

  lemma DeskOneCall(s: State, step: DeskStep)
    ensures AtMostOneCall(s, DeskNext(s, step))
  {
    hide AtMostOneCall, Fits, Invoke, Decide, PollStart, PollNext, Return, OnlyTools, Connect, Disconnect;
    hide TerminalExec, TerminalHosts, TestSpec, CompleteOAuth;
    match step
    case DoInvoke(who, desk, tool, action, params) =>
      var sh := InvokeShape(s, who, desk, tool, action, params);
      FitsOneCall(s, Invoke(s, who, desk, tool, action, params), sh);
    case DoDecide(approver, r, approve, reason, stop) => DecideOneCall(s, approver, r, approve, reason, stop);
    case DoPollNext(p) => PollNextOneCall(s, p);
    case DoReturn(c, local, timedOut) => ReturnOneCall(s, c, local, timedOut);
    case DoPollStart(who, desk) => PollStartOneCall(s, who, desk);
    case DoConnect(_, _, _, _, _, _) => ToolsOneCall(s, DeskNext(s, step));
    case DoDisconnect(_, _, _) => ToolsOneCall(s, DeskNext(s, step));
    case _ =>
      var sh := OwnShape(s, step);
      FitsOneCall(s, DeskNext(s, step), sh);
  }

  // --- the queue's invariant ---------------------------------------------------------------

  ghost predicate NoRepeats(s: seq<Id>) { forall i, k :: 0 <= i < k < |s| ==> s[i] != s[k] }

  ghost predicate IdsBelow(jobs: map<Id, Job>, next: Id) { 0 <= next && forall j :: j in jobs ==> 0 <= j < next }

  /** A job handed to an agent is never pending again, and is handed only once. */
  ghost predicate HandedOk(handed: seq<Id>, jobs: map<Id, Job>) {
    NoRepeats(handed) && forall j :: j in handed ==> j in jobs && !jobs[j].status.JobPending?
  }

  /** The job of a bridge call carries what the call asked for, and belongs to no other call. */
  ghost predicate CallJobsOk(calls: seq<Call>, jobs: map<Id, Job>) {
    && (forall c :: 0 <= c < |calls| && calls[c].channel.ViaBridge? ==> JobOf(calls[c], jobs))
    && (forall c, d :: 0 <= c < d < |calls| && calls[c].channel.ViaBridge? ==> calls[c].channel != calls[d].channel)
  }

  ghost predicate JobOf(c: Call, jobs: map<Id, Job>)
    requires c.channel.ViaBridge?
  {
    c.channel.job in jobs
    && var job := jobs[c.channel.job]; job.key == c.key && job.action == c.action && job.params == c.params
  }

  /** The answer in a done job is one its own bridge submitted for it. */
  ghost predicate AnswersOk(jobs: map<Id, Job>, submitted: seq<Submission>) {
    forall j :: j in jobs && jobs[j].status.JobDone? ==>
      Submission(jobs[j].bridge, j, Answer(jobs[j].result, "")) in submitted
  }

  ghost predicate Queue(s: State) {
    IdsBelow(s.jobs, s.next) && HandedOk(s.handed, s.jobs) && CallJobsOk(s.calls, s.jobs)
      && AnswersOk(s.jobs, s.submitted)
  }

  /** A job keeps its bridge and its content, and never becomes pending again. */
  ghost predicate JobsGrow(jobs: map<Id, Job>, jobs': map<Id, Job>) {
    forall j :: j in jobs ==>
      j in jobs' && jobs'[j].bridge == jobs[j].bridge && jobs'[j].key == jobs[j].key
      && jobs'[j].action == jobs[j].action && jobs'[j].params == jobs[j].params
      && (jobs'[j].status.JobPending? ==> jobs[j].status.JobPending?)
  }

  lemma QueueGrows(s: State, jobs': map<Id, Job>)
    requires HandedOk(s.handed, s.jobs) && CallJobsOk(s.calls, s.jobs) && JobsGrow(s.jobs, jobs')
    ensures HandedOk(s.handed, jobs') && CallJobsOk(s.calls, jobs')
  {
    forall c | 0 <= c < |s.calls| && s.calls[c].channel.ViaBridge? ensures JobOf(s.calls[c], jobs') {
      assert JobOf(s.calls[c], s.jobs);
    }
  }

  lemma PendingOfIs(jobs: map<Id, Job>, bridge: Id, upto: Id)
    ensures var ids := PendingOf(jobs, bridge, upto);
            NoRepeats(ids)
            && (forall j ::
                  j in ids <==> 0 <= j < upto && j in jobs && jobs[j].bridge == bridge && jobs[j].status.JobPending?)
  {}

  lemma OneCallQueue(s: State, s': State)
    requires Queue(s) && AtMostOneCall(s, s')
    ensures Queue(s') && JobsGrow(s.jobs, s'.jobs)
  {
    if s'.calls != s.calls {
      QueueGrows(s, s'.jobs);
      var n := |s.calls|;
      forall c | 0 <= c < |s'.calls| && s'.calls[c].channel.ViaBridge?
        ensures JobOf(s'.calls[c], s'.jobs)
        ensures forall d :: c < d < |s'.calls| ==> s'.calls[c].channel != s'.calls[d].channel
      {
        if c < n {
          assert s'.calls[c] == s'.calls[..n][c];
          assert JobOf(s.calls[c], s.jobs);
          forall d | c < d < |s'.calls| ensures s'.calls[c].channel != s'.calls[d].channel {
            if d < n { assert s'.calls[d] == s'.calls[..n][d]; }
          }
        }
      }
    }
  }

  lemma NoRepeatsJoin(a: seq<Id>, b: seq<Id>)
    requires NoRepeats(a) && NoRepeats(b) && forall j :: j in b ==> j !in a
    ensures NoRepeats(a + b)
  {
    var ab := a + b;
    forall i, k | 0 <= i < k < |ab| ensures ab[i] != ab[k] {
      if i < |a| <= k { assert ab[k] in b; }
    }
  }

  lemma ClaimJobsQueue(s: State, b: Id, secret: int)
    requires Queue(s)
    ensures Queue(ClaimJobs(s, b, secret)) && JobsGrow(s.jobs, ClaimJobs(s, b, secret).jobs)
  {
    if Authentic(s, b, secret) {
      var ids := PendingOf(s.jobs, b, s.next);
      PendingOfIs(s.jobs, b, s.next);
      QueueGrows(s, MarkRunning(s.jobs, ids));
      NoRepeatsJoin(s.handed, ids);
    }
  }

  lemma AnswerKept(jobs: map<Id, Job>, submitted: seq<Submission>, j: Id, answer: Answer)
    requires AnswersOk(jobs, submitted) && j in jobs
    ensures AnswersOk(jobs[j := Answered(jobs[j], answer)], submitted + [Submission(jobs[j].bridge, j, answer)])
  {
    var jobs', submitted' := jobs[j := Answered(jobs[j], answer)], submitted + [Submission(jobs[j].bridge, j, answer)];
    forall k | k in jobs' && jobs'[k].status.JobDone?
      ensures Submission(jobs'[k].bridge, k, Answer(jobs'[k].result, "")) in submitted'
    {
      if k == j {
        assert answer == Answer(answer.result, "");
        assert submitted'[|submitted|] == Submission(jobs[j].bridge, j, answer);
      } else {
        assert Submission(jobs[k].bridge, k, Answer(jobs[k].result, "")) in submitted;
      }
    }
  }

  lemma SubmitQueue(s: State, b: Id, secret: int, j: Id, answer: Answer)
    requires Queue(s)
    ensures var s' := SubmitResult(s, b, secret, j, answer); Queue(s') && JobsGrow(s.jobs, s'.jobs)
  {
    hide AnswersOk;
    if Authentic(s, b, secret) && j in s.jobs && s.jobs[j].bridge == b {
      QueueGrows(s, SubmitResult(s, b, secret, j, answer).jobs);
      AnswerKept(s.jobs, s.submitted, j, answer);
    }
  }

  lemma QuietQueue(s: State, s': State)
    requires Queue(s) && s'.jobs == s.jobs && s'.handed == s.handed && s'.submitted == s.submitted
    requires s'.calls == s.calls && s.next <= s'.next
    ensures Queue(s') && JobsGrow(s.jobs, s'.jobs)
  {}

  /** Every step keeps the queue, and no job ever becomes pending again. */
  lemma QueueKept(s: State, step: Step)
    requires Queue(s)
    ensures Queue(Next(s, step)) && JobsGrow(s.jobs, Next(s, step).jobs)
  {
    hide DeskNext, AdminNext, AtMostOneCall, ClaimJobs, SubmitResult, Queue, JobsGrow;
    match step
    case AtDesk(d) => DeskOneCall(s, d); OneCallQueue(s, DeskNext(s, d));
    case AtBridge(b) =>
      match b {
        case DoClaimJobs(b, secret) => ClaimJobsQueue(s, b, secret);
        case DoSubmit(b, secret, j, answer) => SubmitQueue(s, b, secret, j, answer);
        case _ => QuietQueue(s, BridgeNext(s, b));
      }
    case ByAdmin(a) => QuietQueue(s, AdminNext(s, a));
  }
}
