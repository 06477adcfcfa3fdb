/** What a bridge's secret protects: over every run, only a step that carries the secret drawn when the
  * bridge was paired is listened to, and only the code drawn then releases it. */
module WriteBackSecrets {
  import opened Options
  import opened Records
  import opened WriteBack
  import opened WriteBackInvariants
  import opened WriteBackLedger
  import opened WriteBackJobs
  import opened WriteBackHistory
  import opened WriteBackSteps
  import opened WriteBackTheorems
  import opened WriteBackGuarantees
  import Strings

  /** Step i paired this bridge and drew this secret for it. */
  ghost predicate Drew(dep: Deployment, steps: seq<Step>, i: nat, b: Id, secret: int) {
    i < |steps| && steps[i].AtBridge? && steps[i].b.DoPair?
    && b == Before(dep, steps, i).next && secret == Before(dep, steps, i).next + 1
  }

  /** This step speaks for a bridge and presents a secret. */
  predicate Presents(step: Step, b: Id, secret: int) {
    step.AtBridge?
    && match step.b
       case DoHello(x, y) => x == b && y == secret
       case DoClaimJobs(x, y) => x == b && y == secret
       case DoSubmit(x, y, _, _) => x == b && y == secret
       case _ => false
  }

  // --- bridges come from pairings ----------------------------------------------------------------------

  /** Nothing about a pairing changes but that its secret is spent. */
  ghost predicate SamePairing(was: Bridge, row: Bridge) {
    row.desk == was.desk && row.hash == was.hash && row.code == was.code
    && (row.pairSecret.Some? ==> row.pairSecret == was.pairSecret && row.expires == was.expires)
  }

  lemma BridgeStepPairing(s: State, step: BridgeStep, b: Id)
    requires b in BridgeNext(s, step).bridges
    ensures var row := BridgeNext(s, step).bridges[b];
            if step.DoPair? && b == s.next
            then row == Bridge(step.desk, Sha256(s.next + 1), {}, None, step.code, Some(s.next + 1), Some(s.now + 1800))
            else b in s.bridges && SamePairing(s.bridges[b], row)
  {
    hide Pair, Claim, Hello, SetAllowed, Revoke, ClaimJobs, SubmitResult;
    match step
    case DoPair(desk, code) => PairPairing(s, desk, code, b);
    case DoClaim(code) => ClaimPairing(s, code, b);
    case DoHello(x, secret) => HelloPairing(s, x, secret, b);
    case DoSetAllowed(desk, x, actions) => AllowedPairing(s, desk, x, actions, b);
    case DoRevoke(desk, x) => RevokedPairing(s, desk, x, b);
    case DoClaimJobs(x, secret) => JobsPairing(s, x, secret, b);
    case DoSubmit(x, secret, j, answer) => SubmitPairing(s, x, secret, j, answer, b);
  }

  lemma PairPairing(s: State, desk: Id, code: string, b: Id)
    requires b in Pair(s, desk, code).bridges
    ensures var row := Pair(s, desk, code).bridges[b];
            if b == s.next
            then row == Bridge(desk, Sha256(s.next + 1), {}, None, code, Some(s.next + 1), Some(s.now + 1800))
            else b in s.bridges && row == s.bridges[b]
  {
    hide OnlyBridges;
  }

  lemma ClaimPairing(s: State, code: string, b: Id)
    requires b in Claim(s, code).bridges
    ensures b in s.bridges && SamePairing(s.bridges[b], Claim(s, code).bridges[b])
  {
    hide ClaimToken, OnlyBridges;
  }

  lemma HelloPairing(s: State, x: Id, secret: int, b: Id)
    requires b in Hello(s, x, secret).bridges
    ensures b in s.bridges && SamePairing(s.bridges[b], Hello(s, x, secret).bridges[b])
  {
    hide OnlyBridges;
  }

  lemma JobsPairing(s: State, x: Id, secret: int, b: Id)
    requires b in ClaimJobs(s, x, secret).bridges
    ensures b in s.bridges && SamePairing(s.bridges[b], ClaimJobs(s, x, secret).bridges[b])
  {
    hide PendingOf, MarkRunning, SameDesk;
  }

  lemma AllowedPairing(s: State, desk: Id, x: Id, actions: seq<string>, b: Id)
    requires b in SetAllowed(s, desk, x, actions).bridges
    ensures b in s.bridges && SamePairing(s.bridges[b], SetAllowed(s, desk, x, actions).bridges[b])
  {
    hide OnlyBridges;
  }

  lemma RevokedPairing(s: State, desk: Id, x: Id, b: Id)
    requires b in Revoke(s, desk, x).bridges
    ensures b in s.bridges && SamePairing(s.bridges[b], Revoke(s, desk, x).bridges[b])
  {
    hide OnlyBridges;
  }

  lemma SubmitPairing(s: State, x: Id, secret: int, j: Id, answer: Answer, b: Id)
    ensures SubmitResult(s, x, secret, j, answer).bridges == s.bridges
    ensures b in s.bridges ==> SamePairing(s.bridges[b], s.bridges[b])
  {}

  lemma StepPairing(s: State, step: Step, b: Id)
    requires b in Next(s, step).bridges
    ensures var row := Next(s, step).bridges[b];
            if step.AtBridge? && step.b.DoPair? && b == s.next
            then row == Bridge(step.b.desk, Sha256(s.next + 1), {}, None, step.b.code, Some(s.next + 1),
                               Some(s.now + 1800))
            else b in s.bridges && SamePairing(s.bridges[b], row)
  {
    hide DeskNext, BridgeNext, AdminNext, OneCall;
    match step
    case AtDesk(d) => DeskOneCall(s, d);
    case AtBridge(x) => BridgeStepPairing(s, x, b);
    case ByAdmin(a) => AdminBridges(s, a);
  }

  lemma AdminBridges(s: State, a: AdminStep)
    ensures AdminNext(s, a).bridges == s.bridges
  {}

  /** Every stored bridge was paired by one step of the run, holds the digest of the secret that step drew,
    * and shows its code until its secret is spent or half an hour has passed. */
  lemma {:induction false} BridgeWasPaired(dep: Deployment, steps: seq<Step>, b: Id) returns (i: nat)
    requires b in Run(dep, steps).bridges
    ensures Drew(dep, steps, i, b, b + 1)
    ensures var row, was := Run(dep, steps).bridges[b], Before(dep, steps, i);
            row.hash == Sha256(was.next + 1) && row.desk == steps[i].b.desk && row.code == steps[i].b.code
            && (row.pairSecret.Some? ==>
                  row.pairSecret == Some(was.next + 1) && row.expires == Some(was.now + 1800))
  {
    hide Next;
    var n := |steps| - 1;
    var s := Run(dep, steps[..n]);
    StepPairing(s, steps[n], b);
    if steps[n].AtBridge? && steps[n].b.DoPair? && b == s.next {
      i := n;
    } else {
      i := BridgeWasPaired(dep, steps[..n], b);
      assert steps[..n][..i] == steps[..i];
    }
  }

  // --- no other secret is listened to ----------------------------------------------------------------------

  lemma WrongDigest(s: State, step: Step, b: Id, secret: int)
    requires Presents(step, b, secret) && (b in s.bridges ==> s.bridges[b].hash != Sha256(secret))
    ensures Next(s, step) == s
  {}

  /** From any reachable state: a step that presents a secret no pairing of the run drew for that bridge
    * changes nothing at all. */
  lemma OnlyThePairedSecretActs(dep: Deployment, steps: seq<Step>, step: Step, b: Id, secret: int)
    requires Presents(step, b, secret) && forall i :: !Drew(dep, steps, i, b, secret)
    ensures Run(dep, steps + [step]) == Run(dep, steps)
  {
    hide Next, Run;
    Takes(dep, steps, step);
    if b in Run(dep, steps).bridges {
      var i := BridgeWasPaired(dep, steps, b);
      assert !Drew(dep, steps, i, b, secret);
    }
    WrongDigest(Run(dep, steps), step, b, secret);
  }

  /** The paired secret is: the bridge is marked as seen, handed its pending jobs, or its answer stored. */
  lemma ThePairedSecretActs(s: State, b: Id, secret: int, j: Id, answer: Answer)
    requires b in s.bridges && s.bridges[b].hash == Sha256(secret)
    ensures Next(s, AtBridge(DoHello(b, secret)))
            == s.(bridges := s.bridges[b := s.bridges[b].(lastSeen := Some(s.now))])
    ensures var s' := Next(s, AtBridge(DoClaimJobs(b, secret)));
            s'.bridges == s.bridges[b := s.bridges[b].(lastSeen := Some(s.now))]
            && forall k :: k in s.jobs ==>
                 k in s'.jobs
                 && s'.jobs[k] == if k in s'.handed[|s.handed|..] then s.jobs[k].(status := JobRunning) else s.jobs[k]
    ensures j in s.jobs && s.jobs[j].bridge == b ==>
              Next(s, AtBridge(DoSubmit(b, secret, j, answer)))
              == s.(jobs := s.jobs[j := Stored(s.jobs[j], answer)],
                    submitted := s.submitted + [Submission(b, j, answer)])
  {
    hide PendingOf;
  }

  /** An error fails the job with its first two thousand characters; otherwise the result is stored. */
  function Stored(job: Job, answer: Answer): Job {
    if answer.error == "" then job.(status := JobDone, result := answer.result)
    else job.(status := JobFailed, error := if |answer.error| <= 2000 then answer.error else answer.error[..2000])
  }

  // --- jobs and answers ------------------------------------------------------------------------------------------

  lemma HandedStep(s: State, step: Step, k: nat)
    requires Queue(s)
    ensures s.handed <= Next(s, step).handed
    ensures |s.handed| <= k < |Next(s, step).handed| ==>
              step.AtBridge? && step.b.DoClaimJobs?
              && var b, j := step.b.b, Next(s, step).handed[k];
                 b in s.bridges && s.bridges[b].hash == Sha256(step.b.secret) && j in s.jobs && s.jobs[j].bridge == b
  {
    hide DeskNext, AdminNext, BridgeNext, ClaimJobs, AtMostOneCall, Queue;
    match step
    case AtDesk(d) => DeskOneCall(s, d); OneCallHands(s, DeskNext(s, d));
    case ByAdmin(_) => AdminHands(s, step);
    case AtBridge(x) => if x.DoClaimJobs? { ClaimStep(s, x.b, x.secret, k); } else { OtherHands(s, x); }
  }

  lemma OneCallHands(s: State, s': State)
    requires AtMostOneCall(s, s')
    ensures s'.handed == s.handed && s'.submitted == s.submitted
  {}

  lemma AdminHands(s: State, step: Step)
    requires step.ByAdmin?
    ensures Next(s, step).handed == s.handed && Next(s, step).submitted == s.submitted
  {}

  lemma OtherHands(s: State, x: BridgeStep)
    ensures !x.DoClaimJobs? ==> BridgeNext(s, x).handed == s.handed
    ensures !x.DoSubmit? ==> BridgeNext(s, x).submitted == s.submitted
  {}

  lemma ClaimStep(s: State, b: Id, secret: int, k: nat)
    ensures BridgeNext(s, DoClaimJobs(b, secret)) == ClaimJobs(s, b, secret)
    ensures var handed := ClaimJobs(s, b, secret).handed;
            s.handed <= handed
            && (|s.handed| <= k < |handed| ==>
                  b in s.bridges && s.bridges[b].hash == Sha256(secret)
                  && handed[k] in s.jobs && s.jobs[handed[k]].bridge == b)
  {
    hide PendingOf, SameDesk, MarkRunning;
    PendingOfIs(s.jobs, b, s.next);
    var ids := PendingOf(s.jobs, b, s.next);
    if Authentic(s, b, secret) {
      assert forall i :: 0 <= i < |ids| ==> (s.handed + ids)[|s.handed| + i] == ids[i];
      if |s.handed| <= k < |s.handed + ids| { assert ids[k - |s.handed|] in ids; }
    }
  }

  /** Every job handed out in a run went to a step of its own bridge that carried the secret drawn when
    * that bridge was paired. */
  lemma {:induction false} HandedUnderPairedSecret(dep: Deployment, steps: seq<Step>, k: nat)
    returns (n: nat, i: nat)
    requires k < |Run(dep, steps).handed|
    ensures i < n < |steps| && steps[n].AtBridge? && steps[n].b.DoClaimJobs?
    ensures Drew(dep, steps, i, steps[n].b.b, steps[n].b.secret)
    ensures |Before(dep, steps, n).handed| <= k < |Before(dep, steps, n + 1).handed|
    ensures var s := Run(dep, steps); s.handed[k] in s.jobs && s.jobs[s.handed[k]].bridge == steps[n].b.b
  {
    hide Next, Queue, Basic, Ledger, JobsGrow;
    var m := |steps| - 1;
    var s := Run(dep, steps[..m]);
    RunInv(dep, steps[..m]);
    HandedStep(s, steps[m], k);
    QueueKept(s, steps[m]);
    assert steps[..m + 1] == steps;
    if k < |s.handed| {
      n, i := HandedUnderPairedSecret(dep, steps[..m], k);
      SamePrefixes(steps, m);
    } else {
      n := m;
      i := BridgeWasPaired(dep, steps[..m], steps[m].b.b);
      assert steps[..m][..i] == steps[..i];
    }
    KeepsBridge(s.jobs, Run(dep, steps).jobs, Run(dep, steps).handed[k]);
  }

  lemma KeepsBridge(jobs: map<Id, Job>, jobs': map<Id, Job>, j: Id)
    requires JobsGrow(jobs, jobs') && j in jobs
    ensures j in jobs' && jobs'[j].bridge == jobs[j].bridge
  {}

  lemma SubmitStep(s: State, step: Step, k: nat)
    ensures s.submitted <= Next(s, step).submitted
    ensures |s.submitted| <= k < |Next(s, step).submitted| ==>
              step.AtBridge? && step.b.DoSubmit?
              && step.b.b in s.bridges && s.bridges[step.b.b].hash == Sha256(step.b.secret)
              && Next(s, step).submitted[k] == Submission(step.b.b, step.b.j, step.b.answer)
  {
    hide DeskNext, AdminNext, BridgeNext, AtMostOneCall, Answered;
    match step
    case AtDesk(d) => DeskOneCall(s, d); OneCallHands(s, DeskNext(s, d));
    case ByAdmin(_) => AdminHands(s, step);
    case AtBridge(x) => if x.DoSubmit? { SubmitsOne(s, x.b, x.secret, x.j, x.answer, k); } else { OtherHands(s, x); }
  }

  lemma SubmitsOne(s: State, b: Id, secret: int, j: Id, answer: Answer, k: nat)
    ensures BridgeNext(s, DoSubmit(b, secret, j, answer)) == SubmitResult(s, b, secret, j, answer)
    ensures var submitted := SubmitResult(s, b, secret, j, answer).submitted;
            s.submitted <= submitted
            && (|s.submitted| <= k < |submitted| ==>
                  b in s.bridges && s.bridges[b].hash == Sha256(secret) && submitted[k] == Submission(b, j, answer))
  {}

  /** Every answer accepted in a run was submitted by a step that carried the secret drawn when its bridge
    * was paired. */
  lemma {:induction false} AcceptedUnderPairedSecret(dep: Deployment, steps: seq<Step>, k: nat)
    returns (n: nat, i: nat)
    requires k < |Run(dep, steps).submitted|
    ensures i < n < |steps| && steps[n].AtBridge? && steps[n].b.DoSubmit?
    ensures Drew(dep, steps, i, steps[n].b.b, steps[n].b.secret)
    ensures Run(dep, steps).submitted[k] == Submission(steps[n].b.b, steps[n].b.j, steps[n].b.answer)
  {
    hide Next;
    var m := |steps| - 1;
    var s := Run(dep, steps[..m]);
    SubmitStep(s, steps[m], k);
    if k < |s.submitted| {
      n, i := AcceptedUnderPairedSecret(dep, steps[..m], k);
      SamePrefixes(steps, m);
    } else {
      n := m;
      i := BridgeWasPaired(dep, steps[..m], steps[m].b.b);
      assert steps[..m][..i] == steps[..i];
    }
  }

  // --- a revoked bridge stays out ---------------------------------------------------------------------------

  /** An administrator changes and removes the bridges of his own desk, and those alone. */
  lemma OnlyTheDeskAdministers(s: State, desk: Id, b: Id, actions: seq<string>)
    ensures SetAllowed(s, desk, b, actions)
            == if b in s.bridges && s.bridges[b].desk == desk
               then s.(bridges := s.bridges[b := s.bridges[b].(allowed := Allowlist(actions))]) else s
    ensures Revoke(s, desk, b)
            == if b in s.bridges && s.bridges[b].desk == desk then s.(bridges := s.bridges - {b}) else s
  {
    hide OnlyBridges;
  }

  lemma NextGrows(s: State, step: Step)
    ensures s.next <= Next(s, step).next
  {
    hide DeskNext, BridgeNext, AdminNext;
    if step.AtDesk? { DeskOneCall(s, step.d); }
  }

  lemma {:induction false} BridgesBelow(dep: Deployment, steps: seq<Step>, b: Id)
    requires b in Run(dep, steps).bridges
    ensures b < Run(dep, steps).next
  {
    hide Next;
    var n := |steps| - 1;
    var s := Run(dep, steps[..n]);
    StepPairing(s, steps[n], b);
    NextGrows(s, steps[n]);
    if steps[n].AtBridge? && steps[n].b.DoPair? && b == s.next {
      PairGrows(s, steps[n].b.desk, steps[n].b.code);
    } else {
      BridgesBelow(dep, steps[..n], b);
    }
  }

  lemma PairGrows(s: State, desk: Id, code: string)
    ensures Next(s, AtBridge(DoPair(desk, code))).next == s.next + 2
  {
    hide OnlyBridges;
  }

  lemma {:induction false} AbsentStaysAbsent(dep: Deployment, steps: seq<Step>, b: Id, more: seq<Step>)
    requires b !in Run(dep, steps).bridges && b < Run(dep, steps).next
    ensures b !in Run(dep, steps + more).bridges && b < Run(dep, steps + more).next
    decreases |more|
  {
    hide Next, Run;
    if more == [] {
      assert steps + more == steps;
    } else {
      var n := |more| - 1;
      AbsentStaysAbsent(dep, steps, b, more[..n]);
      assert steps + more == steps + more[..n] + [more[n]];
      Takes(dep, steps + more[..n], more[n]);
      var s := Run(dep, steps + more[..n]);
      NextGrows(s, more[n]);
      if b in Next(s, more[n]).bridges { StepPairing(s, more[n], b); }
    }
  }

  /** Once its desk revoked a bridge, whatever happens afterwards: nothing its agent sends changes anything,
    * whatever secret it presents, and no call goes through it. */
  lemma RevokedBridgeStaysOut(dep: Deployment, steps: seq<Step>, desk: Id, b: Id, more: seq<Step>)
    requires b in Run(dep, steps).bridges && Run(dep, steps).bridges[b].desk == desk
    ensures var s := Run(dep, steps + [AtBridge(DoRevoke(desk, b))] + more);
            (forall step, secret :: Presents(step, b, secret) ==> Next(s, step) == s)
            && forall o, key, action, params, w ::
                 BridgeStart(s, o, b, key, action, params, w) == Refused(NoSuchBridge)
  {
    hide Run, Next, BridgeStart;
    var revoked := steps + [AtBridge(DoRevoke(desk, b))];
    BridgesBelow(dep, steps, b);
    Takes(dep, steps, AtBridge(DoRevoke(desk, b)));
    RevokedIsGone(Run(dep, steps), desk, b);
    AbsentStaysAbsent(dep, revoked, b, more);
    var s := Run(dep, revoked + more);
    forall step, secret | Presents(step, b, secret) ensures Next(s, step) == s { WrongDigest(s, step, b, secret); }
    forall o, key, action, params, w
      ensures BridgeStart(s, o, b, key, action, params, w) == Refused(NoSuchBridge)
    {
      NoBridgeNoCall(s, o, b, key, action, params, w);
    }
  }

  lemma RevokedIsGone(s: State, desk: Id, b: Id)
    requires b in s.bridges && s.bridges[b].desk == desk
    ensures var s' := Next(s, AtBridge(DoRevoke(desk, b))); b !in s'.bridges && s'.next == s.next
  {
    hide OnlyBridges;
  }

  lemma NoBridgeNoCall(s: State, o: Origin, b: Id, key: string, action: string, params: Payload, w: Await)
    requires b !in s.bridges
    ensures BridgeStart(s, o, b, key, action, params, w) == Refused(NoSuchBridge)
  {}

  // --- the code releases the secret -------------------------------------------------------------------------

  lemma {:induction false} FirstShowing(bridges: map<Id, Bridge>, code: string, from: Id, upto: Id, b: Id)
    ensures FirstWithCode(bridges, code, from, upto) == Some(b)
            <==> from <= b < upto && Shows(bridges, b, code) && forall a :: from <= a < b ==> !Shows(bridges, a, code)
    decreases upto - from
  {
    if from < upto {
      FirstShowing(bridges, code, from + 1, upto, b);
      if Shows(bridges, from, code) { assert from < b ==> Shows(bridges, from, code); }
    }
  }

  predicate Shows(bridges: map<Id, Bridge>, b: Id, code: string) {
    b in bridges && bridges[b].code != "" && bridges[b].code == code
  }

  /** A code as typed releases a secret exactly when, stripped and in capitals, it is not empty and the
    * first bridge that shows it still holds that secret and has not expired. */
  lemma ClaimTokenIff(s: State, typed: string, b: Id, secret: int)
    ensures var code := Strings.Upper(Strings.Strip(typed));
            ClaimToken(s, typed) == Some((b, secret))
            <==> code != "" && 0 <= b < s.next && Shows(s.bridges, b, code)
                 && (forall a :: 0 <= a < b ==> !Shows(s.bridges, a, code))
                 && s.bridges[b].pairSecret == Some(secret)
                 && (s.bridges[b].expires.Some? ==> s.now <= s.bridges[b].expires.value)
  {
    hide Shows;
    var code := Normalise(typed);
    forall a { FirstShowing(s.bridges, code, 0, s.next, a); }
    forall a ensures Shows(s.bridges, a, code) ==> a in s.bridges { ShownIsThere(s.bridges, a, code); }
  }

  /** A code may be typed in either case and with white space around it. */
  lemma TypedAnyWay(s: State, before: string, typed: string, after: string, code: string)
    requires Strings.AllBlank(before) && Strings.AllBlank(after) && Strings.Trimmed(typed) && Strings.Trimmed(code)
    requires |typed| == |code| && forall i :: 0 <= i < |code| ==> Strings.SameLetter(typed[i], code[i])
    ensures ClaimToken(s, before + typed + after) == ClaimToken(s, code)
  {
    hide FirstWithCode, Strings.Upper, Strings.Strip;
    Strings.StripIs(before, typed, after);
    Strings.StripIs("", code, "");
    assert "" + code + "" == code;
    Strings.SameCapitalsIff(typed, code);
  }

  /** And a code in capitals, typed as it was drawn, is looked up as it was drawn. */
  lemma DrawnCodeIsLookedUp(code: string)
    requires Strings.Trimmed(code) && forall i :: 0 <= i < |code| ==> !('a' <= code[i] <= 'z')
    ensures Normalise(code) == code
  {
    Strings.StripIs("", code, "");
    assert "" + code + "" == code;
    Strings.CapitalsStay(code);
  }

  lemma ShownIsThere(bridges: map<Id, Bridge>, b: Id, code: string)
    ensures Shows(bridges, b, code) ==> b in bridges && bridges[b].code == code
  {}

  /** Over every run: what a typed code releases is the secret drawn at the pairing that drew this code,
    * and no later than half an hour after it. */
  lemma CodeReleasesItsPairing(dep: Deployment, steps: seq<Step>, typed: string) returns (i: nat)
    requires ClaimToken(Run(dep, steps), typed).Some?
    ensures var t := ClaimToken(Run(dep, steps), typed).value;
            Drew(dep, steps, i, t.0, t.1) && steps[i].b.code == Strings.Upper(Strings.Strip(typed)) != ""
            && Run(dep, steps).now <= Before(dep, steps, i).now + 1800
  {
    hide Run, ClaimToken, Strings.Upper, Strings.Strip;
    var s := Run(dep, steps);
    var t := ClaimToken(s, typed).value;
    ClaimTokenIff(s, typed, t.0, t.1);
    i := BridgeWasPaired(dep, steps, t.0);
  }
}
