/** Refresh-token rotation over the session table.
  *
  * A session row is keyed by its unique token hash. A refresh commits twice: `Rotate` looks the
  * token up and revokes its session, `IssueOwed` inserts the successor. Other requests may run in
  * between, and the process may die there (`Drop`). History fields record which login each
  * session descends from and which raw tokens won a refresh.
  */
module Sessions {
  import opened Options

  type Id = int
  datatype Digest = Sha256(raw: int)

  datatype Session = Session(op: Id, expires: int, active: bool, revokedAt: Option<int>)
  datatype Owed = Owed(op: Id, login: Id)

  datatype State = State(
    now: int,
    ttl: int,
    operators: map<Id, bool>,             // operator -> is_active
    sessions: map<Digest, Session>,
    next: Id,
    logins: map<Id, Id>,                  // history: login -> operator
    lineage: map<Digest, Id>,             // history: session -> the login it descends from
    owed: map<Id, Owed>,                  // refreshes between their two commits
    wins: seq<int>)                       // history: raw tokens that won a refresh

  function Init(ttl: int): State { State(0, ttl, map[], map[], 0, map[], map[], map[], []) }

  // --- token_manager.py -------------------------------------------------------------------

  /** `issue`: a fresh raw token and an active session. */
  function Issue(s: State, op: Id, login: Id): State {
    var h := Sha256(s.next);
    s.(sessions := s.sessions[h := Session(op, s.now + s.ttl, true, None)],
       lineage := s.lineage[h := login], next := s.next + 1)
  }

  function Login(s: State, op: Id): State {
    if op !in s.operators || !s.operators[op] then s
    else Issue(s.(logins := s.logins[s.next := op], next := s.next + 1), op, s.next)
  }

  function RevokeSession(s: State, h: Digest): State
    requires h in s.sessions
  {
    s.(sessions := s.sessions[h := s.sessions[h].(active := false, revokedAt := Some(s.now))])
  }

  datatype Verdict = NotFound | Revoked | Expired | Inactive | Rotates

  function Judge(s: State, raw: int): Verdict {
    var h := Sha256(raw);
    if h !in s.sessions then NotFound
    else if !s.sessions[h].active then Revoked
    else if s.now > s.sessions[h].expires then Expired
    else if s.sessions[h].op !in s.operators || !s.operators[s.sessions[h].op] then Inactive
    else Rotates
  }

  /** `refresh` up to its first commit. */
  function Rotate(s: State, raw: int): State {
    var h := Sha256(raw);
    match Judge(s, raw)
    case Inactive => if h in s.sessions then RevokeSession(s, h) else s
    case Rotates =>
      if h in s.sessions && h in s.lineage then
        RevokeSession(s, h).(owed := s.owed[s.next := Owed(s.sessions[h].op, s.lineage[h])],
                             wins := s.wins + [raw], next := s.next + 1)
      else s
    case _ => s
  }

  /** The second commit of a refresh. */
  function IssueOwed(s: State, t: Id): State {
    if t !in s.owed then s else Issue(s.(owed := s.owed - {t}), s.owed[t].op, s.owed[t].login)
  }

  function Drop(s: State, t: Id): State { s.(owed := s.owed - {t}) }

  /** `revoke` (logout): a no-op on unknown or already revoked tokens. */
  function Logout(s: State, raw: int): State {
    var h := Sha256(raw);
    if h !in s.sessions || !s.sessions[h].active then s else RevokeSession(s, h)
  }

  /** `revoke_all_for_operator`. */
  function RevokeAll(s: State, op: Id): State {
    s.(sessions := map h | h in s.sessions ::
         if s.sessions[h].op == op && s.sessions[h].active
         then s.sessions[h].(active := false, revokedAt := Some(s.now)) else s.sessions[h])
  }

  // --- steps and runs ------------------------------------------------------------------------

  datatype Step =
    | DoLogin(op: Id) | DoRotate(raw: int) | DoIssue(t: Id) | DoDrop(t: Id) | DoLogout(raw: int)
    | DoRevokeAll(op: Id) | DoSetActive(op: Id, active: bool) | DoDelete(op: Id) | DoTick(d: nat)

  function Next(s: State, step: Step): State {
    match step
    case DoLogin(op) => Login(s, op)
    case DoRotate(raw) => Rotate(s, raw)
    case DoIssue(t) => IssueOwed(s, t)
    case DoDrop(t) => Drop(s, t)
    case DoLogout(raw) => Logout(s, raw)
    case DoRevokeAll(op) => RevokeAll(s, op)
    case DoSetActive(op, active) => s.(operators := s.operators[op := active])
    case DoDelete(op) => s.(operators := s.operators - {op})
    case DoTick(d) => s.(now := s.now + d)
  }

  function Run(ttl: int, steps: seq<Step>): State {
    if steps == [] then Init(ttl) else Next(Run(ttl, steps[..|steps| - 1]), steps[|steps| - 1])
  }

  // --- the invariant -----------------------------------------------------------------------------

  ghost predicate SessionsOk(sessions: map<Digest, Session>, lineage: map<Digest, Id>, logins: map<Id, Id>, next: Id) {
    && sessions.Keys == lineage.Keys
    && (forall h :: h in sessions ==> h.raw < next)
    && (forall h :: h in sessions ==> lineage[h] in logins && logins[lineage[h]] == sessions[h].op)
    && (forall h :: h in sessions ==> (sessions[h].active <==> sessions[h].revokedAt.None?))
  }

  /** A login has one live descendant at most: an active session, or a refresh between its commits. */
  ghost predicate OneHeir(sessions: map<Digest, Session>, lineage: map<Digest, Id>, owed: map<Id, Owed>)
    requires sessions.Keys == lineage.Keys
  {
    && (forall h, g :: h in sessions && g in sessions && sessions[h].active && sessions[g].active
                          && lineage[h] == lineage[g]
          ==> h == g)
    && (forall h, t :: h in sessions && t in owed && sessions[h].active ==> lineage[h] != owed[t].login)
    && (forall t, u :: t in owed && u in owed && owed[t].login == owed[u].login ==> t == u)
  }

  ghost predicate OwedOk(owed: map<Id, Owed>, logins: map<Id, Id>, next: Id) {
    forall t :: t in owed ==> t < next && owed[t].login in logins && logins[owed[t].login] == owed[t].op
  }

  ghost predicate WinsOk(wins: seq<int>, sessions: map<Digest, Session>) {
    && (forall i, k :: 0 <= i < k < |wins| ==> wins[i] != wins[k])
    && (forall raw :: raw in wins ==> Sha256(raw) in sessions && !sessions[Sha256(raw)].active)
  }

  ghost predicate Inv(s: State) {
    && SessionsOk(s.sessions, s.lineage, s.logins, s.next)
    && (forall l :: l in s.logins ==> l < s.next)
    && OwedOk(s.owed, s.logins, s.next)
    && OneHeir(s.sessions, s.lineage, s.owed)
    && WinsOk(s.wins, s.sessions)
  }

  /** A revoked session stays revoked, and no session disappears or changes hands. */
  ghost predicate StaysRevoked(s: State, s': State) {
    forall h :: h in s.sessions ==>
      h in s'.sessions && s'.sessions[h].op == s.sessions[h].op && (s'.sessions[h].active ==> s.sessions[h].active)
  }

  lemma IssueInv(s: State, op: Id, login: Id)
    requires Inv(s) && login in s.logins && s.logins[login] == op
    requires forall h :: h in s.sessions && s.sessions[h].active ==> s.lineage[h] != login
    requires forall t :: t in s.owed ==> s.owed[t].login != login
    ensures Inv(Issue(s, op, login)) && StaysRevoked(s, Issue(s, op, login))
  {
    assert Sha256(s.next) !in s.sessions;
  }

  lemma RevokeInv(s: State, h: Digest)
    requires Inv(s) && h in s.sessions
    ensures Inv(RevokeSession(s, h)) && StaysRevoked(s, RevokeSession(s, h))
  {}

  lemma LoginInv(s: State, op: Id)
    requires Inv(s)
    ensures Inv(Login(s, op)) && StaysRevoked(s, Login(s, op))
  {
    hide Issue;
    if op in s.operators && s.operators[op] {
      var s1 := s.(logins := s.logins[s.next := op], next := s.next + 1);
      assert Inv(s1);
      IssueInv(s1, op, s.next);
    }
  }

  lemma RotateInv(s: State, raw: int)
    requires Inv(s)
    ensures Inv(Rotate(s, raw)) && StaysRevoked(s, Rotate(s, raw))
  {
    hide SessionsOk, OwedOk, OneHeir, WinsOk, StaysRevoked;
    var h := Sha256(raw);
    if h in s.sessions { RevokeInv(s, h); }
    StaysAsItIs(s);
    if Judge(s, raw).Rotates? { WonInv(s, raw); }
  }

  lemma StaysAsItIs(s: State)
    ensures StaysRevoked(s, s)
  {}

  /** A won refresh revokes its session and owes its login a successor. */
  lemma WonInv(s: State, raw: int)
    requires Inv(s) && Judge(s, raw).Rotates?
    ensures Inv(Rotate(s, raw)) && StaysRevoked(s, Rotate(s, raw))
  {
    hide SessionsOk, OwedOk, OneHeir, WinsOk, StaysRevoked;
    var h := Sha256(raw);
    KnownSession(s, h);
    var r := s.sessions[h].(active := false, revokedAt := Some(s.now));
    RevokedStays(s, Rotate(s, raw), h, r);
    RevokedSession(s.sessions, s.lineage, s.logins, s.next, h, r);
    NewOwed(s.owed, s.logins, s.next, s.sessions[h].op, s.lineage[h]);
    HeirHandsOver(s, h, r);
    NewWin(s.wins, s.sessions, raw, r);
  }

  lemma KnownSession(s: State, h: Digest)
    requires Inv(s) && h in s.sessions
    ensures s.sessions.Keys == s.lineage.Keys && h in s.lineage
    ensures s.lineage[h] in s.logins && s.logins[s.lineage[h]] == s.sessions[h].op
    ensures forall l :: l in s.logins ==> l < s.next
    ensures forall t :: t in s.owed ==> t < s.next
  {}

  lemma RevokedStays(s: State, s': State, h: Digest, r: Session)
    requires h in s.sessions && r.op == s.sessions[h].op && !r.active && s'.sessions == s.sessions[h := r]
    ensures StaysRevoked(s, s')
  {}

  lemma RevokedSession(sessions: map<Digest, Session>, lineage: map<Digest, Id>, logins: map<Id, Id>, next: Id,
                       h: Digest, r: Session)
    requires SessionsOk(sessions, lineage, logins, next) && h in sessions
    requires r.op == sessions[h].op && !r.active && r.revokedAt.Some?
    ensures SessionsOk(sessions[h := r], lineage, logins, next + 1)
  {}

  lemma NewOwed(owed: map<Id, Owed>, logins: map<Id, Id>, next: Id, op: Id, login: Id)
    requires OwedOk(owed, logins, next) && login in logins && logins[login] == op
    ensures OwedOk(owed[next := Owed(op, login)], logins, next + 1)
  {}

  lemma HeirHandsOver(s: State, h: Digest, r: Session)
    requires s.sessions.Keys == s.lineage.Keys && OneHeir(s.sessions, s.lineage, s.owed)
    requires h in s.sessions && s.sessions[h].active && !r.active && forall t :: t in s.owed ==> t < s.next
    ensures OneHeir(s.sessions[h := r], s.lineage, s.owed[s.next := Owed(s.sessions[h].op, s.lineage[h])])
  {}

  lemma NewWin(wins: seq<int>, sessions: map<Digest, Session>, raw: int, r: Session)
    requires WinsOk(wins, sessions) && Sha256(raw) in sessions && sessions[Sha256(raw)].active && !r.active
    ensures WinsOk(wins + [raw], sessions[Sha256(raw) := r])
  {
    assert raw !in wins;
  }

  lemma IssueOwedInv(s: State, t: Id)
    requires Inv(s)
    ensures Inv(IssueOwed(s, t)) && StaysRevoked(s, IssueOwed(s, t)) && Inv(Drop(s, t)) && StaysRevoked(s, Drop(s, t))
  {
    hide Issue;
    assert Inv(Drop(s, t));
    if t in s.owed { IssueInv(Drop(s, t), s.owed[t].op, s.owed[t].login); }
  }

  lemma InvKept(s: State, step: Step)
    requires Inv(s)
    ensures Inv(Next(s, step)) && StaysRevoked(s, Next(s, step))
  {
    hide Login, Rotate, IssueOwed, Drop, Logout, RevokeAll, Inv, StaysRevoked;
    match step
    case DoLogin(op) => LoginInv(s, op);
    case DoRotate(raw) => RotateInv(s, raw);
    case DoIssue(t) => IssueOwedInv(s, t);
    case DoDrop(t) => IssueOwedInv(s, t);
    case DoLogout(raw) => LogoutInv(s, raw);
    case DoRevokeAll(op) => RevokeAllInv(s, op);
    case _ => OperatorsInv(s, Next(s, step));
  }

  lemma LogoutInv(s: State, raw: int)
    requires Inv(s)
    ensures Inv(Logout(s, raw)) && StaysRevoked(s, Logout(s, raw))
  {
    hide Inv, StaysRevoked, RevokeSession;
    StaysAsItIs(s);
    if Sha256(raw) in s.sessions { RevokeInv(s, Sha256(raw)); }
  }

  lemma RevokeAllInv(s: State, op: Id)
    requires Inv(s)
    ensures Inv(RevokeAll(s, op)) && StaysRevoked(s, RevokeAll(s, op))
  {}

  lemma OperatorsInv(s: State, s': State)
    requires Inv(s) && s'.sessions == s.sessions && s'.lineage == s.lineage && s'.logins == s.logins
    requires s'.next == s.next && s'.owed == s.owed && s'.wins == s.wins
    ensures Inv(s') && StaysRevoked(s, s')
  {}

  lemma {:induction false} RunInv(ttl: int, steps: seq<Step>)
    ensures Inv(Run(ttl, steps))
  {
    hide Inv, Next;
    if steps == [] {
      InitInv(ttl);
    } else {
      RunInv(ttl, steps[..|steps| - 1]);
      InvKept(Run(ttl, steps[..|steps| - 1]), steps[|steps| - 1]);
    }
  }

  lemma InitInv(ttl: int)
    ensures Inv(Init(ttl))
  {}

  // --- the promises over whole runs ------------------------------------------------------------------

  /** In every state of every run, also between the two commits of a refresh, each login has at
    * most one live heir, and each raw token has won at most one refresh. */
  lemma RotationIsLinear(ttl: int, steps: seq<Step>)
    ensures var s := Run(ttl, steps);
            && s.sessions.Keys == s.lineage.Keys
            && OneHeir(s.sessions, s.lineage, s.owed)
            && (forall i, k :: 0 <= i < k < |s.wins| ==> s.wins[i] != s.wins[k])
  {
    RunInv(ttl, steps);
  }

  /** Once revoked, a session is inactive in every later state of the run. */
  lemma {:induction false} RevokedForever(ttl: int, steps: seq<Step>, i: nat, h: Digest)
    requires i <= |steps|
    requires var s := Run(ttl, steps[..i]); h in s.sessions && !s.sessions[h].active
    ensures var s := Run(ttl, steps); h in s.sessions && !s.sessions[h].active
  {
    hide Next;
    if i < |steps| {
      var n := |steps| - 1;
      assert steps[..n][..i] == steps[..i];
      RevokedForever(ttl, steps[..n], i, h);
      RunInv(ttl, steps[..n]);
      InvKept(Run(ttl, steps[..n]), steps[n]);
    } else {
      assert steps[..i] == steps;
    }
  }

  ghost function ActiveOf(s: State, op: Id): set<Digest> {
    set h | h in s.sessions && s.sessions[h].op == op && s.sessions[h].active
  }

  ghost function LoginsOf(s: State, op: Id): set<Id> { set l | l in s.logins && s.logins[l] == op }

  /** A map that is one-to-one on xs and lands in ys shows |xs| <= |ys|. */
  lemma {:induction false} OneToOne<X(!new), Y(!new)>(xs: set<X>, ys: set<Y>, f: map<X, Y>)
    requires forall x :: x in xs ==> x in f && f[x] in ys
    requires forall x, x' :: x in xs && x' in xs && f[x] == f[x'] ==> x == x'
    ensures |xs| <= |ys|
  {
    if xs != {} {
      var x :| x in xs;
      OneToOne(xs - {x}, ys - {f[x]}, f);
    }
  }

  /** An operator's active sessions never outnumber their logins. */
  lemma ActiveAtMostLogins(ttl: int, steps: seq<Step>, op: Id)
    ensures var s := Run(ttl, steps); |ActiveOf(s, op)| <= |LoginsOf(s, op)|
  {
    RunInv(ttl, steps);
    var s := Run(ttl, steps);
    OneToOne(ActiveOf(s, op), LoginsOf(s, op), s.lineage);
  }

  /** A refresh of an active session leaves it active exactly when it had expired: an expired
    * session is refused without being revoked. */
  lemma RefreshRevokesUnlessExpired(s: State, raw: int)
    requires Inv(s) && Sha256(raw) in s.sessions && s.sessions[Sha256(raw)].active
    ensures var s' := Rotate(s, raw);
            Sha256(raw) in s'.sessions
            && (s'.sessions[Sha256(raw)].active <==> s.now > s.sessions[Sha256(raw)].expires)
  {}

  /** A token that rotates has never won before. */
  lemma NeverWonTwice(s: State, raw: int)
    requires Inv(s)
    ensures Judge(s, raw).Rotates? ==> raw !in s.wins && raw < s.next && Sha256(raw) in s.lineage
  {}

  lemma StepIsRotate(s: State, raw: int)
    ensures Next(s, DoRotate(raw)) == Rotate(s, raw)
  {
    hide Rotate;
  }

  lemma StepIsIssue(s: State, t: Id)
    ensures Next(s, DoIssue(t)) == IssueOwed(s, t)
  {
    hide IssueOwed;
  }

  /** Such a session is reachable: it lives ten seconds, is refreshed after eleven, and is still active. */
  lemma ExpiredSessionStaysActive()
    ensures var s := Run(10, [DoSetActive(7, true), DoLogin(7), DoTick(11), DoRotate(1)]);
            Sha256(1) in s.sessions && s.sessions[Sha256(1)].active && s.now > s.sessions[Sha256(1)].expires
            && s.wins == []
  {
    var run := [DoSetActive(7, true), DoLogin(7), DoTick(11), DoRotate(1)];
    assert run[..1] == [run[0]] && run[..2] == run[..1] + [run[1]];
    assert run[..3] == run[..2] + [run[2]] && run == run[..3] + [run[3]];
    RunSnoc(10, [], run[0]);
    assert [] + [run[0]] == [run[0]];
    RunSnoc(10, run[..1], run[1]);
    RunSnoc(10, run[..2], run[2]);
    RunSnoc(10, run[..3], run[3]);
  }

  /** A raw token wins exactly when it is known, active, unexpired and its operator is enabled. */
  lemma WinsIff(s: State, raw: int)
    requires Inv(s)
    ensures var h := Sha256(raw);
            Rotate(s, raw).wins == s.wins + [raw] <==>
              h in s.sessions && s.sessions[h].active && s.now <= s.sessions[h].expires
              && s.sessions[h].op in s.operators && s.operators[s.sessions[h].op]
  {
    assert s.wins != s.wins + [raw];
  }

  /** A step gives a disabled operator a new active session exactly when it is the second commit
    * of a refresh whose first commit came before the operator was disabled. */
  lemma DisabledGainsOnlyOwed(s: State, step: Step, op: Id)
    requires Inv(s) && !(op in s.operators && s.operators[op])
    ensures (exists h :: h in ActiveOf(Next(s, step), op) && h !in ActiveOf(s, op))
            <==> step.DoIssue? && step.t in s.owed && s.owed[step.t].op == op
  {
    hide Inv;
    InvKept(s, step);
    NextIsFresh(s);
    match step
    case DoIssue(t) =>
      if t in s.owed && s.owed[t].op == op {
        assert Sha256(s.next) in ActiveOf(Next(s, step), op) && Sha256(s.next) !in ActiveOf(s, op);
      }
    case _ =>
  }

  // --- a late heir -------------------------------------------------------------------------------

  predicate Enabled(s: State, op: Id) { op in s.operators && s.operators[op] }

  /** The refresh that owes this successor. */
  lemma {:induction false} OwedWasWon(ttl: int, steps: seq<Step>, t: Id) returns (i: nat)
    requires t in Run(ttl, steps).owed
    ensures i < |steps| && steps[i].DoRotate? && Judge(Run(ttl, steps[..i]), steps[i].raw).Rotates?
    ensures Run(ttl, steps[..i]).next == t
    ensures Run(ttl, steps[..i]).sessions[Sha256(steps[i].raw)].op == Run(ttl, steps).owed[t].op
  {
    hide Judge, Issue, RevokeSession, Run;
    FirstRun(ttl);
    var n := |steps| - 1;
    assert steps != [];
    LastRun(ttl, steps);
    var s := Run(ttl, steps[..n]);
    OwedStep(s, steps[n], t);
    if t in s.owed && s.owed[t] == Run(ttl, steps).owed[t] {
      i := OwedWasWon(ttl, steps[..n], t);
      assert steps[..n][..i] == steps[..i];
    } else {
      i := n;
    }
  }

  lemma FirstRun(ttl: int)
    ensures Run(ttl, []) == Init(ttl)
  {}

  lemma LastRun(ttl: int, steps: seq<Step>)
    requires steps != []
    ensures Run(ttl, steps) == Next(Run(ttl, steps[..|steps| - 1]), steps[|steps| - 1])
  {
    hide Next;
  }

  lemma OwedStep(s: State, step: Step, t: Id)
    requires t in Next(s, step).owed
    ensures (t in s.owed && s.owed[t] == Next(s, step).owed[t])
            || (step.DoRotate? && Judge(s, step.raw).Rotates? && s.next == t
                && s.sessions[Sha256(step.raw)].op == Next(s, step).owed[t].op)
  {}

  /** The step that disabled an operator who was enabled before. */
  lemma {:induction false} WasDisabled(ttl: int, steps: seq<Step>, i: nat, op: Id) returns (j: nat)
    requires i <= |steps| && Enabled(Run(ttl, steps[..i]), op) && !Enabled(Run(ttl, steps), op)
    ensures i <= j < |steps| && (steps[j] == DoSetActive(op, false) || steps[j] == DoDelete(op))
  {
    hide Run, Next;
    assert steps[..|steps|] == steps;
    var n := |steps| - 1;
    LastRun(ttl, steps);
    DisablingStep(Run(ttl, steps[..n]), steps[n], op);
    if Enabled(Run(ttl, steps[..n]), op) {
      j := n;
    } else {
      assert steps[..n][..i] == steps[..i];
      j := WasDisabled(ttl, steps[..n], i, op);
    }
  }

  lemma DisablingStep(s: State, step: Step, op: Id)
    ensures Enabled(s, op) && !Enabled(Next(s, step), op) ==> step == DoSetActive(op, false) || step == DoDelete(op)
  {}

  /** If a run's last step gives a disabled operator a new active session, it is the second commit of a
    * refresh won while the operator was enabled, and the operator was disabled between the two. */
  lemma LateHeirWasWonBefore(ttl: int, steps: seq<Step>, step: Step, op: Id) returns (i: nat, j: nat)
    requires var s := Run(ttl, steps);
             !Enabled(s, op) && exists h :: h in ActiveOf(Next(s, step), op) && h !in ActiveOf(s, op)
    ensures step.DoIssue? && i < j < |steps|
    ensures steps[i].DoRotate? && Judge(Run(ttl, steps[..i]), steps[i].raw).Rotates?
            && Enabled(Run(ttl, steps[..i]), op)
    ensures Run(ttl, steps[..i]).next == step.t && Run(ttl, steps[..i]).sessions[Sha256(steps[i].raw)].op == op
    ensures steps[j] == DoSetActive(op, false) || steps[j] == DoDelete(op)
  {
    hide Inv, Next, Run, ActiveOf;
    RunInv(ttl, steps);
    DisabledGainsOnlyOwed(Run(ttl, steps), step, op);
    i := OwedWasWon(ttl, steps, step.t);
    j := WasDisabled(ttl, steps, i, op);
  }

  lemma NextIsFresh(s: State)
    requires Inv(s)
    ensures Sha256(s.next) !in s.sessions
  {}

  lemma RunSnoc(ttl: int, steps: seq<Step>, step: Step)
    ensures Run(ttl, steps + [step]) == Next(Run(ttl, steps), step)
  {
    assert (steps + [step])[..|steps|] == steps;
  }

  /** So disabling an operator and revoking all their sessions between the two commits of a refresh
    * leaves the disabled operator with an active session. */
  lemma DisabledOperatorKeepsSession()
    ensures var s := Run(10, [DoSetActive(7, true), DoLogin(7), DoRotate(1), DoSetActive(7, false), DoRevokeAll(7),
                             DoIssue(2)]);
            7 in s.operators && !s.operators[7] && ActiveOf(s, 7) != {}
  {
    var run := [DoSetActive(7, true), DoLogin(7), DoRotate(1), DoSetActive(7, false), DoRevokeAll(7), DoIssue(2)];
    assert run[..1] == [run[0]] && run[..2] == run[..1] + [run[1]] && run[..3] == run[..2] + [run[2]];
    assert run[..4] == run[..3] + [run[3]] && run[..5] == run[..4] + [run[4]] && run == run[..5] + [run[5]];
    RunSnoc(10, [], run[0]);
    assert [] + [run[0]] == [run[0]];
    RunSnoc(10, run[..1], run[1]);
    RunSnoc(10, run[..2], run[2]);
    RunSnoc(10, run[..3], run[3]);
    RunSnoc(10, run[..4], run[4]);
    RunSnoc(10, run[..5], run[5]);
    assert Run(10, run[..2]).next == 2;
    assert Run(10, run[..3]).owed == map[2 := Owed(7, 0)];
    assert Sha256(3) in ActiveOf(Run(10, run), 7);
  }

  // --- what one operation does to the table ---------------------------------------------------------

  /** Nothing but the session table differs. */
  ghost predicate OnlySessions(s: State, s': State) {
    s'.now == s.now && s'.ttl == s.ttl && s'.operators == s.operators && s'.next == s.next && s'.logins == s.logins
    && s'.lineage == s.lineage && s'.owed == s.owed && s'.wins == s.wins
  }

  /** Logout revokes the token's session if it is known and active, now, and touches nothing else. */
  lemma LogoutIs(s: State, raw: int)
    ensures var h, s' := Sha256(raw), Logout(s, raw);
            OnlySessions(s, s')
            && s'.sessions == if h in s.sessions && s.sessions[h].active
                              then s.sessions[h := Session(s.sessions[h].op, s.sessions[h].expires, false, Some(s.now))]
                              else s.sessions
  {}

  /** Revoking an operator's sessions revokes, now, exactly the active ones of that operator. */
  lemma RevokeAllIs(s: State, op: Id)
    ensures var s' := RevokeAll(s, op);
            OnlySessions(s, s') && s'.sessions.Keys == s.sessions.Keys
            && forall h :: h in s.sessions ==>
                 var was := s.sessions[h];
                 s'.sessions[h] == if was.active && was.op == op
                                   then Session(was.op, was.expires, false, Some(s.now)) else was
  {}

  /** A login of an enabled operator adds one active session of theirs that lives for the ttl; of any other
    * it does nothing. */
  lemma LoginIs(s: State, op: Id)
    ensures var s' := Login(s, op);
            if Enabled(s, op)
            then s'.sessions == s.sessions[Sha256(s.next + 1) := Session(op, s.now + s.ttl, true, None)]
                 && s'.next == s.next + 2 && s'.operators == s.operators
            else s' == s
  {}

  /** The second commit of a refresh adds one active session, for the operator and login of the session that
    * was given up, that lives for the ttl from then. */
  lemma HeirIs(s: State, t: Id)
    requires t in s.owed
    ensures var s' := IssueOwed(s, t);
            s'.sessions == s.sessions[Sha256(s.next) := Session(s.owed[t].op, s.now + s.ttl, true, None)]
            && s'.lineage == s.lineage[Sha256(s.next) := s.owed[t].login]
            && s'.owed == s.owed - {t} && s'.next == s.next + 1 && s'.operators == s.operators && s'.wins == s.wins
  {}

  /** The first commit of a refresh that wins gives the session up, now, and owes its operator and login a
    * successor. */
  lemma RotationIs(s: State, raw: int)
    requires Inv(s) && Judge(s, raw).Rotates?
    ensures var h, s' := Sha256(raw), Rotate(s, raw);
            s'.sessions == s.sessions[h := Session(s.sessions[h].op, s.sessions[h].expires, false, Some(s.now))]
            && s'.owed == s.owed[s.next := Owed(s.sessions[h].op, s.lineage[h])] && s'.wins == s.wins + [raw]
  {}

  // --- a logged-out token is worth nothing ----------------------------------------------------------------

  lemma InactiveWinsNothing(s: State, step: Step, raw: int)
    requires Inv(s) && Sha256(raw) in s.sessions && !s.sessions[Sha256(raw)].active
    ensures Judge(s, raw).Revoked? && (raw in Next(s, step).wins <==> raw in s.wins)
  {
    hide Inv, Login, IssueOwed, Logout, RevokeAll;
    KeepsWins(s, step);
  }

  lemma KeepsWins(s: State, step: Step)
    ensures !step.DoRotate? ==> Next(s, step).wins == s.wins
  {}

  /** After a logout of a known token its session is inactive and the token wins no refresh, in every
    * continuation of the run. */
  lemma {:induction false} LoggedOutNeverWins(ttl: int, steps: seq<Step>, raw: int, more: seq<Step>)
    requires Sha256(raw) in Run(ttl, steps).sessions
    ensures var s, s' := Run(ttl, steps), Run(ttl, steps + [DoLogout(raw)] + more);
            Sha256(raw) in s'.sessions && !s'.sessions[Sha256(raw)].active && Judge(s', raw) == Revoked
            && (raw in s'.wins <==> raw in s.wins)
    decreases |more|
  {
    hide Inv, Next, Run;
    var out := steps + [DoLogout(raw)];
    if more == [] {
      assert out + more == out;
      RunSnoc(ttl, steps, DoLogout(raw));
      StepIsLogout(Run(ttl, steps), raw);
      LogoutIs(Run(ttl, steps), raw);
    } else {
      var n := |more| - 1;
      LoggedOutNeverWins(ttl, steps, raw, more[..n]);
      assert out + more == out + more[..n] + [more[n]];
      RunSnoc(ttl, out + more[..n], more[n]);
      RunInv(ttl, out + more[..n]);
      InactiveWinsNothing(Run(ttl, out + more[..n]), more[n], raw);
      InvKept(Run(ttl, out + more[..n]), more[n]);
    }
  }

  lemma StepIsLogout(s: State, raw: int)
    ensures Next(s, DoLogout(raw)) == Logout(s, raw)
  {
    hide Logout;
  }

  // --- a fresh token is good for its ttl --------------------------------------------------------------------

  /** A step that does not end this session: no logout, refresh or revocation of it, and no disabling of its
    * operator. */
  predicate Spares(step: Step, op: Id, raw: int) {
    step != DoLogout(raw) && step != DoRotate(raw) && step != DoRevokeAll(op) && step != DoSetActive(op, false)
    && step != DoDelete(op)
  }

  /** The token's session of this operator lives until then. */
  ghost predicate Lives(s: State, op: Id, raw: int, until: int) {
    Sha256(raw) in s.sessions && s.sessions[Sha256(raw)] == Session(op, until, true, None) && Enabled(s, op)
  }

  lemma SparedLives(s: State, step: Step, op: Id, raw: int, until: int)
    requires SessionsOk(s.sessions, s.lineage, s.logins, s.next) && Lives(s, op, raw, until) && Spares(step, op, raw)
    ensures Lives(Next(s, step), op, raw, until)
  {
    hide SessionsOk;
    TokensBelow(s);
  }

  lemma TokensBelow(s: State)
    requires SessionsOk(s.sessions, s.lineage, s.logins, s.next)
    ensures forall h :: h in s.sessions ==> h.raw < s.next
  {}

  /** The token of a login refreshes as long as nothing ends its session, until its ttl is over, and is
    * refused as expired from then on. */
  lemma {:induction false} FreshTokenLastsItsTtl(ttl: int, steps: seq<Step>, op: Id, more: seq<Step>)
    requires Enabled(Run(ttl, steps), op)
    requires forall k :: 0 <= k < |more| ==> Spares(more[k], op, Run(ttl, steps).next + 1)
    ensures var s, s' := Run(ttl, steps), Run(ttl, steps + [DoLogin(op)] + more);
            Lives(s', op, s.next + 1, s.now + ttl)
            && Judge(s', s.next + 1) == if s'.now <= s.now + ttl then Rotates else Expired
    decreases |more|
  {
    hide Inv, Next, Run;
    var s, issued := Run(ttl, steps), steps + [DoLogin(op)];
    if more == [] {
      assert issued + more == issued;
      RunSnoc(ttl, steps, DoLogin(op));
      StepIsLogin(s, op);
      LoginIs(s, op);
      RunTtl(ttl, steps);
    } else {
      var n := |more| - 1;
      FreshTokenLastsItsTtl(ttl, steps, op, more[..n]);
      assert issued + more == issued + more[..n] + [more[n]];
      RunSnoc(ttl, issued + more[..n], more[n]);
      RunInv(ttl, issued + more[..n]);
      InvSessions(Run(ttl, issued + more[..n]));
      SparedLives(Run(ttl, issued + more[..n]), more[n], op, s.next + 1, s.now + ttl);
    }
  }

  lemma InvSessions(s: State)
    requires Inv(s)
    ensures SessionsOk(s.sessions, s.lineage, s.logins, s.next)
  {}

  lemma StepIsLogin(s: State, op: Id)
    ensures Next(s, DoLogin(op)) == Login(s, op)
  {
    hide Login;
  }

  lemma {:induction false} RunTtl(ttl: int, steps: seq<Step>)
    ensures Run(ttl, steps).ttl == ttl
  {
    if steps != [] {
      RunTtl(ttl, steps[..|steps| - 1]);
      KeepsTtl(Run(ttl, steps[..|steps| - 1]), steps[|steps| - 1]);
    }
  }

  lemma KeepsTtl(s: State, step: Step)
    ensures Next(s, step).ttl == s.ttl
  {}
}
