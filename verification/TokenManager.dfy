/** The token manager and its session store, updating the session table in place. The object always
  * stands where the run of the steps it has taken stands. */
module TokenManager {
  import opened Options
  import S = Sessions

  datatype TokenPair = TokenPair(sid: S.Digest, refresh: int)
  datatype Result = Ok(pair: TokenPair) | Err(why: S.Verdict)

  class TokenManager {
    var now: int
    const ttl: int
    var operators: map<S.Id, bool>
    var sessions: map<S.Digest, S.Session>
    var next: S.Id
    ghost var logins: map<S.Id, S.Id>
    ghost var lineage: map<S.Digest, S.Id>
    ghost var owed: map<S.Id, S.Owed>
    ghost var wins: seq<int>
    ghost var steps: seq<S.Step>   // every step taken so far

    ghost function Abs(): S.State
      reads this
    {
      S.State(now, ttl, operators, sessions, next, logins, lineage, owed, wins)
    }

    /** The table is the one the run of all steps taken so far ends with. */
    ghost predicate Valid()
      reads this
    {
      Abs() == S.Run(ttl, steps)
    }

    constructor (ttl: int)
      ensures Valid() && Abs() == S.Init(ttl) && steps == []
    {
      this.ttl := ttl;
      now, next := 0, 0;
      operators, sessions := map[], map[];
      logins, lineage, owed, wins, steps := map[], map[], map[], [], [];
    }

    // --- what the object promises at any time -----------------------------------------------

    /** A login has one live heir at most, and an operator no more active sessions than logins. */
    lemma OneSessionPerLogin(op: S.Id)
      requires Valid()
      ensures sessions.Keys == lineage.Keys && S.OneHeir(sessions, lineage, owed)
      ensures |S.ActiveOf(Abs(), op)| <= |S.LoginsOf(Abs(), op)|
    {
      hide S.Run;
      S.RotationIsLinear(ttl, steps);
      S.ActiveAtMostLogins(ttl, steps, op);
    }

    // --- operators and the clock ---------------------------------------------------------------

    method SetActive(op: S.Id, active: bool)
      requires Valid()
      modifies this`operators, this`steps
      ensures Valid() && steps == old(steps) + [S.DoSetActive(op, active)] && operators == old(operators)[op := active]
    {
      hide S.Run;
      S.RunSnoc(ttl, steps, S.DoSetActive(op, active));
      operators := operators[op := active];
      steps := steps + [S.DoSetActive(op, active)];
    }

    method Delete(op: S.Id)
      requires Valid()
      modifies this`operators, this`steps
      ensures Valid() && steps == old(steps) + [S.DoDelete(op)] && operators == old(operators) - {op}
    {
      hide S.Run;
      S.RunSnoc(ttl, steps, S.DoDelete(op));
      operators := operators - {op};
      steps := steps + [S.DoDelete(op)];
    }

    method Tick(d: nat)
      requires Valid()
      modifies this`now, this`steps
      ensures Valid() && steps == old(steps) + [S.DoTick(d)] && now == old(now) + d
    {
      hide S.Run;
      S.RunSnoc(ttl, steps, S.DoTick(d));
      now := now + d;
      steps := steps + [S.DoTick(d)];
    }

    // --- token_manager.py ------------------------------------------------------------------------

    method Issue(op: S.Id, ghost login: S.Id) returns (pair: TokenPair)
      modifies this`sessions, this`next, this`lineage
      ensures Abs() == S.Issue(old(Abs()), op, login)
      ensures pair.sid == S.Sha256(pair.refresh) && pair.sid in sessions && sessions[pair.sid].active
      ensures pair.refresh == old(next)
      ensures sessions == old(sessions)[pair.sid := S.Session(op, now + ttl, true, None)]
    {
      var raw := next;
      var h := S.Sha256(raw);
      sessions := sessions[h := S.Session(op, now + ttl, true, None)];
      lineage := lineage[h := login];
      next := next + 1;
      pair := TokenPair(h, raw);
    }

    method Login(op: S.Id) returns (pair: Option<TokenPair>)
      requires Valid()
      modifies this
      ensures Valid() && steps == old(steps) + [S.DoLogin(op)] && Abs() == S.Login(old(Abs()), op)
      ensures pair.Some? <==> op in operators && operators[op]
      ensures if pair.Some?
              then pair.value.sid == S.Sha256(pair.value.refresh)
                   && sessions == old(sessions)[pair.value.sid := S.Session(op, now + ttl, true, None)]
              else sessions == old(sessions)
    {
      hide S.Run;
      S.RunSnoc(ttl, steps, S.DoLogin(op));
      steps := steps + [S.DoLogin(op)];
      if op !in operators || !operators[op] { return None; }
      ghost var login := next;
      logins := logins[login := op];
      next := next + 1;
      var p := Issue(op, login);
      pair := Some(p);
    }

    method RevokeSession(h: S.Digest)
      requires h in sessions
      modifies this`sessions
      ensures Abs() == S.RevokeSession(old(Abs()), h)
    {
      sessions := sessions[h := sessions[h].(active := false, revokedAt := Some(now))];
    }

    /** `refresh`: two commits, with `between` the state after the first. */
    method Refresh(raw: int) returns (r: Result, ghost between: S.State)
      requires Valid()
      modifies this
      ensures Valid() && between == S.Rotate(old(Abs()), raw) && between == S.Run(ttl, old(steps) + [S.DoRotate(raw)])
      ensures steps == old(steps) + [S.DoRotate(raw)] + if r.Ok? then [S.DoIssue(old(next))] else []
      ensures r.Ok? ==> raw !in old(wins) && wins == old(wins) + [raw]
      ensures r.Ok? <==> S.Judge(old(Abs()), raw).Rotates?
      ensures r.Err? ==> r.why == S.Judge(old(Abs()), raw) && Abs() == between
      ensures r.Ok? ==> old(next) in between.owed && Abs() == S.IssueOwed(between, old(next))
                        && r.pair.refresh == old(next) + 1 && r.pair.refresh != raw
      ensures r.Ok? ==>
                var h := S.Sha256(raw);
                h in old(sessions) && r.pair.sid == S.Sha256(r.pair.refresh)
                && var was := old(sessions)[h];
                   sessions == old(sessions)[h := S.Session(was.op, was.expires, false, Some(now))]
                                            [r.pair.sid := S.Session(was.op, now + ttl, true, None)]
    {
      hide S.Run, S.Inv, S.Next;
      S.RunInv(ttl, steps);
      S.NeverWonTwice(Abs(), raw);
      S.RunSnoc(ttl, steps, S.DoRotate(raw));
      S.StepIsRotate(Abs(), raw);
      S.RunSnoc(ttl, steps + [S.DoRotate(raw)], S.DoIssue(next));
      S.StepIsIssue(S.Rotate(Abs(), raw), next);
      steps := steps + [S.DoRotate(raw)];
      var h := S.Sha256(raw);
      between := Abs();
      if h !in sessions { return Err(S.NotFound), between; }
      if !sessions[h].active { return Err(S.Revoked), between; }
      if now > sessions[h].expires { return Err(S.Expired), between; }
      var op := sessions[h].op;
      if op !in operators || !operators[op] {
        RevokeSession(h);
        between := Abs();
        return Err(S.Inactive), between;
      }
      RevokeSession(h);
      ghost var ticket, login := next, lineage[h];
      next := next + 1;
      owed := owed[ticket := S.Owed(op, login)];
      wins := wins + [raw];
      between := Abs();
      owed := owed - {ticket};
      steps := steps + [S.DoIssue(ticket)];
      var pair := Issue(op, login);
      r := Ok(pair);
    }

    /** `revoke` (logout): from here on the token wins no refresh, whatever is done with the manager. */
    method Revoke(raw: int)
      requires Valid()
      modifies this`sessions, this`steps
      ensures Valid() && steps == old(steps) + [S.DoLogout(raw)] && Abs() == S.Logout(old(Abs()), raw)
      ensures var h := S.Sha256(raw);
              sessions == if h in old(sessions) && old(sessions)[h].active
                          then var was := old(sessions)[h];
                               old(sessions)[h := S.Session(was.op, was.expires, false, Some(now))]
                          else old(sessions)
      ensures S.Sha256(raw) in sessions ==>
                forall more: seq<S.Step> :: raw in S.Run(ttl, steps + more).wins ==> raw in wins
    {
      hide S.Run;
      if S.Sha256(raw) in sessions {
        forall more: seq<S.Step>
          ensures raw in S.Run(ttl, steps + [S.DoLogout(raw)] + more).wins ==> raw in wins
        {
          S.LoggedOutNeverWins(ttl, steps, raw, more);
        }
      }
      S.RunSnoc(ttl, steps, S.DoLogout(raw));
      steps := steps + [S.DoLogout(raw)];
      var h := S.Sha256(raw);
      if h !in sessions || !sessions[h].active { return; }
      RevokeSession(h);
    }

    /** `revoke_all_for_operator`: the number of sessions revoked. */
    method RevokeAllForOperator(op: S.Id) returns (n: nat)
      requires Valid()
      modifies this`sessions, this`steps
      ensures Valid() && steps == old(steps) + [S.DoRevokeAll(op)] && Abs() == S.RevokeAll(old(Abs()), op)
      ensures n == |S.ActiveOf(old(Abs()), op)| && S.ActiveOf(Abs(), op) == {}
      ensures sessions.Keys == old(sessions).Keys
      ensures forall h :: h in sessions && !(old(sessions)[h].active && old(sessions)[h].op == op) ==>
                sessions[h] == old(sessions)[h]
    {
      hide S.Run, S.RevokeAll, S.ActiveOf;
      S.RevokeAllIs(Abs(), op);
      S.RunSnoc(ttl, steps, S.DoRevokeAll(op));
      steps := steps + [S.DoRevokeAll(op)];
      n := RevokeEach(op);
    }

    /** One active session of the operator after the other. */
    method RevokeEach(op: S.Id) returns (n: nat)
      modifies this`sessions
      ensures Abs() == S.RevokeAll(old(Abs()), op)
      ensures n == |S.ActiveOf(old(Abs()), op)| && S.ActiveOf(Abs(), op) == {}
    {
      var todo := set h | h in sessions && sessions[h].op == op && sessions[h].active;
      ghost var all := todo;
      n := |todo|;
      while todo != {}
        invariant todo <= all && sessions.Keys == old(sessions).Keys
        invariant forall h :: h in sessions ==>
                    sessions[h] == if h in all - todo then old(sessions)[h].(active := false, revokedAt := Some(now))
                                   else old(sessions)[h]
        decreases |todo|
      {
        var h :| h in todo;
        sessions := sessions[h := sessions[h].(active := false, revokedAt := Some(now))];
        todo := todo - {h};
      }
      assert all == S.ActiveOf(old(Abs()), op);
      assert sessions == S.RevokeAll(old(Abs()), op).sessions;
    }
  }
}
