/** The skill lifecycle: its policy table, and what every run of transitions on one skill keeps. */
module SkillLifecycle {
  import opened Options

  datatype Status = DRAFT | PROPOSED | VALIDATED | APPROVED | DEPLOYED | DEPRECATED
  datatype Authority = ARCHITECT | DEPUTY | KNOWLEDGE_DIRECTOR | STANDARDS_AGENT | ORACLE | LAWYER | SYSTEM

  const SOVEREIGNTY := {ARCHITECT, DEPUTY}
  const GOVERNORS := SOVEREIGNTY + {KNOWLEDGE_DIRECTOR}
  const APPROVERS := GOVERNORS + {LAWYER}
  const VALIDATORS := APPROVERS + {STANDARDS_AGENT}
  const PROPOSERS := VALIDATORS + {ORACLE, SYSTEM}

  function Rule(from: Status, to: Status): Option<set<Authority>> {
    match (from, to)
    case (DRAFT, PROPOSED) => Some(PROPOSERS)
    case (PROPOSED, VALIDATED) => Some(VALIDATORS)
    case (VALIDATED, APPROVED) => Some(APPROVERS)
    case (APPROVED, DEPLOYED) => Some(GOVERNORS)
    case (DEPLOYED, DEPRECATED) => Some(GOVERNORS)
    case (PROPOSED, DRAFT) => Some(VALIDATORS)
    case (APPROVED, DRAFT) => Some(GOVERNORS)
    case (VALIDATED, DRAFT) => Some(GOVERNORS)
    case (DRAFT, DEPRECATED) => Some(SOVEREIGNTY)
    case (PROPOSED, DEPRECATED) => Some(SOVEREIGNTY)
    case (VALIDATED, DEPRECATED) => Some(SOVEREIGNTY)
    case (APPROVED, DEPRECATED) => Some(SOVEREIGNTY)
    case _ => None
  }

  datatype Verdict = Terminal | Invalid | Unauthorized | Permitted

  function Validate(from: Status, to: Status, actor: Authority): Verdict {
    if from == DEPRECATED then Terminal
    else if Rule(from, to).None? then Invalid
    else if actor !in Rule(from, to).value then Unauthorized
    else Permitted
  }

  /** The whole policy, authority by authority: anyone proposes a draft; the validators send a proposal on or
    * back; the approvers approve; the governors deploy, retire what is deployed, and send back what was
    * validated or approved; only the architect and the deputy retire anything before deployment. */
  lemma PermittedIff(from: Status, to: Status, actor: Authority)
    ensures Validate(from, to, actor) == Permitted <==>
              || (from == DRAFT && to == PROPOSED)
              || (actor in {ARCHITECT, DEPUTY, KNOWLEDGE_DIRECTOR, LAWYER, STANDARDS_AGENT}
                  && (from, to) in {(PROPOSED, VALIDATED), (PROPOSED, DRAFT)})
              || (actor in {ARCHITECT, DEPUTY, KNOWLEDGE_DIRECTOR, LAWYER} && (from, to) == (VALIDATED, APPROVED))
              || (actor in {ARCHITECT, DEPUTY, KNOWLEDGE_DIRECTOR}
                  && (from, to) in {(APPROVED, DEPLOYED), (DEPLOYED, DEPRECATED),
                                    (APPROVED, DRAFT), (VALIDATED, DRAFT)})
              || (actor in {ARCHITECT, DEPUTY} && from in {DRAFT, PROPOSED, VALIDATED, APPROVED} && to == DEPRECATED)
    ensures Validate(from, to, actor) == Terminal <==> from == DEPRECATED
    ensures Validate(from, to, actor) == Invalid
            <==> from != DEPRECATED && forall a :: Validate(from, to, a) != Permitted
  {
    assert Validate(from, to, ARCHITECT) == Permitted || from == DEPRECATED || Rule(from, to).None?;
  }

  datatype Request = Request(to: Status, actor: Authority)
  datatype Move = Move(from: Status, to: Status, actor: Authority)

  /** The transitions a history of requests brought about; a refused request changes nothing. */
  function Moves(requests: seq<Request>): seq<Move> {
    if requests == [] then []
    else
      var pre := Moves(requests[..|requests| - 1]);
      var r := requests[|requests| - 1];
      var from := StatusAfter(pre);
      if Validate(from, r.to, r.actor).Permitted? then pre + [Move(from, r.to, r.actor)] else pre
  }

  /** Every skill starts as a draft. */
  function StatusAfter(moves: seq<Move>): Status {
    if moves == [] then DRAFT else moves[|moves| - 1].to
  }

  /** One more request moves the skill if it is permitted, and leaves it where it is otherwise. */
  lemma OneMoreRequest(requests: seq<Request>, r: Request)
    ensures var from := StatusAfter(Moves(requests));
            StatusAfter(Moves(requests + [r])) == if Validate(from, r.to, r.actor).Permitted? then r.to else from
  {
    hide Validate;
    assert (requests + [r])[..|requests|] == requests;
  }

  /** Each move starts where the one before it ended, and its actor was allowed to make it. */
  ghost predicate Chained(moves: seq<Move>) {
    forall i :: 0 <= i < |moves| ==>
      moves[i].from == StatusAfter(moves[..i]) && Validate(moves[i].from, moves[i].to, moves[i].actor).Permitted?
  }

  lemma {:induction false} MovesAreChained(requests: seq<Request>)
    ensures Chained(Moves(requests))
  {
    if requests != [] {
      var pre := Moves(requests[..|requests| - 1]);
      MovesAreChained(requests[..|requests| - 1]);
      var moves := Moves(requests);
      forall i | 0 <= i < |moves|
        ensures moves[i].from == StatusAfter(moves[..i])
                && Validate(moves[i].from, moves[i].to, moves[i].actor).Permitted?
      {
        if i < |pre| { assert moves[..i] == pre[..i] && moves[i] == pre[i]; } else { assert moves[..i] == pre; }
      }
    }
  }

  /** The move that entered a status other than DRAFT, with the allowed actors. */
  lemma LastMove(moves: seq<Move>)
    requires Chained(moves) && StatusAfter(moves) != DRAFT
    ensures moves != []
    ensures var n := |moves| - 1; var m := moves[n];
            Chained(moves[..n]) && m.from == StatusAfter(moves[..n]) && m.to == StatusAfter(moves)
            && Validate(m.from, m.to, m.actor).Permitted?
  {
    var n := |moves| - 1;
    forall i | 0 <= i < n
      ensures moves[..n][i].from == StatusAfter(moves[..n][..i])
      ensures Validate(moves[..n][i].from, moves[..n][i].to, moves[..n][i].actor).Permitted?
    {
      assert moves[..n][..i] == moves[..i];
    }
  }

  /** However often a skill was sent back, it is deployed only at the end of an unbroken promotion:
    * proposed, validated, approved and deployed in its last four moves, each by an authority of
    * that gate, starting from a draft. */
  lemma DeployedMeansFullyPromoted(requests: seq<Request>)
    requires StatusAfter(Moves(requests)) == DEPLOYED
    ensures var m := Moves(requests); var n := |m|;
            && n >= 4
            && m[n - 4].from == DRAFT && m[n - 4].to == PROPOSED && m[n - 4].actor in PROPOSERS
            && m[n - 3].from == PROPOSED && m[n - 3].to == VALIDATED && m[n - 3].actor in VALIDATORS
            && m[n - 2].from == VALIDATED && m[n - 2].to == APPROVED && m[n - 2].actor in APPROVERS
            && m[n - 1].from == APPROVED && m[n - 1].to == DEPLOYED && m[n - 1].actor in GOVERNORS
  {
    hide Moves, Chained;
    var m := Moves(requests);
    MovesAreChained(requests);
    LastMove(m);
    var m1 := m[..|m| - 1];
    LastMove(m1);
    var m2 := m1[..|m1| - 1];
    LastMove(m2);
    var m3 := m2[..|m2| - 1];
    LastMove(m3);
  }

  /** The Oracle alone never takes a skill past PROPOSED, whatever it requests. */
  lemma {:induction false} OracleOnlyProposes(requests: seq<Request>)
    requires forall r :: r in requests ==> r.actor == ORACLE
    ensures StatusAfter(Moves(requests)) in {DRAFT, PROPOSED}
  {
    if requests != [] {
      assert requests[|requests| - 1] in requests;
      assert forall r :: r in requests[..|requests| - 1] ==> r in requests;
      OracleOnlyProposes(requests[..|requests| - 1]);
    }
  }

  /** After DEPLOYED at most one more move happens, to DEPRECATED by a governor; after DEPRECATED none. */
  lemma DeploymentIsFinal(requests: seq<Request>, i: nat)
    requires i < |Moves(requests)| && Moves(requests)[i].to in {DEPLOYED, DEPRECATED}
    ensures var m := Moves(requests);
            if m[i].to == DEPRECATED then i == |m| - 1
            else i + 2 >= |m| && (i + 1 < |m| ==> m[i + 1].to == DEPRECATED && m[i + 1].actor in GOVERNORS)
  {
    hide Moves, Chained;
    MovesAreChained(requests);
    NextMoves(Moves(requests));
  }

  lemma NextMove(m: seq<Move>, i: nat)
    requires Chained(m) && i + 1 < |m|
    ensures m[i].to != DEPRECATED
    ensures m[i].to == DEPLOYED ==> m[i + 1].to == DEPRECATED && m[i + 1].actor in GOVERNORS
  {
    assert m[i + 1].from == StatusAfter(m[..i + 1]) == m[i].to;
  }

  lemma NextMoves(m: seq<Move>)
    requires Chained(m)
    ensures forall i :: 0 <= i < |m| - 1 ==> m[i].to != DEPRECATED
    ensures forall i :: 0 <= i < |m| - 1 && m[i].to == DEPLOYED ==>
              m[i + 1].to == DEPRECATED && m[i + 1].actor in GOVERNORS
    ensures forall i :: 0 <= i < |m| - 2 ==> m[i].to != DEPLOYED
  {
    hide Chained;
    forall i | 0 <= i < |m| - 1
      ensures m[i].to != DEPRECATED
              && (m[i].to == DEPLOYED ==> m[i + 1].to == DEPRECATED && m[i + 1].actor in GOVERNORS)
      ensures i < |m| - 2 ==> m[i].to != DEPLOYED
    {
      NextMove(m, i);
      if i < |m| - 2 { NextMove(m, i + 1); }
    }
  }

  // --- the service -------------------------------------------------------------------------------

  datatype Error = BadProduct | NotFound | CrossProduct | Refused(v: Verdict)
  datatype Skill = Skill(product: string, status: Status)

  /** Every stored status is what the skill's whole history of requests gives. */
  ghost predicate Kept(skills: map<int, Skill>, log: map<int, seq<Request>>, next: int) {
    skills.Keys == log.Keys && (forall k :: k in skills ==> k < next)
    && forall k :: k in skills ==> skills[k].status == StatusAfter(Moves(log[k]))
  }

  lemma NewIsKept(skills: map<int, Skill>, log: map<int, seq<Request>>, next: int, product: string)
    requires Kept(skills, log, next)
    ensures Kept(skills[next := Skill(product, DRAFT)], log[next := []], next + 1)
  {
  }

  /** One more request of one skill, with its verdict. */
  lemma RequestIsKept(skills: map<int, Skill>, log: map<int, seq<Request>>, next: int, k: int, r: Request)
    requires Kept(skills, log, next) && k in skills
    ensures var log' := log[k := log[k] + [r]];
            if Validate(skills[k].status, r.to, r.actor).Permitted?
            then Kept(skills[k := skills[k].(status := r.to)], log', next) else Kept(skills, log', next)
  {
    hide Validate, Moves, StatusAfter;
    OneMoreRequest(log[k], r);
  }

  class SkillService {
    var skills: map<int, Skill>
    var next: int
    ghost var log: map<int, seq<Request>>     // the requests made of each skill by its own product

    ghost predicate Valid()
      reads this
    {
      Kept(skills, log, next)
    }

    constructor ()
      ensures Valid() && skills == map[]
    {
      skills, next, log := map[], 0, map[];
    }

    method CreateSkill(product: string) returns (k: Option<int>)
      requires Valid()
      modifies this
      ensures Valid() && (k.None? <==> product == "" || product == "*")
      ensures if k.None? then skills == old(skills) && log == old(log)
              else k.value !in old(skills) && skills == old(skills)[k.value := Skill(product, DRAFT)]
                   && log == old(log)[k.value := []]
    {
      if product == "" || product == "*" { return None; }
      NewIsKept(skills, log, next, product);
      k := Some(next);
      skills := skills[next := Skill(product, DRAFT)];
      log := log[next := []];
      next := next + 1;
    }

    /** None when the transition was made. */
    method TransitionStatus(k: int, product: string, r: Request) returns (e: Option<Error>)
      requires Valid()
      modifies this
      ensures Valid()
      ensures e == (if product == "" || product == "*" then Some(BadProduct)
                    else if k !in old(skills) then Some(NotFound)
                    else if old(skills)[k].product != product then Some(CrossProduct)
                    else if Validate(old(skills)[k].status, r.to, r.actor).Permitted? then None
                    else Some(Refused(Validate(old(skills)[k].status, r.to, r.actor))))
      ensures if e.None? then skills == old(skills)[k := old(skills)[k].(status := r.to)] else skills == old(skills)
      ensures log == if e.None? || e.value.Refused? then old(log)[k := old(log)[k] + [r]] else old(log)
    {
      if product == "" || product == "*" { return Some(BadProduct); }
      if k !in skills { return Some(NotFound); }
      if skills[k].product != product { return Some(CrossProduct); }
      hide Kept, Validate;
      var v := Validate(skills[k].status, r.to, r.actor);
      RequestIsKept(skills, log, next, k, r);
      log := log[k := log[k] + [r]];
      if !v.Permitted? { return Some(Refused(v)); }
      skills := skills[k := skills[k].(status := r.to)];
      e := None;
    }
  }
}
