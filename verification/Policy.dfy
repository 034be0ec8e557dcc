/**
 * The policy engine on values: a rule loop that drives actuators or queues actions for an
 * operator, and what one evaluation does to each actuator on its own.
 */
module Policy {
  import opened Basics
  import opened Actuation

  datatype Advisory = Advisory(sourceId: string, kind: string, severity: int)

  datatype Rule = Rule(
    id: string, enabled: bool, kind: string, minSeverity: int, sourceId: string,
    actuator: Id, target: string, operatorApproved: bool, priority: int)

  /** Every criterion a rule sets must be met; empty ones match anything. */
  predicate Matches(r: Rule, a: Advisory) {
    && r.enabled
    && (r.kind == "" || r.kind == a.kind)
    && a.severity >= r.minSeverity
    && (r.sourceId == "" || r.sourceId == a.sourceId)
  }

  /** A rule with the answers its calls will get: queue lookup, enqueue, and backend drive. */
  datatype Attempt = Attempt(rule: Rule, lookupOk: bool, enqueueOk: bool, driveOk: bool)

  /** Actuators and the operator's pending (actuator, target) pairs. */
  datatype Site = Site(world: World, pending: set<(Id, string)>)

  /** Whether the rule loop acts on this attempt in the given site. */
  predicate Effective(s: Site, at: Attempt, a: Advisory) {
    var r := at.rule;
    && Matches(r, a)
    && at.lookupOk && (r.actuator, r.target) !in s.pending
    && r.actuator in s.world.state && s.world.state[r.actuator] != r.target
    && if r.operatorApproved then at.enqueueOk
       else !ExecuteOutcome(s.world, r.actuator, r.target, at.driveOk).Failed()
  }

  /** Queue the action for an operator or drive the actuator. */
  function Act(s: Site, at: Attempt): Site {
    var r := at.rule;
    if r.operatorApproved then s.(pending := s.pending + {(r.actuator, r.target)})
    else s.(world := Execute(s.world, r.actuator, r.target, at.driveOk))
  }

  datatype Progress = Progress(site: Site, acted: seq<Id>)

  function EvaluateOne(p: Progress, at: Attempt, a: Advisory): Progress {
    if Effective(p.site, at, a) && at.rule.actuator !in p.acted
    then Progress(Act(p.site, at), p.acted + [at.rule.actuator])
    else p
  }

  function Evaluate(p: Progress, ats: seq<Attempt>, a: Advisory): Progress {
    if ats == [] then p
    else EvaluateOne(Evaluate(p, ats[..|ats| - 1], a), ats[|ats| - 1], a)
  }

  // ---- One actuator at a time --------------------------------------------

  /** Two sites are alike as far as one actuator is concerned. */
  ghost predicate SameFor(s: Site, t: Site, id: Id) {
    && (id in s.world.specs <==> id in t.world.specs)
    && (id in s.world.specs ==> s.world.specs[id] == t.world.specs[id])
    && (id in s.world.state <==> id in t.world.state)
    && (id in s.world.state ==> s.world.state[id] == t.world.state[id])
    && (id in s.world.device <==> id in t.world.device)
    && (id in s.world.device ==> s.world.device[id] == t.world.device[id])
    && (forall target :: (id, target) in s.pending <==> (id, target) in t.pending)
  }

  lemma EffectiveIsLocal(s: Site, t: Site, at: Attempt, a: Advisory)
    requires SameFor(s, t, at.rule.actuator)
    ensures Effective(s, at, a) == Effective(t, at, a)
    ensures Effective(s, at, a) ==> SameFor(Act(s, at), Act(t, at), at.rule.actuator)
  {
  }

  lemma ActIsLocal(s: Site, at: Attempt, id: Id)
    requires id != at.rule.actuator
    ensures SameFor(s, Act(s, at), id)
  {
  }

  /** The first attempt for an actuator that is effective in the site the evaluation starts from. */
  function FirstEffective(s: Site, ats: seq<Attempt>, a: Advisory, id: Id): Option<Attempt> {
    if ats == [] then None
    else
      var earlier, last := FirstEffective(s, ats[..|ats| - 1], a, id), ats[|ats| - 1];
      if earlier.Some? then earlier
      else if last.rule.actuator == id && Effective(s, last, a) then Some(last)
      else None
  }

  /**
   * What an evaluation does to an actuator: exactly the action of the first rule for it, in order, that
   * matches, is not pending, is not at its target and does not fail; nothing if there is none.
   */
  lemma {:induction false} EvaluateIsFirstEffective(s: Site, ats: seq<Attempt>, a: Advisory, id: Id)
    ensures var after := Evaluate(Progress(s, []), ats, a);
      var first := FirstEffective(s, ats, a, id);
      && (id in after.acted <==> first.Some?)
      && SameFor(after.site, if first.Some? then Act(s, first.value) else s, id)
  {
    if ats != [] {
      var front, last := ats[..|ats| - 1], ats[|ats| - 1];
      EvaluateIsFirstEffective(s, front, a, id);
      var before := Evaluate(Progress(s, []), front, a);
      if last.rule.actuator == id {
        if id !in before.acted {
          EffectiveIsLocal(before.site, s, last, a);
        }
      } else {
        ActIsLocal(before.site, last, id);
      }
    }
  }

  /** The rules of one actuator, in order. */
  function Only(ats: seq<Attempt>, id: Id): seq<Attempt> {
    if ats == [] then []
    else Only(ats[..|ats| - 1], id) + if ats[|ats| - 1].rule.actuator == id then [ats[|ats| - 1]] else []
  }

  lemma {:induction false} FirstEffectiveOnly(s: Site, ats: seq<Attempt>, a: Advisory, id: Id)
    ensures FirstEffective(s, Only(ats, id), a, id) == FirstEffective(s, ats, a, id)
  {
    if ats != [] {
      var front, last := ats[..|ats| - 1], ats[|ats| - 1];
      FirstEffectiveOnly(s, front, a, id);
      if last.rule.actuator == id {
        assert (Only(front, id) + [last])[..|Only(front, id)|] == Only(front, id);
      } else {
        assert Only(ats, id) == Only(front, id);
      }
    }
  }

  /** Rules for other actuators make no difference. */
  lemma EvaluateIsLocal(s: Site, ats: seq<Attempt>, a: Advisory, id: Id)
    ensures SameFor(Evaluate(Progress(s, []), ats, a).site, Evaluate(Progress(s, []), Only(ats, id), a).site, id)
  {
    EvaluateIsFirstEffective(s, ats, a, id);
    EvaluateIsFirstEffective(s, Only(ats, id), a, id);
    FirstEffectiveOnly(s, ats, a, id);
  }

  /** One evaluation acts on each actuator at most once. */
  lemma {:induction false} ActsAtMostOnce(s: Site, ats: seq<Attempt>, a: Advisory)
    ensures Distinct(Evaluate(Progress(s, []), ats, a).acted)
  {
    if ats != [] {
      ActsAtMostOnce(s, ats[..|ats| - 1], a);
      DistinctAppend(Evaluate(Progress(s, []), ats[..|ats| - 1], a).acted, ats[|ats| - 1].rule.actuator);
    }
  }

  ghost predicate Distinct(ids: seq<Id>) {
    forall i, j :: 0 <= i < j < |ids| ==> ids[i] != ids[j]
  }

  lemma DistinctAppend(ids: seq<Id>, id: Id)
    requires Distinct(ids)
    ensures id !in ids ==> Distinct(ids + [id])
  {
  }

  // ---- Priorities --------------------------------------------------------

  ghost predicate ByPriority(rules: seq<Rule>) {
    forall i, j :: 0 <= i < j < |rules| ==> rules[i].priority >= rules[j].priority
  }

  function RulesOf(ats: seq<Attempt>): (rs: seq<Rule>)
    ensures |rs| == |ats| && forall i :: 0 <= i < |ats| ==> rs[i] == ats[i].rule
  {
    seq(|ats|, i requires 0 <= i < |ats| => ats[i].rule)
  }

  /** With rules sorted by priority, the rule acted on outranks every other effective one. */
  lemma {:induction false} ChosenOutranks(s: Site, ats: seq<Attempt>, a: Advisory, id: Id, k: nat)
    requires ByPriority(RulesOf(ats)) && k < |ats|
    requires ats[k].rule.actuator == id && Effective(s, ats[k], a)
    ensures FirstEffective(s, ats, a, id).Some?
    ensures FirstEffective(s, ats, a, id).value.rule.priority >= ats[k].rule.priority
  {
    var front := ats[..|ats| - 1];
    assert RulesOf(front) == RulesOf(ats)[..|ats| - 1];
    if k < |front| {
      ChosenOutranks(s, front, a, id, k);
    } else if FirstEffective(s, front, a, id).Some? {
      FirstEffectiveIn(s, front, a, id);
    }
  }

  lemma {:induction false} FirstEffectiveIn(s: Site, ats: seq<Attempt>, a: Advisory, id: Id)
    requires FirstEffective(s, ats, a, id).Some?
    ensures FirstEffective(s, ats, a, id).value in ats
    ensures FirstEffective(s, ats, a, id).value.rule.actuator == id
  {
    if FirstEffective(s, ats[..|ats| - 1], a, id).Some? {
      FirstEffectiveIn(s, ats[..|ats| - 1], a, id);
    }
  }

  // ---- Operator approval -------------------------------------------------

  datatype Round = Round(advisory: Advisory, attempts: seq<Attempt>)

  function EvaluateRounds(s: Site, rounds: seq<Round>): Site {
    if rounds == [] then s
    else
      var before := EvaluateRounds(s, rounds[..|rounds| - 1]);
      var round := rounds[|rounds| - 1];
      Evaluate(Progress(before, []), round.attempts, round.advisory).site
  }

  ghost predicate OperatorOnly(ats: seq<Attempt>, id: Id) {
    forall k :: 0 <= k < |ats| && ats[k].rule.actuator == id ==> ats[k].rule.operatorApproved
  }

  /** Advisories alone never move an actuator all of whose rules need an operator. */
  lemma {:induction false} OperatorOnlyNeverMoves(s: Site, rounds: seq<Round>, id: Id)
    requires forall n :: 0 <= n < |rounds| ==> OperatorOnly(rounds[n].attempts, id)
    ensures var after := EvaluateRounds(s, rounds);
      && Lookup(after.world.state, id) == Lookup(s.world.state, id)
      && Lookup(after.world.device, id) == Lookup(s.world.device, id)
  {
    if rounds != [] {
      var front, round := rounds[..|rounds| - 1], rounds[|rounds| - 1];
      OperatorOnlyNeverMoves(s, front, id);
      var before := EvaluateRounds(s, front);
      EvaluateIsFirstEffective(before, round.attempts, round.advisory, id);
      if FirstEffective(before, round.attempts, round.advisory, id).Some? {
        FirstEffectiveIn(before, round.attempts, round.advisory, id);
      }
    }
  }
}
