/** The policy engine over the actuator daemon and the operator queue, changed in place. */
module PolicyEngine {
  import opened Basics
  import opened Actuation
  import opened Policy
  import AD = ActuatorDaemon

  /** Actions waiting for an operator, by actuator and target. */
  class OperatorQueue {
    var pending: set<(Id, string)>

    constructor ()
      ensures pending == {}
    {
      pending := {};
    }

    /** Whether such an action waits; none if the lookup fails. */
    method HasPendingFor(actuator: Id, target: string, lookupOk: bool) returns (found: Option<bool>)
      ensures found == if lookupOk then Some((actuator, target) in pending) else None
    {
      found := if lookupOk then Some((actuator, target) in pending) else None;
    }

    method Enqueue(actuator: Id, target: string, enqueueOk: bool) returns (ok: bool)
      modifies this
      ensures ok == enqueueOk
      ensures pending == if ok then old(pending) + {(actuator, target)} else old(pending)
    {
      if enqueueOk {
        pending := pending + {(actuator, target)};
      }
      ok := enqueueOk;
    }
  }

  class Engine {
    const daemon: AD.Daemon
    const queue: OperatorQueue
    var rules: seq<Rule>

    constructor (daemon: AD.Daemon, queue: OperatorQueue)
      ensures this.daemon == daemon && this.queue == queue && rules == []
    {
      this.daemon, this.queue, rules := daemon, queue, [];
    }

    ghost function View(): Site
      reads this, daemon, daemon.backend, queue
    {
      Site(daemon.View(), queue.pending)
    }

    /** Replace the rule set, highest priority first. */
    method SetRules(given: seq<Rule>)
      modifies this
      ensures multiset(rules) == multiset(given) && ByPriority(rules)
    {
      var sorted: seq<Rule> := [];
      for i := 0 to |given|
        invariant multiset(sorted) == multiset(given[..i]) && ByPriority(sorted)
      {
        var at := InsertionPoint(sorted, given[i]);
        assert given[..i + 1] == given[..i] + [given[i]];
        assert sorted == sorted[..at] + sorted[at..];
        sorted := sorted[..at] + [given[i]] + sorted[at..];
      }
      assert given[..|given|] == given;
      rules := sorted;
    }

    /** Where a rule goes in a list sorted by priority. */
    method InsertionPoint(sorted: seq<Rule>, r: Rule) returns (at: nat)
      requires ByPriority(sorted)
      ensures at <= |sorted|
      ensures ByPriority(sorted[..at] + [r] + sorted[at..])
    {
      at := 0;
      while at < |sorted| && sorted[at].priority >= r.priority
        invariant at <= |sorted|
        invariant forall k :: 0 <= k < at ==> sorted[k].priority >= r.priority
      {
        at := at + 1;
      }
    }

    /** Run the rules against an advisory; the answers say how each rule's outside calls turn out. */
    method Evaluate(a: Advisory, answers: seq<Attempt>) returns (acted: seq<Id>)
      requires RulesOf(answers) == rules
      modifies daemon, daemon.backend, queue
      ensures Progress(View(), acted) == Policy.Evaluate(Progress(old(View()), []), answers, a)
    {
      acted := [];
      for i := 0 to |rules|
        invariant Progress(View(), acted) == Policy.Evaluate(Progress(old(View()), []), answers[..i], a)
      {
        assert answers[..i + 1][..i] == answers[..i];
        var r, at := rules[i], answers[i];
        if Matches(r, a) {
          acted := Consider(r, at, acted, a);
        }
      }
      assert answers[..|answers|] == answers;
    }

    /** The body of the rule loop for a rule that matches. */
    method Consider(r: Rule, at: Attempt, acted: seq<Id>, ghost a: Advisory) returns (after: seq<Id>)
      requires at.rule == r && Matches(r, a)
      modifies daemon, daemon.backend, queue
      ensures Progress(View(), after) == EvaluateOne(Progress(old(View()), acted), at, a)
    {
      after := acted;
      var pending := queue.HasPendingFor(r.actuator, r.target, at.lookupOk);
      if pending != Some(false) {
        return;
      }
      var current := daemon.CurrentState(r.actuator);
      if current.None? || current.value == r.target {
        return;
      }
      if r.actuator in acted {
        return;
      }
      if r.operatorApproved {
        var ok := queue.Enqueue(r.actuator, r.target, at.enqueueOk);
        if ok {
          after := acted + [r.actuator];
        }
        return;
      }
      var out := daemon.Execute(r.actuator, r.target, at.driveOk);
      if !out.Failed() {
        after := acted + [r.actuator];
      }
    }

    /** An operator's approval drives the actuator directly. */
    method ApprovePending(actuator: Id, target: string, driveOk: bool) returns (out: Outcome)
      modifies daemon, daemon.backend
      ensures View() == old(View()).(world := Execute(old(View()).world, actuator, target, driveOk))
      ensures out == ExecuteOutcome(old(View()).world, actuator, target, driveOk)
    {
      out := daemon.Execute(actuator, target, driveOk);
    }
  }
}
