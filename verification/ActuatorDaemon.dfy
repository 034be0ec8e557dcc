/** The actuator daemon with its tables changed in place, over a backend that may refuse a drive. */
module ActuatorDaemon {
  import opened Basics
  import opened Actuation

  /** The devices behind the daemon; an accepted drive moves one of them. */
  class Backend {
    var device: map<Id, string>

    constructor ()
      ensures device == map[]
    {
      device := map[];
    }

    method Apply(id: Id, state: string, accepted: bool) returns (ok: bool)
      modifies this
      ensures ok == accepted
      ensures device == if accepted then old(device)[id := state] else old(device)
    {
      if accepted {
        device := device[id := state];
      }
      ok := accepted;
    }
  }

  class Daemon {
    const backend: Backend
    var specs: map<Id, Spec>
    var state: map<Id, string>

    constructor (backend: Backend)
      ensures this.backend == backend && specs == map[] && state == map[]
    {
      this.backend := backend;
      specs, state := map[], map[];
    }

    ghost function View(): World
      reads this, backend
    {
      World(specs, state, backend.device)
    }

    /** Load the configuration: drive new actuators to failsafe and forget the removed ones. */
    method SetSpecs(config: seq<Spec>, accepts: set<Id>)
      modifies this, backend
      ensures View() == Actuation.SetSpecs(old(View()), config, accepts)
    {
      var next: map<Id, Spec> := map[];
      for i := 0 to |config|
        invariant next == EnabledSpecs(config[..i])
      {
        assert config[..i + 1][..i] == config[..i];
        if config[i].enabled {
          next := next[config[i].id := config[i]];
        }
      }
      assert config[..|config|] == config;
      InitNew(next, accepts);
      ForgetAfterDriving(old(state), next, Failsafes(next, accepts - old(state).Keys));
      state := state - (state.Keys - next.Keys);
      specs := next;
    }

    /** Drive every configured actuator that is not tracked yet. */
    method InitNew(next: map<Id, Spec>, accepts: set<Id>)
      requires forall id :: id in next ==> next[id].id == id
      modifies `state, backend
      ensures var driven := Failsafes(next, accepts - old(state).Keys);
        state == old(state) + driven && backend.device == old(backend.device) + driven
    {
      var todo := next.Keys;
      ghost var wanted := accepts - state.Keys;
      ghost var done: set<Id> := {};
      assert Failsafes(next, done) == map[];
      while todo != {}
        invariant todo <= next.Keys
        invariant forall x :: x in done <==> x in wanted && x in next && x !in todo
        invariant state == old(state) + Failsafes(next, done)
        invariant backend.device == old(backend.device) + Failsafes(next, done)
        decreases |todo|
      {
        var id :| id in todo;
        NotYetDriven(old(state), next, done, id);
        todo := todo - {id};
        if id !in state {
          FailsafesGrow(old(state), next, done, id);
          FailsafesGrow(old(backend.device), next, done, id);
          var ok := ApplyLocked(next[id], next[id].failsafe, id in accepts);
          done := if ok then done + {id} else done;
        }
      }
      FailsafesSame(next, done, wanted);
    }

    /** Drive an actuator and track its new state if the backend accepts. */
    method ApplyLocked(spec: Spec, target: string, accepted: bool) returns (ok: bool)
      modifies `state, backend
      ensures ok == accepted
      ensures state == if accepted then old(state)[spec.id := target] else old(state)
      ensures backend.device == if accepted then old(backend.device)[spec.id := target] else old(backend.device)
    {
      ok := backend.Apply(spec.id, target, accepted);
      if ok {
        state := state[spec.id := target];
      }
    }

    method Execute(id: Id, target: string, accepted: bool) returns (out: Outcome)
      modifies `state, backend
      ensures out == ExecuteOutcome(old(View()), id, target, accepted)
      ensures View() == Actuation.Execute(old(View()), id, target, accepted)
    {
      if id !in specs {
        return UnknownActuator;
      }
      if target !in specs[id].states {
        return InvalidState;
      }
      if Lookup(state, id) == target {
        return NoChange;
      }
      var ok := backend.Apply(id, target, accepted);
      if !ok {
        return DriveFailed;
      }
      state := state[id := target];
      return Applied;
    }

    method CurrentState(id: Id) returns (current: Option<string>)
      ensures current == if id in state then Some(state[id]) else None
    {
      current := if id in state then Some(state[id]) else None;
    }

    /** Force every actuator to its declared failsafe state. */
    method DriveAllFailsafe(accepts: set<Id>)
      requires forall id :: id in specs ==> specs[id].id == id
      modifies `state, backend
      ensures View() == Actuation.DriveAllFailsafe(old(View()), accepts)
    {
      var all, todo := specs, specs.Keys;
      ghost var wanted := Unsafe(View()) * accepts;
      ghost var done: set<Id> := {};
      assert Failsafes(all, done) == map[];
      while todo != {}
        invariant todo <= all.Keys
        invariant forall x :: x in done <==> x in wanted && x in all && x !in todo
        invariant state == old(state) + Failsafes(all, done)
        invariant backend.device == old(backend.device) + Failsafes(all, done)
        decreases |todo|
      {
        var id :| id in todo;
        NotYetDriven(old(state), all, done, id);
        todo := todo - {id};
        if Lookup(state, id) != all[id].failsafe {
          FailsafesGrow(old(state), all, done, id);
          FailsafesGrow(old(backend.device), all, done, id);
          var ok := ApplyLocked(all[id], all[id].failsafe, id in accepts);
          done := if ok then done + {id} else done;
        }
      }
      FailsafesSame(all, done, wanted);
    }
  }
}
