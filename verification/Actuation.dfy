/**
 * The gateway's actuator daemon on values: which states it tracks, what the backend was
 * last driven to, and what holds over any run with failing drives.
 */
module Actuation {
  import opened Basics

  type Id = string

  datatype Spec = Spec(id: Id, states: seq<string>, failsafe: string, enabled: bool)

  /** The daemon's tables and, per actuator, the last state the backend accepted. */
  datatype World = World(specs: map<Id, Spec>, state: map<Id, string>, device: map<Id, string>)

  const NewWorld := World(map[], map[], map[])

  /** Reading a missing key gives the empty string. */
  function Lookup(state: map<Id, string>, id: Id): string {
    if id in state then state[id] else ""
  }

  /** The enabled specs by id; a later one replaces an earlier one. */
  function EnabledSpecs(specs: seq<Spec>): (m: map<Id, Spec>)
    ensures forall id :: id in m ==> m[id] in specs && m[id].enabled && m[id].id == id
    ensures forall k :: 0 <= k < |specs| && specs[k].enabled ==> specs[k].id in m
  {
    if specs == [] then map[]
    else
      var front, last := specs[..|specs| - 1], specs[|specs| - 1];
      assert specs == front + [last];
      if last.enabled then EnabledSpecs(front)[last.id := last] else EnabledSpecs(front)
  }

  /** The failsafe state of each of the given actuators. */
  function Failsafes(specs: map<Id, Spec>, ids: set<Id>): (m: map<Id, string>)
    ensures m.Keys == ids * specs.Keys
  {
    map id | id in ids && id in specs :: specs[id].failsafe
  }

  /** Driving one more actuator to failsafe. */
  lemma FailsafesGrow(state: map<Id, string>, specs: map<Id, Spec>, done: set<Id>, id: Id)
    requires id in specs
    ensures (state + Failsafes(specs, done))[id := specs[id].failsafe] == state + Failsafes(specs, done + {id})
  {
  }

  lemma FailsafesSame(specs: map<Id, Spec>, done: set<Id>, wanted: set<Id>)
    requires forall id :: id in specs ==> (id in done <==> id in wanted)
    ensures Failsafes(specs, done) == Failsafes(specs, wanted)
  {
  }

  lemma NotYetDriven(state: map<Id, string>, specs: map<Id, Spec>, done: set<Id>, id: Id)
    requires id !in done
    ensures Lookup(state + Failsafes(specs, done), id) == Lookup(state, id)
    ensures id in state + Failsafes(specs, done) <==> id in state
  {
  }

  /** Forgetting removed actuators after driving new ones is the same as before. */
  lemma ForgetAfterDriving(state: map<Id, string>, next: map<Id, Spec>, driven: map<Id, string>)
    requires driven.Keys <= next.Keys
    ensures (state + driven) - ((state + driven).Keys - next.Keys) == (state - (state.Keys - next.Keys)) + driven
  {
  }

  /** New actuators whose drive is accepted start at failsafe; removed ones are forgotten. */
  function SetSpecs(w: World, specs: seq<Spec>, accepts: set<Id>): World {
    var next := EnabledSpecs(specs);
    var driven := Failsafes(next, accepts - w.state.Keys);
    World(next, (w.state - (w.state.Keys - next.Keys)) + driven, w.device + driven)
  }

  datatype Outcome = Applied | NoChange | UnknownActuator | InvalidState | DriveFailed {
    predicate Failed() { !Applied? && !NoChange? }
  }

  function ExecuteOutcome(w: World, id: Id, target: string, accepted: bool): Outcome {
    if id !in w.specs then UnknownActuator
    else if target !in w.specs[id].states then InvalidState
    else if Lookup(w.state, id) == target then NoChange
    else if !accepted then DriveFailed
    else Applied
  }

  function Execute(w: World, id: Id, target: string, accepted: bool): World {
    if ExecuteOutcome(w, id, target, accepted).Applied?
    then w.(state := w.state[id := target], device := w.device[id := target])
    else w
  }

  /** The actuators a failsafe drive acts on: those not already there. */
  function Unsafe(w: World): (ids: set<Id>)
    ensures forall id :: id in ids <==> id in w.specs && Lookup(w.state, id) != w.specs[id].failsafe
  {
    set id | id in w.specs && Lookup(w.state, id) != w.specs[id].failsafe
  }

  function DriveAllFailsafe(w: World, accepts: set<Id>): World {
    var driven := Failsafes(w.specs, Unsafe(w) * accepts);
    w.(state := w.state + driven, device := w.device + driven)
  }

  // ---- Runs --------------------------------------------------------------

  datatype Op =
    | Configure(specs: seq<Spec>, accepts: set<Id>)
    | Command(id: Id, target: string, accepted: bool)
    | Failsafe(accepts: set<Id>)

  function Step(w: World, op: Op): World {
    match op
    case Configure(specs, accepts) => SetSpecs(w, specs, accepts)
    case Command(id, target, accepted) => Execute(w, id, target, accepted)
    case Failsafe(accepts) => DriveAllFailsafe(w, accepts)
  }

  function Run(ops: seq<Op>): World {
    if ops == [] then NewWorld else Step(Run(ops[..|ops| - 1]), ops[|ops| - 1])
  }

  /** Tracked actuators are enabled specs, and each is where the backend was last driven. */
  ghost predicate Faithful(w: World) {
    && w.state.Keys <= w.specs.Keys
    && (forall id :: id in w.specs ==> w.specs[id].enabled && w.specs[id].id == id)
    && (forall id :: id in w.state ==> id in w.device && w.device[id] == w.state[id])
  }

  lemma StepFaithful(w: World, op: Op)
    requires Faithful(w)
    ensures Faithful(Step(w, op))
  {
  }

  lemma {:induction false} RunFaithful(ops: seq<Op>)
    ensures Faithful(Run(ops))
  {
    if ops != [] {
      RunFaithful(ops[..|ops| - 1]);
      StepFaithful(Run(ops[..|ops| - 1]), ops[|ops| - 1]);
    }
  }

  /** After a failsafe drive every configured actuator whose drive did not fail is at its failsafe. */
  lemma FailsafeReached(w: World, accepts: set<Id>, id: Id)
    requires id in w.specs
    ensures var after := DriveAllFailsafe(w, accepts);
      && (id in accepts ==> Lookup(after.state, id) == w.specs[id].failsafe)
      && (id !in accepts ==> Lookup(after.state, id) == Lookup(w.state, id))
      && (after.state != w.state ==> exists moved :: moved in accepts && moved in Unsafe(w))
  {
    var driven := Failsafes(w.specs, Unsafe(w) * accepts);
    if driven == map[] {
      assert w.state + driven == w.state;
    } else {
      var moved :| moved in driven;
    }
  }

  /** An actuator only ever moves to a state its spec allows or to its failsafe. */
  lemma MovesAreAllowed(w: World, op: Op, id: Id)
    requires id in Step(w, op).state
    requires id !in w.state || Step(w, op).state[id] != w.state[id]
    ensures id in Step(w, op).specs
    ensures var s := Step(w, op).specs[id];
      Step(w, op).state[id] == s.failsafe || Step(w, op).state[id] in s.states
  {
  }
}
