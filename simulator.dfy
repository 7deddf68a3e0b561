// The scenario simulator: walks a scenario tree in pre-order, and for each
// node creates a running step, broadcasts it, then completes or fails it,
// stores it and broadcasts it again. The whole walk ends the run completed,
// or failed when anything raised.
//
// Fresh step ids and the wall clock are the environment's: `env.ids(n)` is
// the n-th id drawn and `env.clock(n)` the n-th reading of the clock; the
// simulation counts how many of each it has used. Broadcasts are recorded
// in an outbox, in order (their delivery is the rooms' business).
module Simulator {
  import opened Types
  import Keyed
  import Cost
  import Database

  // ---- Pricing --------------------------------------------------------------

  /** The backend's own copy of the rate table (USD per 1000 tokens). */
  const CostRates: map<string, Cost.Rates> := map[
    "gpt-4" := Cost.Rates(0.03, 0.06),
    "claude-3.5" := Cost.Rates(0.003, 0.015),
    "default" := Cost.Rates(0.01, 0.03)
  ]

  /** The model every simulated step is priced at. */
  const ModelKey := "default"

  function ComputeCost(tokensPrompt: int, tokensCompletion: int): real
  {
    var rates := CostRates[ModelKey];
    (tokensPrompt as real / 1000.0) * rates.prompt + (tokensCompletion as real / 1000.0) * rates.completion
  }

  /** The backend prices exactly as the client does for the `default` model. */
  lemma BackendPricingMatchesClient(tokensPrompt: int, tokensCompletion: int)
    ensures CostRates == Cost.CostRates
    ensures Cost.ComputeCost(tokensPrompt, tokensCompletion) == Cost.Usd(ComputeCost(tokensPrompt, tokensCompletion))
    ensures ComputeCost(tokensPrompt, tokensCompletion) ==
            tokensPrompt as real / 1000.0 * 0.01 + tokensCompletion as real / 1000.0 * 0.03
  {
  }

  // ---- Scenarios ------------------------------------------------------------

  /** A blueprint node. `stepType` is the raw tag, checked only when the step
      is emitted; `delayS` is the simulated wait, which has no other effect. */
  datatype ScenarioStep = ScenarioStep(
    name: string,
    stepType: string,
    delayS: real,
    durationMs: int,
    tokensPrompt: int,
    tokensCompletion: int,
    children: seq<ScenarioStep>,
    shouldFail: bool,
    retryOf: Option<string>,
    inputData: Payload,
    outputData: Payload,
    errorData: Option<Payload>)

  /** A value, or the exception that was raised instead. */
  datatype Raises<T> = Value(v: T) | Raised

  const DefaultFailure := "Step failed unexpectedly"

  function Get(d: Payload, k: string): Option<string>
  {
    if k in d then Some(d[k]) else None
  }

  /** `StepError(**error_data)` when error data is present and non-empty
      (it raises without a "message" entry), the stock error otherwise. */
  function ErrorFor(sc: ScenarioStep): Raises<StepError>
  {
    match sc.errorData
    case None => Value(StepError(DefaultFailure, None, None))
    case Some(d) =>
      if d == map[] then Value(StepError(DefaultFailure, None, None))
      else if "message" in d then Value(StepError(d["message"], Get(d, "stack"), Get(d, "code")))
      else Raised
  }

  /** The step as first created: running, priced, carrying the blueprint's
      name, type, token counts and input. The type tag must name a step
      type, or the enum conversion raises before anything is stored. */
  function StartStep(runId: string, sc: ScenarioStep, parent: Option<string>, stepId: string, now: Timestamp): (r: Raises<Step>)
    ensures r.Raised? <==> ParseStepType(sc.stepType).None?
    ensures r.Value? ==>
              r.v.stepId == stepId && r.v.runId == runId && r.v.parentStepId == parent &&
              r.v.name == sc.name && StepTypeName(r.v.stepType) == sc.stepType &&
              r.v.status == StepStatus.Running && r.v.startedAt == now && r.v.endedAt.None? &&
              r.v.durationMs == 0 && r.v.tokensPrompt == sc.tokensPrompt &&
              r.v.tokensCompletion == sc.tokensCompletion &&
              Cost.ComputeCost(sc.tokensPrompt, sc.tokensCompletion) == Cost.Usd(r.v.costUsd) &&
              r.v.input == sc.inputData && r.v.output == map[] && r.v.error.None?
  {
    match ParseStepType(sc.stepType)
    case None => Raised
    case Some(t) =>
      Value(Step(stepId, runId, parent, sc.name, t, StepStatus.Running, now, None, 0,
                 sc.tokensPrompt, sc.tokensCompletion, ComputeCost(sc.tokensPrompt, sc.tokensCompletion),
                 sc.inputData, map[], None))
  }

  /** How finishing a step ends: completed or failed, or raised while
      building the error, after the step object was already changed. */
  datatype Finish = Done(step: Step) | RaisedAfter(partial: Step)

  function FinishStep(s: Step, sc: ScenarioStep, endTime: Timestamp): Finish
  {
    var timed := s.(endedAt := Some(endTime), durationMs := sc.durationMs);
    if sc.shouldFail then
      var failed := timed.(status := StepStatus.Failed, stepType := StepType.Error);
      match ErrorFor(sc)
      case Raised => RaisedAfter(failed)
      case Value(e) => Done(failed.(error := Some(e), output := map[]))
    else
      // a retry completes exactly like any other step
      Done(timed.(status := StepStatus.Completed, output := sc.outputData))
  }

  /** A node the walk gets through: its tag parses and, if it fails, its
      error can be built. */
  predicate NodeOk(sc: ScenarioStep)
  {
    ParseStepType(sc.stepType).Some? && (sc.shouldFail ==> ErrorFor(sc).Value?)
  }

  /** Every node of the tree is. */
  predicate WellFormed(sc: ScenarioStep)
    decreases sc
  {
    NodeOk(sc) && forall i :: 0 <= i < |sc.children| ==> WellFormed(sc.children[i])
  }

  /** The number of nodes of the tree, and of the subtrees `children[i..]`. */
  function Size(sc: ScenarioStep): nat
    decreases sc, 1, 0
  {
    1 + SizeFrom(sc, 0)
  }

  function SizeFrom(sc: ScenarioStep, i: nat): nat
    decreases sc, 0, |sc.children| - i
  {
    if i >= |sc.children| then 0 else Size(sc.children[i]) + SizeFrom(sc, i + 1)
  }

  // ---- The walk, as a function of the state ---------------------------------

  datatype Env = Env(ids: nat -> string, clock: nat -> Timestamp)

  /** The step and run tables, the outbox and how many ids and clock
      readings have been used. */
  datatype Sim = Sim(steps: seq<Step>, runs: seq<Run>, outbox: seq<WsMessage>, issued: nat, ticks: nat)

  /** `emit_step`: the new step's id, or None when it raised. */
  function Emit(env: Env, runId: string, sc: ScenarioStep, parent: Option<string>, st: Sim): (Sim, Option<string>)
  {
    var id := env.ids(st.issued);
    var st1 := st.(issued := st.issued + 1, ticks := st.ticks + 1);
    match StartStep(runId, sc, parent, id, env.clock(st.ticks))
    case Raised => (st1, None)
    case Value(s) => EmitRest(env, sc, s, id, st1)
  }

  /** The rest of `emit_step` once the step exists: store and broadcast it,
      read the clock, then finish it. */
  function EmitRest(env: Env, sc: ScenarioStep, s: Step, id: string, st1: Sim): (Sim, Option<string>)
  {
    FinishEmit(sc, s, id, env.clock(st1.ticks), Started(s, st1))
  }

  /** The new step stored and broadcast, and the clock read for its end. */
  function Started(s: Step, st1: Sim): Sim
  {
    st1.(steps := Keyed.Upsert(st1.steps, s, StepKey), outbox := st1.outbox + [StepUpdate(s)], ticks := st1.ticks + 1)
  }

  /** The step finished at `endTime`, stored, and broadcast unless finishing
      raised. */
  function FinishEmit(sc: ScenarioStep, s: Step, id: string, endTime: Timestamp, st2: Sim): (Sim, Option<string>)
  {
    match FinishStep(s, sc, endTime)
    // the stored object is the one being changed
    case RaisedAfter(partial) => (st2.(steps := Keyed.Upsert(st2.steps, partial, StepKey)), None)
    case Done(f) =>
      (st2.(steps := Keyed.Upsert(st2.steps, f, StepKey), outbox := st2.outbox + [StepUpdate(f)]), Some(id))
  }

  /** The root records its step id on the run, when the run exists. */
  function SetRoot(runId: string, rootId: string, st: Sim): Sim
  {
    match Keyed.Lookup(st.runs, runId, RunKey)
    case None => st
    case Some(run) =>
      var r := run.(rootStepId := Some(rootId));
      st.(runs := Keyed.Upsert(st.runs, r, RunKey), outbox := st.outbox + [RunUpdate(r)])
  }

  /** `walk_scenario`: emit the node, then walk its children in order under
      its id. The flag says whether the walk got through without raising. */
  function Walk(env: Env, runId: string, sc: ScenarioStep, parent: Option<string>, isRoot: bool, st: Sim): (Sim, bool)
    decreases sc, 1, 0
  {
    var (st1, id) := Emit(env, runId, sc, parent, st);
    match id
    case None => (st1, false)
    case Some(id) =>
      var st2 := if isRoot then SetRoot(runId, id, st1) else st1;
      WalkFrom(env, runId, sc, i := 0, parentId := id, st := st2)
  }

  /** The children `sc.children[i..]`, one after the other, until one raises. */
  function WalkFrom(env: Env, runId: string, sc: ScenarioStep, i: nat, parentId: string, st: Sim): (Sim, bool)
    decreases sc, 0, |sc.children| - i
  {
    if i >= |sc.children| then (st, true)
    else
      var (st1, ok) := Walk(env, runId, sc.children[i], Some(parentId), false, st);
      if !ok then (st1, false) else WalkFrom(env, runId, sc, i + 1, parentId, st1)
  }

  /** The run's final write: the given status and a fresh update time, when
      the run exists. */
  function Finalize(env: Env, runId: string, status: RunStatus, st: Sim): Sim
  {
    match Keyed.Lookup(st.runs, runId, RunKey)
    case None => st
    case Some(run) =>
      var r := run.(status := status, updatedAt := env.clock(st.ticks));
      st.(runs := Keyed.Upsert(st.runs, r, RunKey), outbox := st.outbox + [RunUpdate(r)], ticks := st.ticks + 1)
  }

  /** `run_simulation` for a known scenario. */
  function Simulate(env: Env, runId: string, sc: ScenarioStep, st: Sim): Sim
  {
    var (st1, ok) := Walk(env, runId, sc, None, true, st);
    Finalize(env, runId, if ok then RunStatus.Completed else RunStatus.Failed, st1)
  }

  // ---- The simulator object -------------------------------------------------

  class Simulation {
    const env: Env
    const db: Database.Store
    var outbox: seq<WsMessage>
    var issued: nat
    var ticks: nat

    function State(): Sim
      reads this, db
    {
      Sim(db.steps, db.runs, outbox, issued, ticks)
    }

    constructor (env: Env, db: Database.Store)
      ensures this.env == env && this.db == db
      ensures outbox == [] && issued == 0 && ticks == 0
    {
      this.env := env;
      this.db := db;
      outbox := [];
      issued := 0;
      ticks := 0;
    }

    method FreshId() returns (id: string)
      modifies this`issued
      ensures id == env.ids(old(issued)) && issued == old(issued) + 1
    {
      id := env.ids(issued);
      issued := issued + 1;
    }

    method Now() returns (t: Timestamp)
      modifies this`ticks
      ensures t == env.clock(old(ticks)) && ticks == old(ticks) + 1
    {
      t := env.clock(ticks);
      ticks := ticks + 1;
    }

    method EmitStep(runId: string, sc: ScenarioStep, parent: Option<string>) returns (id: Option<string>)
      requires db.Valid()
      modifies this, db
      ensures db.Valid()
      ensures (State(), id) == Emit(env, runId, sc, parent, old(State()))
    {
      ghost var st := State();
      var stepId := FreshId();
      var now := Now();
      ghost var st1 := st.(issued := st.issued + 1, ticks := st.ticks + 1);
      assert State() == st1;
      var started := StartStep(runId, sc, parent, stepId, now);
      if started.Raised? {
        return None;
      }
      id := StoreAndFinish(started.v, sc, stepId);
    }

    /** The step is stored and broadcast running, then finished, stored and
        broadcast again. */
    method StoreAndFinish(step: Step, sc: ScenarioStep, stepId: string) returns (id: Option<string>)
      requires db.Valid()
      modifies this, db
      ensures db.Valid()
      ensures (State(), id) == EmitRest(env, sc, step, stepId, old(State()))
    {
      var endTime := StoreRunning(step);
      id := Finish(step, sc, stepId, endTime);
    }

    method StoreRunning(step: Step) returns (endTime: Timestamp)
      requires db.Valid()
      modifies this`outbox, this`ticks, db
      ensures db.Valid()
      ensures State() == Started(step, old(State())) && endTime == env.clock(old(ticks))
    {
      ghost var st1 := State();
      var _ := db.CreateStep(step);
      assert db.steps == Keyed.Upsert(st1.steps, step, StepKey) && db.runs == st1.runs;
      outbox := outbox + [StepUpdate(step)];
      endTime := Now();
      assert State() == Sim(db.steps, st1.runs, st1.outbox + [StepUpdate(step)], st1.issued, st1.ticks + 1);
    }

    method Finish(step: Step, sc: ScenarioStep, stepId: string, endTime: Timestamp) returns (id: Option<string>)
      requires db.Valid()
      modifies this`outbox, db
      ensures db.Valid()
      ensures (State(), id) == FinishEmit(sc, step, stepId, endTime, old(State()))
    {
      match FinishStep(step, sc, endTime) {
        case RaisedAfter(partial) =>
          // no write here in the source: the table already holds the very
          // object that was just changed
          var _ := db.UpdateStep(partial);
          return None;
        case Done(f) =>
          var _ := db.UpdateStep(f);
          outbox := outbox + [StepUpdate(f)];
          return Some(stepId);
      }
    }

    method WalkScenario(runId: string, sc: ScenarioStep, parent: Option<string>, isRoot: bool) returns (ok: bool)
      requires db.Valid()
      modifies this, db
      decreases sc, 1
      ensures db.Valid()
      ensures (State(), ok) == Walk(env, runId, sc, parent, isRoot, old(State()))
    {
      var id := EmitStep(runId, sc, parent);
      if id.None? {
        return false;
      }
      if isRoot {
        RecordRoot(runId, id.value);
      }
      ok := WalkChildren(runId, sc, id.value);
    }

    /** The root's id is written onto the run and the run re-broadcast. */
    method RecordRoot(runId: string, rootId: string)
      requires db.Valid()
      modifies this`outbox, db
      ensures db.Valid()
      ensures State() == SetRoot(runId, rootId, old(State()))
    {
      var run := db.GetRun(runId);
      if run.Some? {
        var r := run.value.(rootStepId := Some(rootId));
        var _ := db.UpdateRun(r);
        outbox := outbox + [RunUpdate(r)];
      }
    }

    /** `for child in children`: each child walked under `parentId`, in order,
        stopping at the first that raises. */
    method WalkChildren(runId: string, sc: ScenarioStep, parentId: string) returns (ok: bool)
      requires db.Valid()
      modifies this, db
      decreases sc, 0
      ensures db.Valid()
      ensures (State(), ok) == WalkFrom(env, runId, sc, 0, parentId, old(State()))
    {
      ghost var start := State();
      var i := 0;
      while i < |sc.children|
        invariant 0 <= i <= |sc.children|
        invariant db.Valid()
        invariant WalkFrom(env, runId, sc, 0, parentId, start) == WalkFrom(env, runId, sc, i, parentId, State())
      {
        ok := WalkScenario(runId, sc.children[i], Some(parentId), false);
        if !ok {
          return false;
        }
        i := i + 1;
      }
      ok := true;
    }

    /** A scenario name not in the catalogue only logs an error. */
    method RunSimulation(runId: string, scenarioName: string, scenarios: map<string, ScenarioStep>)
      requires db.Valid()
      modifies this, db
      ensures db.Valid()
      ensures scenarioName !in scenarios ==> State() == old(State())
      ensures scenarioName in scenarios ==> State() == Simulate(env, runId, scenarios[scenarioName], old(State()))
    {
      if scenarioName !in scenarios {
        return;
      }
      var ok := WalkScenario(runId, scenarios[scenarioName], None, true);
      FinishRun(runId, if ok then RunStatus.Completed else RunStatus.Failed);
    }

    /** The run, when it exists, gets its final status and end time, stored
        and broadcast. */
    method FinishRun(runId: string, status: RunStatus)
      requires db.Valid()
      modifies this`ticks, this`outbox, db
      ensures db.Valid()
      ensures State() == Finalize(env, runId, status, old(State()))
    {
      var run := db.GetRun(runId);
      if run.Some? {
        var now := Now();
        var r := run.value.(status := status, updatedAt := now);
        var _ := db.UpdateRun(r);
        outbox := outbox + [RunUpdate(r)];
      }
    }
  }
}
