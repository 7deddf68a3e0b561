// The client's shared query cache and the router that applies each parsed
// live message to it: a step update goes through the step-list updater for
// the step's own run; a run update replaces the cached run wholesale and
// marks the cached run list stale.
module EventRouter {
  import opened Types
  import StepCache

  /** The cache entries the router touches: the step list per run id
      (query key ["steps", runId]), the run per run id (["run", runId]) and
      how many times the run list (["runs"]) has been invalidated. */
  datatype CacheState = CacheState(
    stepLists: map<string, seq<Step>>,
    runs: map<string, Run>,
    runListInvalidations: nat)

  const EmptyCache := CacheState(map[], map[], 0)

  function CachedSteps(c: CacheState, runId: string): Option<seq<Step>>
  {
    if runId in c.stepLists then Some(c.stepLists[runId]) else None
  }

  /** The cache write of the step upsert: only the entry of the step's run. */
  function ApplyUpsert(c: CacheState, step: Step): (r: CacheState)
    ensures r.stepLists.Keys == c.stepLists.Keys + {step.runId}
    ensures r.stepLists[step.runId] == StepCache.UpsertStep(CachedSteps(c, step.runId), step)
    ensures forall k :: k in c.stepLists && k != step.runId ==> r.stepLists[k] == c.stepLists[k]
    ensures r.runs == c.runs && r.runListInvalidations == c.runListInvalidations
  {
    c.(stepLists := c.stepLists[step.runId := StepCache.UpsertStep(CachedSteps(c, step.runId), step)])
  }

  /** The message handler. */
  function Route(c: CacheState, msg: WsMessage): (r: CacheState)
    ensures msg.StepUpdate? ==> r == ApplyUpsert(c, msg.step)
    ensures msg.RunUpdate? ==>
              r.runs == c.runs[msg.run.runId := msg.run] && r.stepLists == c.stepLists &&
              r.runListInvalidations == c.runListInvalidations + 1
    ensures msg.Unrecognized? ==> r == c
  {
    match msg
    case StepUpdate(step) => ApplyUpsert(c, step)
    case RunUpdate(run) =>
      CacheState(c.stepLists, c.runs[run.runId := run], c.runListInvalidations + 1)
    case Unrecognized(_) => c
  }

  /** Messages applied in delivery order. */
  function RouteAll(c: CacheState, msgs: seq<WsMessage>): CacheState
    decreases |msgs|
  {
    if msgs == [] then c else RouteAll(Route(c, msgs[0]), msgs[1..])
  }

  // ---- Properties -----------------------------------------------------------

  /** A duplicated message leaves the cached steps and runs as one delivery
      does (only the invalidation count of a run update differs). */
  lemma RouteIdempotent(c: CacheState, msg: WsMessage)
    ensures Route(Route(c, msg), msg).stepLists == Route(c, msg).stepLists
    ensures Route(Route(c, msg), msg).runs == Route(c, msg).runs
  {
    if msg.StepUpdate? {
      var step := msg.step;
      var once := Route(c, msg);
      assert CachedSteps(once, step.runId) == Some(StepCache.UpsertStep(CachedSteps(c, step.runId), step));
      StepCache.UpsertStepIdempotent(CachedSteps(c, step.runId), step);
    }
  }

  /** A run update needs no prior entry and keeps none of its fields. */
  lemma RunUpdateReplacesWholesale(c: CacheState, run: Run)
    ensures Route(c, RunUpdate(run)).runs[run.runId] == run
    ensures forall id :: id in c.runs && id != run.runId ==> Route(c, RunUpdate(run)).runs[id] == c.runs[id]
  {
  }

  /** The end-to-end feed: run running, root running, child running, child
      completed, run completed leaves two cached steps, the child completed
      and the run completed. */
  lemma EndToEndFeed(run: Run, root: Step, child: Step)
    requires run.status == RunStatus.Running
    requires root.runId == run.runId && child.runId == run.runId
    requires root.stepId != child.stepId
    requires root.status == StepStatus.Running && child.status == StepStatus.Running
    ensures var done := child.(status := StepStatus.Completed);
            var finished := run.(status := RunStatus.Completed);
            var c := RouteAll(EmptyCache, [RunUpdate(run), StepUpdate(root), StepUpdate(child),
                                           StepUpdate(done), RunUpdate(finished)]);
            run.runId in c.stepLists && run.runId in c.runs &&
            c.stepLists[run.runId] == [root, done] && c.runs[run.runId] == finished
  {
    var done := child.(status := StepStatus.Completed);
    var finished := run.(status := RunStatus.Completed);
    var c1 := Route(EmptyCache, RunUpdate(run));
    var c2 := Route(c1, StepUpdate(root));
    assert c2.stepLists[run.runId] == [root];
    var c3 := Route(c2, StepUpdate(child));
    assert StepCache.IndexOf([root], child.stepId) == None by {
      assert StepKey(root) != child.stepId;
    }
    assert c3.stepLists[run.runId] == [root, child];
    var c4 := Route(c3, StepUpdate(done));
    assert StepCache.IndexOf([root, child], done.stepId) == Some(1) by {
      assert StepKey(root) != done.stepId;
      assert [root, child][1..] == [child];
    }
    assert c4.stepLists[run.runId] == [root, done];
    var c5 := Route(c4, RunUpdate(finished));
    var msgs := [RunUpdate(run), StepUpdate(root), StepUpdate(child), StepUpdate(done), RunUpdate(finished)];
    assert RouteAll(EmptyCache, msgs) == RouteAll(c1, msgs[1..]);
    assert RouteAll(c1, msgs[1..]) == RouteAll(c2, msgs[2..]);
    assert RouteAll(c2, msgs[2..]) == RouteAll(c3, msgs[3..]);
    assert RouteAll(c3, msgs[3..]) == RouteAll(c4, msgs[4..]);
    assert RouteAll(c4, msgs[4..]) == c5;
  }

  /** The process-wide query client, as far as the router writes it. */
  class QueryClient {
    var state: CacheState

    constructor ()
      ensures state == EmptyCache
    {
      state := EmptyCache;
    }

    /** The step upsert callback: one cache write under the step's run id. */
    method UpsertStep(step: Step)
      modifies this
      ensures state == ApplyUpsert(old(state), step)
    {
      var cached := CachedSteps(state, step.runId);
      state := state.(stepLists := state.stepLists[step.runId := StepCache.UpsertStep(cached, step)]);
    }

    /** The message handler registered with the live connection. */
    method HandleMessage(msg: WsMessage)
      modifies this
      ensures state == Route(old(state), msg)
    {
      match msg {
        case StepUpdate(step) =>
          UpsertStep(step);
        case RunUpdate(run) =>
          state := state.(runs := state.runs[run.runId := run]);
          state := state.(runListInvalidations := state.runListInvalidations + 1);
        case Unrecognized(_) =>
      }
    }
  }
}
