// The client's per-run step list and the updater that merges one inbound
// step into it (insert, or replace in place, keyed by step id).
module StepCache {
  import opened Types
  import Keyed

  /** Position of the first cached step carrying `id`. */
  function IndexOf(steps: seq<Step>, id: string): Option<nat>
  {
    Keyed.FirstIndex(steps, id, StepKey)
  }

  function Ids(steps: seq<Step>): seq<string>
  {
    Keyed.Keys(steps, StepKey)
  }

  /** The cache updater: `cached` is the list held for the step's run, absent
      when nothing is cached yet. */
  function UpsertStep(cached: Option<seq<Step>>, step: Step): (r: seq<Step>)
    ensures cached.None? ==> r == [step]
    ensures cached.Some? && IndexOf(cached.value, step.stepId).Some? ==>
              var i := IndexOf(cached.value, step.stepId).value;
              |r| == |cached.value| && r[i] == step &&
              forall j :: 0 <= j < |r| && j != i ==> r[j] == cached.value[j]
    ensures cached.Some? && IndexOf(cached.value, step.stepId).None? ==>
              r == cached.value + [step]
    ensures cached.Some? ==>
              Keyed.KeySet(r, StepKey) == Keyed.KeySet(cached.value, StepKey) + {step.stepId}
    ensures cached.Some? ==>
              Ids(r) == if IndexOf(cached.value, step.stepId).Some? then Ids(cached.value)
                        else Ids(cached.value) + [step.stepId]
  {
    match cached
    case None => [step]
    case Some(s) =>
      Keyed.UpsertKeySet(s, step, StepKey);
      Keyed.UpsertKeys(s, step, StepKey);
      Keyed.UpsertByIndex(s, step, StepKey);
      Keyed.Upsert(s, step, StepKey)
  }

  /** Delivering the same step twice leaves the list as delivering it once. */
  lemma UpsertStepIdempotent(cached: Option<seq<Step>>, step: Step)
    ensures UpsertStep(Some(UpsertStep(cached, step)), step) == UpsertStep(cached, step)
  {
    match cached
    case None =>
      assert StepKey(step) == step.stepId;
      assert IndexOf([step], step.stepId) == Some(0);
    case Some(s) =>
      Keyed.UpsertIdempotent(s, step, StepKey);
  }

  /** After the updater, reading the list by id gives the new step for its
      own id and the old answer for every other id. */
  lemma UpsertStepLookup(cached: seq<Step>, step: Step, id: string)
    ensures Keyed.Lookup(UpsertStep(Some(cached), step), id, StepKey) ==
            if id == step.stepId then Some(step) else Keyed.Lookup(cached, id, StepKey)
  {
    Keyed.LookupAfterUpsert(cached, step, StepKey, id);
  }

  /** Inserting A, then B, then an updated A' yields [A', B], not [B, A']. */
  lemma UpsertKeepsPosition(a: Step, b: Step, a': Step)
    requires a.stepId != b.stepId && a'.stepId == a.stepId
    ensures UpsertStep(Some(UpsertStep(Some(UpsertStep(None, a)), b)), a') == [a', b]
  {
    var s1 := UpsertStep(None, a);
    assert IndexOf(s1, b.stepId) == None by {
      assert Keyed.FirstIndex(s1[1..], b.stepId, StepKey) == None;
    }
    var s2 := UpsertStep(Some(s1), b);
    assert s2 == [a, b];
    assert IndexOf(s2, a'.stepId) == Some(0);
  }
}
