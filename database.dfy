// The backend's in-memory store: one insertion-ordered table of runs keyed
// by run id and one of steps keyed by step id (shared by every run). Writes
// insert or overwrite in place; reads are dictionary lookups, a sorted and
// truncated run listing, and a filtered, sorted step listing.
module Database {
  import opened Types
  import Keyed
  import Seqs
  import Ordering

  function CreatedAt(r: Run): string { r.createdAt }

  function StartedAt(s: Step): string { s.startedAt }

  /** The comprehension's condition in the per-run step query. */
  function OfRun(runId: string): Step -> bool
  {
    (s: Step) => s.runId == runId
  }

  const DefaultListLimit: int := 50

  class Store {
    var runs: seq<Run>
    var steps: seq<Step>

    ghost predicate Valid()
      reads this
    {
      Keyed.UniqueKeys(runs, RunKey) && Keyed.UniqueKeys(steps, StepKey)
    }

    constructor ()
      ensures Valid() && runs == [] && steps == []
    {
      runs := [];
      steps := [];
    }

    // ---- Runs ---------------------------------------------------------------

    /** `runs[run_id] = run`: the last write wins, an existing entry keeps its
        place, and the step table is not touched. */
    method CreateRun(run: Run) returns (r: Run)
      requires Valid()
      modifies this`runs
      ensures Valid() && r == run
      ensures runs == Keyed.Upsert(old(runs), run, RunKey)
      ensures Keyed.KeySet(runs, RunKey) == Keyed.KeySet(old(runs), RunKey) + {run.runId}
      ensures GetRun(run.runId) == Some(run)
      ensures forall id :: id != run.runId ==> GetRun(id) == old(GetRun(id))
    {
      Keyed.UpsertKeepsUniqueKeys(runs, run, RunKey);
      Keyed.UpsertKeySet(runs, run, RunKey);
      forall id {
        Keyed.LookupAfterUpsert(runs, run, RunKey, id);
      }
      runs := Keyed.Upsert(runs, run, RunKey);
      r := run;
    }

    /** The same write as `CreateRun`: an id not yet stored is inserted. */
    method UpdateRun(run: Run) returns (r: Run)
      requires Valid()
      modifies this`runs
      ensures Valid() && r == run
      ensures runs == Keyed.Upsert(old(runs), run, RunKey)
      ensures GetRun(run.runId) == Some(run)
      ensures forall id :: id != run.runId ==> GetRun(id) == old(GetRun(id))
    {
      r := CreateRun(run);
    }

    /** `runs.get(run_id)`: None exactly for ids never written. */
    function GetRun(runId: string): (r: Option<Run>)
      reads this
      ensures r.Some? <==> runId in Keyed.KeySet(runs, RunKey)
      ensures r.Some? ==> r.value in runs && r.value.runId == runId
    {
      Keyed.Lookup(runs, runId, RunKey)
    }

    /** `sorted(runs, key=created_at, reverse=True)[:limit]`. */
    function ListRuns(limit: int := DefaultListLimit): (r: seq<Run>)
      reads this
      ensures |r| == Ordering.PrefixLength(|runs|, limit)
      ensures 0 <= limit ==> |r| == if limit <= |runs| then limit else |runs|
      ensures Ordering.SortedBy(r, CreatedAt, true)
      ensures multiset(r) <= multiset(runs)
      ensures r == Ordering.SortBy(runs, CreatedAt, true)[..|r|]
    {
      var sorted := Ordering.SortBy(runs, CreatedAt, true);
      Ordering.SortBySorted(runs, CreatedAt, true);
      PrefixSubMultiset(sorted, Ordering.PrefixLength(|sorted|, limit));
      Ordering.TakePrefix(sorted, limit)
    }

    // ---- Steps --------------------------------------------------------------

    /** `steps[step_id] = step`: one table for every run; the run table is
        not touched. */
    method CreateStep(step: Step) returns (r: Step)
      requires Valid()
      modifies this`steps
      ensures Valid() && r == step
      ensures steps == Keyed.Upsert(old(steps), step, StepKey)
      ensures Keyed.KeySet(steps, StepKey) == Keyed.KeySet(old(steps), StepKey) + {step.stepId}
      ensures GetStep(step.stepId) == Some(step)
      ensures forall id :: id != step.stepId ==> GetStep(id) == old(GetStep(id))
    {
      Keyed.UpsertKeepsUniqueKeys(steps, step, StepKey);
      Keyed.UpsertKeySet(steps, step, StepKey);
      forall id {
        Keyed.LookupAfterUpsert(steps, step, StepKey, id);
      }
      steps := Keyed.Upsert(steps, step, StepKey);
      r := step;
    }

    /** The same write as `CreateStep`. */
    method UpdateStep(step: Step) returns (r: Step)
      requires Valid()
      modifies this`steps
      ensures Valid() && r == step
      ensures steps == Keyed.Upsert(old(steps), step, StepKey)
      ensures GetStep(step.stepId) == Some(step)
      ensures forall id :: id != step.stepId ==> GetStep(id) == old(GetStep(id))
    {
      r := CreateStep(step);
    }

    function GetStep(stepId: string): (r: Option<Step>)
      reads this
      ensures r.Some? <==> stepId in Keyed.KeySet(steps, StepKey)
      ensures r.Some? ==> r.value in steps && r.value.stepId == stepId
    {
      Keyed.Lookup(steps, stepId, StepKey)
    }

    /** `sorted([s for s in steps if s.run_id == run_id], key=started_at)`. */
    function GetStepsForRun(runId: string): (r: seq<Step>)
      reads this
      ensures multiset(r) == multiset(Seqs.Filter(steps, OfRun(runId)))
      ensures forall i :: 0 <= i < |r| ==> r[i].runId == runId && r[i] in steps
      ensures forall i :: 0 <= i < |steps| && steps[i].runId == runId ==> steps[i] in r
      ensures Ordering.SortedBy(r, StartedAt, false)
    {
      var mine := Seqs.Filter(steps, OfRun(runId));
      Ordering.SortBySorted(mine, StartedAt, false);
      var r := Ordering.SortBy(mine, StartedAt, false);
      SameMembers(steps, runId, r);
      r
    }
  }

  /** A permutation of the run's filtered steps holds exactly those steps. */
  lemma SameMembers(steps: seq<Step>, runId: string, r: seq<Step>)
    requires multiset(r) == multiset(Seqs.Filter(steps, OfRun(runId)))
    ensures forall i :: 0 <= i < |r| ==> r[i].runId == runId && r[i] in steps
    ensures forall i :: 0 <= i < |steps| && steps[i].runId == runId ==> steps[i] in r
  {
    forall i | 0 <= i < |r| ensures r[i].runId == runId && r[i] in steps {
      FromFiltered(steps, runId, r, i);
    }
    forall i | 0 <= i < |steps| && steps[i].runId == runId ensures steps[i] in r {
      IntoFiltered(steps, runId, r, i);
    }
  }

  lemma FromFiltered(steps: seq<Step>, runId: string, r: seq<Step>, i: nat)
    requires multiset(r) == multiset(Seqs.Filter(steps, OfRun(runId))) && i < |r|
    ensures r[i].runId == runId && r[i] in steps
  {
    var mine := Seqs.Filter(steps, OfRun(runId));
    assert r[i] in multiset(mine);
    var k :| 0 <= k < |mine| && mine[k] == r[i];
    Seqs.FilterSound(steps, OfRun(runId), k);
  }

  lemma IntoFiltered(steps: seq<Step>, runId: string, r: seq<Step>, i: nat)
    requires multiset(r) == multiset(Seqs.Filter(steps, OfRun(runId)))
    requires i < |steps| && steps[i].runId == runId
    ensures steps[i] in r
  {
    Seqs.FilterComplete(steps, OfRun(runId), i);
    assert steps[i] in multiset(r);
  }

  lemma PrefixSubMultiset<T>(s: seq<T>, n: nat)
    requires n <= |s|
    ensures multiset(s[..n]) <= multiset(s)
  {
    assert s == s[..n] + s[n..];
  }

  // ---- Properties -----------------------------------------------------------

  /** The run listing keeps the insertion order of runs created at the same
      instant: its entries with one timestamp are the first of the stored
      runs with that timestamp, in table order. */
  lemma ListRunsStable(db: Store, limit: int, createdAt: string)
    ensures var same := Ordering.HasKey(CreatedAt, createdAt);
            var listed := Seqs.Filter(db.ListRuns(limit), same);
            |listed| <= |Seqs.Filter(db.runs, same)| &&
            listed == Seqs.Filter(db.runs, same)[..|listed|]
  {
    var same := Ordering.HasKey(CreatedAt, createdAt);
    var sorted := Ordering.SortBy(db.runs, CreatedAt, true);
    var n := |db.ListRuns(limit)|;
    assert sorted == db.ListRuns(limit) + sorted[n..];
    Seqs.FilterAppend(db.ListRuns(limit), sorted[n..], same);
    Ordering.SortByStable(db.runs, CreatedAt, true, createdAt);
  }

  /** The newest run leads the listing: no stored run was created later
      than the first entry. */
  lemma NewestFirst(db: Store, limit: int, i: nat)
    requires i < |db.runs| && db.ListRuns(limit) != []
    ensures Ordering.Le(db.runs[i].createdAt, db.ListRuns(limit)[0].createdAt)
  {
    var sorted := Ordering.SortBy(db.runs, CreatedAt, true);
    Ordering.SortBySorted(db.runs, CreatedAt, true);
    assert db.runs[i] in multiset(sorted);
    var j :| 0 <= j < |sorted| && sorted[j] == db.runs[i];
    assert db.ListRuns(limit)[0] == sorted[0];
    if j > 0 {
      assert !Ordering.Precedes(sorted[j], sorted[0], CreatedAt, true);
    } else {
      Ordering.LtIrreflexive(sorted[0].createdAt);
    }
  }

  /** Steps of one run started at the same instant come out in the order
      they were first written. */
  lemma {:induction false} StepsForRunStable(db: Store, runId: string, startedAt: string)
    ensures Seqs.Filter(db.GetStepsForRun(runId), Ordering.HasKey(StartedAt, startedAt)) ==
            Seqs.Filter(Seqs.Filter(db.steps, OfRun(runId)), Ordering.HasKey(StartedAt, startedAt))
  {
    Ordering.SortByStable(Seqs.Filter(db.steps, OfRun(runId)), StartedAt, false, startedAt);
  }

  /** A limit of zero, or one reaching back past every run, lists nothing. */
  lemma EmptyListing(db: Store, limit: int)
    requires limit <= 0 && |db.runs| + limit <= 0
    ensures db.ListRuns(limit) == []
  {
  }

  /** Run writes leave the step table alone and step writes the run table. */
  method TablesAreIndependent(db: Store, run: Run, step: Step)
    requires db.Valid()
    modifies db
    ensures db.steps == Keyed.Upsert(old(db.steps), step, StepKey)
    ensures db.runs == Keyed.Upsert(old(db.runs), run, RunKey)
    ensures db.GetRun(run.runId) == Some(run) && db.GetStep(step.stepId) == Some(step)
  {
    var _ := db.CreateRun(run);
    var _ := db.CreateStep(step);
  }
}
