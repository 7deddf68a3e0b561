// The per-step quantities the dashboard adds up, and the steps-by-run
// collection it receives: a JavaScript Map from run id to that run's steps,
// which iterates in insertion order and holds each key once.
//
// Numeric step fields are read as `field || 0`. Every step carries its
// numbers (the backend fills in zeros), and `x || 0` is `x` for every number
// (0 gives 0), so each reading is the field itself.
module Totals {
  import opened Types
  import Seqs
  import Keyed

  function DurationOf(s: Step): int { s.durationMs }

  function PromptOf(s: Step): int { s.tokensPrompt }

  function CompletionOf(s: Step): int { s.tokensCompletion }

  /** `(s.tokens_prompt || 0) + (s.tokens_completion || 0)`. */
  function TokensOf(s: Step): int { s.tokensPrompt + s.tokensCompletion }

  function CostOf(s: Step): real { s.costUsd }

  /** `s.reduce((a, x) => a + f(x), 0)` over reals. */
  function RealSum(s: seq<Step>, f: Step -> real): real
  {
    if s == [] then 0.0 else f(s[0]) + RealSum(s[1..], f)
  }

  lemma {:induction false} RealSumAppend(a: seq<Step>, b: seq<Step>, f: Step -> real)
    ensures RealSum(a + b, f) == RealSum(a, f) + RealSum(b, f)
  {
    if a == [] {
      assert a + b == b;
    } else {
      assert (a + b)[1..] == a[1..] + b;
      RealSumAppend(a[1..], b, f);
    }
  }

  /** Adding up tokens step by step is adding up the prompt and completion
      columns separately. */
  lemma {:induction false} TokensSplit(steps: seq<Step>)
    ensures Seqs.Sum(steps, TokensOf) == Seqs.Sum(steps, PromptOf) + Seqs.Sum(steps, CompletionOf)
  {
    if steps != [] {
      TokensSplit(steps[1..]);
    }
  }

  // ---- Steps grouped by run -------------------------------------------------

  type StepsByRun = seq<(string, seq<Step>)>

  function GroupKey(g: (string, seq<Step>)): string { g.0 }

  /** `allSteps.get(runId) || []`: an absent run has no steps (an empty list
      is truthy, so a present one is kept as it is). */
  function StepsOf(all: StepsByRun, runId: string): (r: seq<Step>)
    ensures (forall j :: 0 <= j < |all| ==> all[j].0 != runId) ==> r == []
    ensures forall j :: 0 <= j < |all| && all[j].0 == runId && Keyed.UniqueKeys(all, GroupKey) ==> r == all[j].1
  {
    match Keyed.Lookup(all, runId, GroupKey)
    case None => []
    case Some(g) => g.1
  }

  /** Every step of every run, run by run in the map's order. */
  function Flatten(all: StepsByRun): seq<Step>
  {
    if all == [] then [] else all[0].1 + Flatten(all[1..])
  }

  lemma {:induction false} FlattenAppend(a: StepsByRun, b: StepsByRun)
    ensures Flatten(a + b) == Flatten(a) + Flatten(b)
  {
    if a == [] {
      assert a + b == b;
    } else {
      assert (a + b)[1..] == a[1..] + b;
      FlattenAppend(a[1..], b);
    }
  }

  /** The running form of a loop over the map's entries. */
  lemma FlattenSnoc(all: StepsByRun, g: nat)
    requires g < |all|
    ensures Flatten(all[..g + 1]) == Flatten(all[..g]) + all[g].1
  {
    assert all[..g + 1] == all[..g] + [all[g]];
    FlattenAppend(all[..g], [all[g]]);
    assert Flatten([all[g]]) == all[g].1 + Flatten([]);
  }

  /** The total number of steps is the sum of the per-run list lengths. */
  lemma {:induction false} FlattenLength(all: StepsByRun)
    ensures |Flatten(all)| == Seqs.Sum(all, (g: (string, seq<Step>)) => |g.1|)
  {
    if all != [] {
      FlattenLength(all[1..]);
    }
  }

  /** Summing over the flattened steps is summing each run's steps and then
      the per-run results. */
  lemma {:induction false} SumFlatten(all: StepsByRun, f: Step -> int)
    ensures Seqs.Sum(Flatten(all), f) == Seqs.Sum(all, (g: (string, seq<Step>)) => Seqs.Sum(g.1, f))
  {
    if all != [] {
      Seqs.SumAppend(all[0].1, Flatten(all[1..]), f);
      SumFlatten(all[1..], f);
    }
  }
}
