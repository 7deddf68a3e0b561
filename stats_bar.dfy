// The dashboard's stats bar: seven figures in a fixed order — the run
// count, the runs in each status, and the step, token and cost totals over
// every step of every run.
module StatsBar {
  import opened Types
  import Seqs
  import Totals

  /** The runs in a given status. */
  function HasStatus(status: RunStatus): Run -> bool
  {
    (r: Run) => r.status == status
  }

  function StatusCount(runs: seq<Run>, status: RunStatus): (n: nat)
    ensures n <= |runs|
  {
    Seqs.Count(runs, HasStatus(status))
  }

  /** How the token total is written: in thousands to one decimal above
      1000, as a plain number otherwise. */
  datatype TokenDisplay = Thousands(tokens: int) | Plain(tokens: int)

  function ShowTokens(n: int): (d: TokenDisplay)
    ensures d.tokens == n
    ensures d.Thousands? <==> n > 1000
  {
    if n > 1000 then Thousands(n) else Plain(n)
  }

  datatype Value = Number(n: int) | TokenFigure(display: TokenDisplay) | Dollars(usd: real)

  datatype Stat = Stat(name: string, value: Value, color: string)

  const Labels: seq<string> := ["Total Runs", "Running", "Completed", "Failed", "Total Steps", "Tokens", "Cost"]

  /** The nested `forEach`: every step of every run adds its tokens and its
      cost, every run adds its step count. */
  method AddUpSteps(all: Totals.StepsByRun) returns (totalTokens: int, totalCost: real, totalSteps: int)
    ensures totalTokens == Seqs.Sum(Totals.Flatten(all), Totals.TokensOf)
    ensures totalCost == Totals.RealSum(Totals.Flatten(all), Totals.CostOf)
    ensures totalSteps == |Totals.Flatten(all)|
  {
    totalTokens, totalCost, totalSteps := 0, 0.0, 0;
    for g := 0 to |all|
      invariant totalTokens == Seqs.Sum(Totals.Flatten(all[..g]), Totals.TokensOf)
      invariant totalCost == Totals.RealSum(Totals.Flatten(all[..g]), Totals.CostOf)
      invariant totalSteps == |Totals.Flatten(all[..g])|
    {
      var steps := all[g].1;
      ghost var done := Totals.Flatten(all[..g]);
      assert done + steps[..0] == done;
      for k := 0 to |steps|
        invariant totalTokens == Seqs.Sum(done + steps[..k], Totals.TokensOf)
        invariant totalCost == Totals.RealSum(done + steps[..k], Totals.CostOf)
      {
        assert done + steps[..k + 1] == (done + steps[..k]) + [steps[k]];
        Seqs.SumAppend(done + steps[..k], [steps[k]], Totals.TokensOf);
        Totals.RealSumAppend(done + steps[..k], [steps[k]], Totals.CostOf);
        totalTokens := totalTokens + Totals.TokensOf(steps[k]);
        totalCost := totalCost + Totals.CostOf(steps[k]);
      }
      assert done + steps[..|steps|] == done + steps;
      totalSteps := totalSteps + |steps|;
      Totals.FlattenSnoc(all, g);
    }
    assert all[..|all|] == all;
  }

  /** The seven figures, in their fixed order. */
  method Stats(runs: seq<Run>, all: Totals.StepsByRun) returns (stats: seq<Stat>)
    ensures |stats| == 7
    ensures forall i :: 0 <= i < 7 ==> stats[i].name == Labels[i]
    ensures stats[0].value == Number(|runs|)
    ensures stats[1].value == Number(StatusCount(runs, RunStatus.Running))
    ensures stats[2].value == Number(StatusCount(runs, RunStatus.Completed))
    ensures stats[3].value == Number(StatusCount(runs, RunStatus.Failed))
    ensures stats[4].value == Number(|Totals.Flatten(all)|)
    ensures stats[5].value == TokenFigure(ShowTokens(Seqs.Sum(Totals.Flatten(all), Totals.TokensOf)))
    ensures stats[6].value == Dollars(Totals.RealSum(Totals.Flatten(all), Totals.CostOf))
  {
    var completed := StatusCount(runs, RunStatus.Completed);
    var running := StatusCount(runs, RunStatus.Running);
    var failed := StatusCount(runs, RunStatus.Failed);
    var totalTokens, totalCost, totalSteps := AddUpSteps(all);
    stats := [
      Stat("Total Runs", Number(|runs|), "text-foreground"),
      Stat("Running", Number(running), "text-blue-400"),
      Stat("Completed", Number(completed), "text-emerald-400"),
      Stat("Failed", Number(failed), "text-red-400"),
      Stat("Total Steps", Number(totalSteps), "text-foreground"),
      Stat("Tokens", TokenFigure(ShowTokens(totalTokens)), "text-[hsl(var(--primary))]"),
      Stat("Cost", Dollars(totalCost), "text-foreground")
    ];
  }

  // ---- Properties -----------------------------------------------------------

  /** Every run is in exactly one of the three statuses, so the three counts
      add up to the run count. */
  lemma StatusCountsAddUp(runs: seq<Run>)
    ensures StatusCount(runs, RunStatus.Running) + StatusCount(runs, RunStatus.Completed) +
            StatusCount(runs, RunStatus.Failed) == |runs|
  {
    Seqs.CountSplit3(runs, HasStatus(RunStatus.Running), HasStatus(RunStatus.Completed), HasStatus(RunStatus.Failed));
  }

  /** The step total is the sum of the per-run list lengths, and the token
      total the sum of the per-run token totals. */
  lemma TotalsArePerRunSums(all: Totals.StepsByRun)
    ensures |Totals.Flatten(all)| == Seqs.Sum(all, (g: (string, seq<Step>)) => |g.1|)
    ensures Seqs.Sum(Totals.Flatten(all), Totals.TokensOf) ==
            Seqs.Sum(all, (g: (string, seq<Step>)) => Seqs.Sum(g.1, Totals.TokensOf))
  {
    Totals.FlattenLength(all);
    Totals.SumFlatten(all, Totals.TokensOf);
  }
}
