// The run page's header: a loading placeholder, a prompt when no run is
// selected, or the run's status icon and its totals over its steps.
module HeaderStats {
  import opened Types
  import Seqs
  import Totals

  datatype StatusIcon = Spinner | Check | Cross

  /** Running spins, completed is checked, anything else is crossed out. */
  function Icon(status: RunStatus): (r: StatusIcon)
    ensures r == Spinner <==> status == RunStatus.Running
    ensures r == Check <==> status == RunStatus.Completed
    ensures r == Cross <==> status == RunStatus.Failed
  {
    match status
    case Running => Spinner
    case Completed => Check
    case Failed => Cross
  }

  datatype Figures = Figures(
    durationMs: int,
    promptTokens: int,
    completionTokens: int,
    totalTokens: int,
    costUsd: real,
    stepCount: nat)

  /** Each total is `steps?.reduce(...) ?? 0`: nothing at all without a step
      list; the token total is the prompt total plus the completion total. */
  function FiguresOf(steps: Option<seq<Step>>): (f: Figures)
    ensures steps.None? ==> f == Figures(0, 0, 0, 0, 0.0, 0)
    ensures f.totalTokens == f.promptTokens + f.completionTokens
    ensures steps.Some? ==> f.stepCount == |steps.value|
  {
    match steps
    case None => Figures(0, 0, 0, 0, 0.0, 0)
    case Some(ss) =>
      var prompt := Seqs.Sum(ss, Totals.PromptOf);
      var completion := Seqs.Sum(ss, Totals.CompletionOf);
      Figures(Seqs.Sum(ss, Totals.DurationOf), prompt, completion, prompt + completion,
              Totals.RealSum(ss, Totals.CostOf), |ss|)
  }

  datatype View =
    | Loading
    | Prompt
    | Summary(status: RunStatus, icon: StatusIcon, systemType: SystemType, figures: Figures)

  /** Loading wins over everything; then a missing run shows only the prompt. */
  function Render(run: Option<Run>, steps: Option<seq<Step>>, isLoading: bool): (v: View)
    ensures isLoading ==> v == Loading
    ensures !isLoading && run.None? ==> v == Prompt
    ensures !isLoading && run.Some? ==>
              v.Summary? && v.status == run.value.status && v.icon == Icon(run.value.status) &&
              v.systemType == run.value.systemType && v.figures == FiguresOf(steps)
  {
    if isLoading then Loading
    else match run
      case None => Prompt
      case Some(r) => Summary(r.status, Icon(r.status), r.systemType, FiguresOf(steps))
  }

  // ---- Properties -----------------------------------------------------------

  /** The header's token total is the per-step token count summed, the
      figure every other dashboard component adds up. */
  lemma TokensArePerStepTokens(steps: seq<Step>)
    ensures FiguresOf(Some(steps)).totalTokens == Seqs.Sum(steps, Totals.TokensOf)
  {
    Totals.TokensSplit(steps);
  }

  /** Adding a step to the run adds exactly its own numbers to each total. */
  lemma FiguresGrow(steps: seq<Step>, s: Step)
    ensures var before := FiguresOf(Some(steps));
            var after := FiguresOf(Some(steps + [s]));
            after.durationMs == before.durationMs + s.durationMs &&
            after.promptTokens == before.promptTokens + s.tokensPrompt &&
            after.completionTokens == before.completionTokens + s.tokensCompletion &&
            after.costUsd == before.costUsd + s.costUsd &&
            after.stepCount == before.stepCount + 1
  {
    Seqs.SumAppend(steps, [s], Totals.DurationOf);
    Seqs.SumAppend(steps, [s], Totals.PromptOf);
    Seqs.SumAppend(steps, [s], Totals.CompletionOf);
    Totals.RealSumAppend(steps, [s], Totals.CostOf);
  }

  /** Steps with no negative numbers give no negative totals. */
  lemma FiguresNonNegative(steps: seq<Step>)
    requires forall s :: s in steps ==> s.durationMs >= 0 && s.tokensPrompt >= 0 && s.tokensCompletion >= 0
    ensures var f := FiguresOf(Some(steps));
            f.durationMs >= 0 && f.promptTokens >= 0 && f.completionTokens >= 0 && f.totalTokens >= 0
  {
    Seqs.SumNonNegative(steps, Totals.DurationOf);
    Seqs.SumNonNegative(steps, Totals.PromptOf);
    Seqs.SumNonNegative(steps, Totals.CompletionOf);
  }
}
