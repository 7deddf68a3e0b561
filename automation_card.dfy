// A run's card on the dashboard: a status dot, a one-line description, the
// step count and the totals, each total shown only when positive.
module AutomationCard {
  import opened Types
  import Seqs
  import Totals
  import HeaderStats

  /** The status-dot colour of each run status; the table is total. */
  function StatusDot(status: RunStatus): (r: string)
    ensures r in {"bg-blue-500", "bg-emerald-500", "bg-red-500"}
  {
    match status
    case Running => "bg-blue-500"
    case Completed => "bg-emerald-500"
    case Failed => "bg-red-500"
  }

  const Separator := " · "

  /** The system type, then " · " and the first tag when there is one. */
  function Description(run: Run): string
  {
    SystemTypeName(run.systemType) +
    (if |run.metadata.tags| > 0 then Separator + run.metadata.tags[0] else "")
  }

  datatype Card = Card(
    dot: string,
    description: string,
    stepCount: nat,
    duration: Option<int>,
    tokens: Option<int>,
    cost: Option<real>)

  function Positive(n: int): Option<int>
  {
    if n > 0 then Some(n) else None
  }

  function PositiveReal(x: real): Option<real>
  {
    if x > 0.0 then Some(x) else None
  }

  /** Totals are `steps?.reduce(...) ?? 0`, the count `steps?.length ?? 0`. */
  function CardFor(run: Run, steps: Option<seq<Step>>): (c: Card)
    ensures c.dot == StatusDot(run.status) && c.description == Description(run)
    ensures steps.None? ==> c.stepCount == 0 && c.duration.None? && c.tokens.None? && c.cost.None?
    ensures steps.Some? ==> c.stepCount == |steps.value|
  {
    var ss := match steps case None => [] case Some(ss) => ss;
    Card(StatusDot(run.status), Description(run), |ss|,
         Positive(Seqs.Sum(ss, Totals.DurationOf)),
         Positive(Seqs.Sum(ss, Totals.TokensOf)),
         PositiveReal(Totals.RealSum(ss, Totals.CostOf)))
  }

  // ---- Properties -----------------------------------------------------------

  /** The description is the system type alone, or followed by the separator
      and the first tag: the card never shows any other tag. */
  lemma DescriptionShape(run: Run)
    ensures var name := SystemTypeName(run.systemType);
            |Description(run)| >= |name| && Description(run)[..|name|] == name &&
            (run.metadata.tags == [] ==> Description(run) == name) &&
            (run.metadata.tags != [] ==> Description(run)[|name|..] == Separator + run.metadata.tags[0])
  {
  }

  /** The card and the run page's header agree on a run: the same step count,
      and each total the card shows is the header's, which the card hides
      exactly when it is not positive. */
  lemma CardAgreesWithHeader(run: Run, steps: Option<seq<Step>>)
    ensures var c := CardFor(run, steps);
            var f := HeaderStats.FiguresOf(steps);
            c.stepCount == f.stepCount &&
            (c.duration.Some? <==> f.durationMs > 0) && (c.duration.Some? ==> c.duration.value == f.durationMs) &&
            (c.tokens.Some? <==> f.totalTokens > 0) && (c.tokens.Some? ==> c.tokens.value == f.totalTokens) &&
            (c.cost.Some? <==> f.costUsd > 0.0) && (c.cost.Some? ==> c.cost.value == f.costUsd)
  {
    if steps.Some? {
      HeaderStats.TokensArePerStepTokens(steps.value);
    }
  }
}
