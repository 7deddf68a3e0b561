// The dashboard's trace table: one row for each of the first ten runs, with
// the run's step count, totals and a sparkline of its step durations.
module TraceTable {
  import opened Types
  import Seqs
  import Totals
  import AutomationCard
  import JsObject

  const MaxRows := 10

  /** The sparkline: the step durations, or made-up values for a run without
      steps (their values are random and not modelled). */
  datatype Spark = Durations(values: seq<int>) | Placeholder

  datatype Row = Row(run: Run, stepCount: nat, totalDuration: int, totalTokens: int, totalCost: real, spark: Spark)

  /** `steps.map((s) => s.duration_ms || 0)`. */
  function DurationsOf(steps: seq<Step>): (r: seq<int>)
    ensures |r| == |steps|
    ensures forall i :: 0 <= i < |steps| ==> r[i] == steps[i].durationMs
  {
    seq(|steps|, i requires 0 <= i < |steps| => steps[i].durationMs)
  }

  function RowFor(run: Run, all: Totals.StepsByRun): Row
  {
    var steps := Totals.StepsOf(all, run.runId);
    Row(run, |steps|,
        Seqs.Sum(steps, Totals.DurationOf),
        Seqs.Sum(steps, Totals.TokensOf),
        Totals.RealSum(steps, Totals.CostOf),
        if |steps| > 0 then Durations(DurationsOf(steps)) else Placeholder)
  }

  /** `runs.slice(0, 10).map(...)`. */
  function TableRows(runs: seq<Run>, all: Totals.StepsByRun): (rows: seq<Row>)
    ensures |rows| == if |runs| < MaxRows then |runs| else MaxRows
    ensures forall i :: 0 <= i < |rows| ==> rows[i] == RowFor(runs[i], all)
  {
    var shown := if |runs| < MaxRows then runs else runs[..MaxRows];
    seq(|shown|, i requires 0 <= i < |shown| => RowFor(shown[i], all))
  }

  const Neutral := "bg-secondary text-foreground"

  const StatusStyles: map<string, string> := map[
    "running" := "bg-blue-500/10 text-blue-400 border-blue-500/20",
    "completed" := "bg-emerald-500/10 text-emerald-400 border-emerald-500/20",
    "failed" := "bg-red-500/10 text-red-400 border-red-500/20"
  ]

  /** `STATUS_STYLES[status] || neutral`, on the status as it arrives: the
      value handed to `cn` for the status badge. */
  function StatusStyle(status: string): (r: JsObject.Property<string>)
    ensures r != JsObject.Undefined
    ensures r.Inherited? <==> status !in StatusStyles && status in JsObject.PrototypeNames
    ensures status in StatusStyles ==> r == JsObject.Own(StatusStyles[status])
  {
    JsObject.OrElse(JsObject.Get(StatusStyles, status), Neutral)
  }

  /** The "No trace runs yet" line. */
  predicate ShowsEmptyMessage(runs: seq<Run>, all: Totals.StepsByRun)
  {
    |TableRows(runs, all)| == 0
  }

  // ---- Properties -----------------------------------------------------------

  /** Only the first ten runs matter: runs after them never change the table. */
  lemma LaterRunsIgnored(runs: seq<Run>, more: seq<Run>, all: Totals.StepsByRun)
    requires |runs| >= MaxRows
    ensures TableRows(runs + more, all) == TableRows(runs, all)
  {
    var a := TableRows(runs + more, all);
    var b := TableRows(runs, all);
    forall i | 0 <= i < |a| ensures a[i] == b[i] {
      assert (runs + more)[i] == runs[i];
    }
  }

  /** A run the map does not know shows no steps, zero totals and the
      placeholder sparkline. */
  lemma MissingRunIsEmpty(run: Run, all: Totals.StepsByRun)
    requires forall j :: 0 <= j < |all| ==> all[j].0 != run.runId
    ensures RowFor(run, all) == Row(run, 0, 0, 0, 0.0, Placeholder)
  {
  }

  /** The sparkline plots exactly the run's steps, and its points add up to
      the row's duration total. */
  lemma SparkMatchesTotal(run: Run, all: Totals.StepsByRun)
    ensures var row := RowFor(run, all);
            row.spark.Durations? ==>
              |row.spark.values| == row.stepCount &&
              Seqs.Sum(row.spark.values, (d: int) => d) == row.totalDuration
    ensures RowFor(run, all).spark.Placeholder? <==> RowFor(run, all).stepCount == 0
  {
    SumOfDurations(Totals.StepsOf(all, run.runId));
  }

  lemma {:induction false} SumOfDurations(steps: seq<Step>)
    ensures Seqs.Sum(DurationsOf(steps), (d: int) => d) == Seqs.Sum(steps, Totals.DurationOf)
  {
    if steps != [] {
      SumOfDurations(steps[1..]);
      assert DurationsOf(steps)[1..] == DurationsOf(steps[1..]);
    }
  }

  /** The empty-table line shows exactly when there are no runs. */
  lemma EmptyMessageIff(runs: seq<Run>, all: Totals.StepsByRun)
    ensures ShowsEmptyMessage(runs, all) <==> runs == []
  {
  }

  /** Every run status has its own style, distinct from the others' and
      from the neutral one, which a status outside the three gets, unless
      it names an `Object.prototype` member: that member is kept. */
  lemma StatusStylesCoverStatuses(a: RunStatus, b: RunStatus, other: string)
    requires other !in {"running", "completed", "failed"}
    ensures StatusStyle(RunStatusName(a)).Own? && StatusStyle(RunStatusName(a)).value != Neutral
    ensures a != b ==> StatusStyle(RunStatusName(a)) != StatusStyle(RunStatusName(b))
    ensures other !in JsObject.PrototypeNames ==> StatusStyle(other) == JsObject.Own(Neutral)
    ensures other in JsObject.PrototypeNames ==> StatusStyle(other) == JsObject.Inherited(other)
  {
  }

  /** A row and the run's card agree on the step count and totals, given the
      same step list. */
  lemma RowAgreesWithCard(run: Run, all: Totals.StepsByRun)
    ensures var row := RowFor(run, all);
            var card := AutomationCard.CardFor(run, Some(Totals.StepsOf(all, run.runId)));
            card.stepCount == row.stepCount &&
            (card.duration.Some? <==> row.totalDuration > 0) &&
            (card.tokens.Some? <==> row.totalTokens > 0) &&
            (card.cost.Some? <==> row.totalCost > 0.0)
  {
  }
}
