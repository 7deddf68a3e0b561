// The dashboard's performance panel: the success rate, the token, cost and
// average-duration figures over every step of every run, and the step-type
// distribution — a count per step type, in the order each type first
// appears, with a colour per type.
module MetricsPanel {
  import opened Types
  import Seqs
  import Keyed
  import Totals
  import StatsBar
  import JsObject

  /** `n || 1`: the count, or 1 in place of zero. */
  function Denominator(n: nat): (d: nat)
    ensures d >= 1
    ensures n > 0 ==> d == n
  {
    if n == 0 then 1 else n
  }

  /** `Math.round(x)`: the nearest integer, halves rounded up. */
  function Round(x: real): (r: int)
    ensures r as real - 0.5 <= x < r as real + 0.5
  {
    (x + 0.5).Floor
  }

  datatype Metrics = Metrics(
    successRate: int,
    totalRuns: nat,
    totalTokens: int,
    totalCost: real,
    avgDuration: real,
    failed: nat)

  /** The four running totals of the nested `forEach` equal the sums over
      the steps visited so far. */
  ghost predicate Added(visited: seq<Step>, tokens: int, cost: real, duration: int, count: nat)
  {
    tokens == Seqs.Sum(visited, Totals.TokensOf) &&
    cost == Totals.RealSum(visited, Totals.CostOf) &&
    duration == Seqs.Sum(visited, Totals.DurationOf) &&
    count == |visited|
  }

  /** One more step adds its own figures to each running total. */
  lemma AddOneStep(visited: seq<Step>, s: Step, tokens: int, cost: real, duration: int, count: nat)
    requires Added(visited, tokens, cost, duration, count)
    ensures Added(visited + [s], tokens + Totals.TokensOf(s), cost + Totals.CostOf(s),
                  duration + Totals.DurationOf(s), count + 1)
  {
    Seqs.SumAppend(visited, [s], Totals.TokensOf);
    Totals.RealSumAppend(visited, [s], Totals.CostOf);
    Seqs.SumAppend(visited, [s], Totals.DurationOf);
  }

  /** The figures' loop: every step of every run adds its tokens, cost and
      duration and counts one. */
  method AddUpSteps(all: Totals.StepsByRun) returns (totalTokens: int, totalCost: real, totalDuration: int, stepCount: nat)
    ensures Added(Totals.Flatten(all), totalTokens, totalCost, totalDuration, stepCount)
  {
    totalTokens, totalCost, totalDuration, stepCount := 0, 0.0, 0, 0;
    for g := 0 to |all|
      invariant Added(Totals.Flatten(all[..g]), totalTokens, totalCost, totalDuration, stepCount)
    {
      var steps := all[g].1;
      ghost var done := Totals.Flatten(all[..g]);
      assert done + steps[..0] == done;
      for k := 0 to |steps|
        invariant Added(done + steps[..k], totalTokens, totalCost, totalDuration, stepCount)
      {
        AddOneStep(done + steps[..k], steps[k], totalTokens, totalCost, totalDuration, stepCount);
        assert done + steps[..k + 1] == (done + steps[..k]) + [steps[k]];
        totalTokens := totalTokens + Totals.TokensOf(steps[k]);
        totalCost := totalCost + Totals.CostOf(steps[k]);
        totalDuration := totalDuration + Totals.DurationOf(steps[k]);
        stepCount := stepCount + 1;
      }
      assert done + steps[..|steps|] == done + steps;
      Totals.FlattenSnoc(all, g);
    }
    assert all[..|all|] == all;
  }

  /** The success rate: completed runs as a whole percentage of all runs,
      with an empty list counted as one run. */
  function SuccessRate(runs: seq<Run>): int
  {
    Round(StatsBar.StatusCount(runs, RunStatus.Completed) as real / Denominator(|runs|) as real * 100.0)
  }

  /** The panel's figures: the success rate, the run and failure counts, the
      totals over every step and the average step duration. */
  method ComputeMetrics(runs: seq<Run>, all: Totals.StepsByRun) returns (m: Metrics)
    ensures m.successRate == SuccessRate(runs)
    ensures m.totalRuns == |runs|
    ensures m.failed == StatsBar.StatusCount(runs, RunStatus.Failed)
    ensures m.totalTokens == Seqs.Sum(Totals.Flatten(all), Totals.TokensOf)
    ensures m.totalCost == Totals.RealSum(Totals.Flatten(all), Totals.CostOf)
    ensures |Totals.Flatten(all)| == 0 ==> m.avgDuration == 0.0
    ensures |Totals.Flatten(all)| > 0 ==>
              m.avgDuration * |Totals.Flatten(all)| as real == Seqs.Sum(Totals.Flatten(all), Totals.DurationOf) as real
  {
    var completed := StatsBar.StatusCount(runs, RunStatus.Completed);
    var failed := StatsBar.StatusCount(runs, RunStatus.Failed);
    var total := Denominator(|runs|);
    var successRate := Round(completed as real / total as real * 100.0);
    var totalTokens, totalCost, totalDuration, stepCount := AddUpSteps(all);
    var avgDuration := if stepCount > 0 then totalDuration as real / stepCount as real else 0.0;
    m := Metrics(successRate, |runs|, totalTokens, totalCost, avgDuration, failed);
  }

  /** The success rate is a whole percentage: 0 with no completed run, 100
      when every run completed, and between the two otherwise. */
  lemma SuccessRateIsPercentage(runs: seq<Run>)
    ensures 0 <= SuccessRate(runs) <= 100
    ensures StatsBar.StatusCount(runs, RunStatus.Completed) == 0 ==> SuccessRate(runs) == 0
    ensures runs != [] && StatsBar.StatusCount(runs, RunStatus.Completed) == |runs| ==> SuccessRate(runs) == 100
  {
    var c := StatsBar.StatusCount(runs, RunStatus.Completed);
    var d := Denominator(|runs|);
    var x := c as real / d as real * 100.0;
    assert c as real <= d as real;
    assert c as real / d as real <= 1.0;
    assert 0.0 <= x <= 100.0;
    if runs != [] && c == |runs| {
      assert d == c;
      assert c as real / c as real == 1.0;
    }
  }

  // ---- Step-type distribution -------------------------------------------------

  /** Type names and their counts, in first-seen order. */
  type Tally = seq<(string, nat)>

  function EntryKey(e: (string, nat)): string { e.0 }

  function EntryCount(e: (string, nat)): int { e.1 }

  /** `types.get(x) || 0`. */
  function CountOf(t: Tally, x: string): nat
  {
    match Keyed.Lookup(t, x, EntryKey)
    case None => 0
    case Some(e) => e.1
  }

  /** `types.set(x, (types.get(x) || 0) + 1)`: a known type counts one more
      in its place, a new one joins at the end with 1. */
  function Bump(t: Tally, x: string): Tally
  {
    var e: (string, nat) := (x, CountOf(t, x) + 1);
    Keyed.Upsert(t, e, EntryKey)
  }

  /** The tally of a sequence of type names, one name at a time. */
  function TallyOf(s: seq<string>): Tally
    decreases |s|
  {
    if s == [] then [] else Bump(TallyOf(s[..|s| - 1]), s[|s| - 1])
  }

  lemma TallySnoc(s: seq<string>, x: string)
    ensures TallyOf(s + [x]) == Bump(TallyOf(s), x)
  {
    assert (s + [x])[..|s + [x]| - 1] == s;
  }

  /** The loop's update, read then set, is `Bump`. */
  lemma SetIsBump(t: Tally, x: string, count: nat)
    requires count == (match Keyed.Lookup(t, x, EntryKey) case Some(e) => e.1 case None => 0)
    ensures var e: (string, nat) := (x, count + 1); Keyed.Upsert(t, e, EntryKey) == Bump(t, x)
  {
  }

  /** The type names of the steps, in order. */
  function TypeNames(steps: seq<Step>): (r: seq<string>)
    ensures |r| == |steps|
    ensures forall i :: 0 <= i < |steps| ==> r[i] == StepTypeName(steps[i].stepType)
  {
    seq(|steps|, i requires 0 <= i < |steps| => StepTypeName(steps[i].stepType))
  }

  lemma TypeNamesAppend(a: seq<Step>, b: seq<Step>)
    ensures TypeNames(a + b) == TypeNames(a) + TypeNames(b)
  {
  }

  /** `types.set(name, (types.get(name) || 0) + 1)`. */
  method CountOne(types: Tally, name: string) returns (types': Tally)
    ensures types' == Bump(types, name)
  {
    var known := Keyed.Lookup(types, name, EntryKey);
    var count: nat := if known.Some? then known.value.1 else 0;
    var entry: (string, nat) := (name, count + 1);
    SetIsBump(types, name, count);
    types' := Keyed.Upsert(types, entry, EntryKey);
  }

  /** The inner `forEach`: one run's steps counted into the tally. */
  method CountRun(types: Tally, steps: seq<Step>, ghost seen: seq<string>) returns (types': Tally)
    requires types == TallyOf(seen)
    ensures types' == TallyOf(seen + TypeNames(steps))
  {
    ghost var names := TypeNames(steps);
    types' := types;
    assert seen + names[..0] == seen;
    for k := 0 to |steps|
      invariant types' == TallyOf(seen + names[..k])
    {
      TallyPrefixSnoc(seen, names, k);
      types' := CountOne(types', StepTypeName(steps[k].stepType));
    }
    assert names[..|steps|] == names;
  }

  lemma TallyPrefixSnoc(seen: seq<string>, names: seq<string>, k: nat)
    requires k < |names|
    ensures TallyOf(seen + names[..k + 1]) == Bump(TallyOf(seen + names[..k]), names[k])
  {
    assert seen + names[..k + 1] == (seen + names[..k]) + [names[k]];
    TallySnoc(seen + names[..k], names[k]);
  }

  /** The distribution's counting loop over every run. */
  method CountTypes(all: Totals.StepsByRun) returns (types: Tally)
    ensures types == TallyOf(TypeNames(Totals.Flatten(all)))
  {
    types := [];
    for g := 0 to |all|
      invariant types == TallyOf(TypeNames(Totals.Flatten(all[..g])))
    {
      types := CountRun(types, all[g].1, TypeNames(Totals.Flatten(all[..g])));
      Totals.FlattenSnoc(all, g);
      TypeNamesAppend(Totals.Flatten(all[..g]), all[g].1);
    }
    assert all[..|all|] == all;
  }

  const Gray := "hsl(220, 10%, 50%)"

  const Colors: map<string, string> := map[
    "llm" := "hsl(187, 100%, 50%)",
    "tool" := "hsl(262, 83%, 68%)",
    "plan" := "hsl(45, 93%, 58%)",
    "final" := "hsl(142, 71%, 55%)",
    "error" := "hsl(0, 84%, 60%)"
  ]

  /** `colors[type] || gray`. */
  function TypeColor(t: string): (r: JsObject.Property<string>)
    ensures r != JsObject.Undefined
    ensures r.Inherited? <==> t !in Colors && t in JsObject.PrototypeNames
    ensures t in Colors ==> r == JsObject.Own(Colors[t])
  {
    JsObject.OrElse(JsObject.Get(Colors, t), Gray)
  }

  datatype Entry = Entry(stepType: string, count: nat, color: JsObject.Property<string>)

  /** The legend: one entry per tallied type with its colour, and the
      percentage denominator `sum of counts || 1` (the percentages
      themselves are floating-point text). */
  method Distribution(all: Totals.StepsByRun) returns (entries: seq<Entry>, total: nat)
    ensures var t := TallyOf(TypeNames(Totals.Flatten(all)));
            |entries| == |t| &&
            forall i :: 0 <= i < |t| ==> entries[i] == Entry(t[i].0, t[i].1, TypeColor(t[i].0))
    ensures total == Denominator(|Totals.Flatten(all)|)
  {
    var types := CountTypes(all);
    TallyOfCounts(TypeNames(Totals.Flatten(all)));
    var sum := Seqs.Sum(types, EntryCount);
    total := Denominator(sum);
    entries := seq(|types|, i requires 0 <= i < |types| => Entry(types[i].0, types[i].1, TypeColor(types[i].0)));
  }

  // ---- Properties of the tally ---------------------------------------------

  /** The names listed are exactly the names that occur. */
  ghost predicate Covers(s: seq<string>, t: Tally)
  {
    forall x :: x in s <==> x in Keyed.KeySet(t, EntryKey)
  }

  /** Each listed count is the name's number of occurrences, and the counts
      add up to the length. */
  ghost predicate CountsExact(s: seq<string>, t: Tally)
  {
    (forall i :: 0 <= i < |t| ==> t[i].1 == multiset(s)[t[i].0]) &&
    Seqs.Sum(t, EntryCount) == |s|
  }

  /** `x` occurs in `s` before any occurrence of `y`. */
  ghost predicate SeenBefore(s: seq<string>, x: string, y: string)
  {
    exists a :: 0 <= a < |s| && s[a] == x && forall b :: 0 <= b <= a ==> s[b] != y
  }

  /** The names are listed in the order they first occur. */
  ghost predicate FirstSeenOrder(s: seq<string>, t: Tally)
  {
    forall i, j :: 0 <= i < j < |t| ==> SeenBefore(s, t[i].0, t[j].0)
  }

  lemma {:induction false} SumReplace(t: Tally, i: nat, e: (string, nat))
    requires i < |t|
    decreases |t|
    ensures Seqs.Sum(t[i := e], EntryCount) == Seqs.Sum(t, EntryCount) - t[i].1 + e.1
  {
    if i > 0 {
      SumReplace(t[1..], i - 1, e);
      assert t[i := e][1..] == t[1..][i - 1 := e];
    } else {
      assert t[i := e][1..] == t[1..];
    }
  }

  lemma BumpCovers(s: seq<string>, t: Tally, x: string)
    requires Keyed.UniqueKeys(t, EntryKey) && Covers(s, t)
    ensures Keyed.UniqueKeys(Bump(t, x), EntryKey) && Covers(s + [x], Bump(t, x))
  {
    var e: (string, nat) := (x, CountOf(t, x) + 1);
    Keyed.UpsertKeepsUniqueKeys(t, e, EntryKey);
    Keyed.UpsertKeySet(t, e, EntryKey);
  }

  lemma BumpCounts(s: seq<string>, t: Tally, x: string)
    requires Keyed.UniqueKeys(t, EntryKey) && Covers(s, t) && CountsExact(s, t)
    ensures CountsExact(s + [x], Bump(t, x))
  {
    var e: (string, nat) := (x, CountOf(t, x) + 1);
    Keyed.UpsertByIndex(t, e, EntryKey);
    var found := Keyed.FirstIndex(t, x, EntryKey);
    if found.Some? {
      var i := found.value;
      assert CountOf(t, x) == t[i].1;
      assert Bump(t, x) == t[i := (x, t[i].1 + 1)];
      CountKnown(s, t, x, i);
    } else {
      assert x !in Keyed.KeySet(t, EntryKey);
      assert Bump(t, x) == t + [(x, 1)];
      CountNew(s, t, x);
    }
  }

  /** A name already tallied: its entry counts one more, in its place. */
  lemma CountKnown(s: seq<string>, t: Tally, x: string, i: nat)
    requires Keyed.UniqueKeys(t, EntryKey) && CountsExact(s, t)
    requires i < |t| && t[i].0 == x
    ensures CountsExact(s + [x], t[i := (x, t[i].1 + 1)])
  {
    assert multiset(s + [x]) == multiset(s) + multiset{x};
    SumReplace(t, i, (x, t[i].1 + 1));
  }

  /** A new name joins at the end with a count of one. */
  lemma CountNew(s: seq<string>, t: Tally, x: string)
    requires Covers(s, t) && CountsExact(s, t) && x !in Keyed.KeySet(t, EntryKey)
    ensures CountsExact(s + [x], t + [(x, 1)])
  {
    assert multiset(s + [x]) == multiset(s) + multiset{x};
    assert multiset(s)[x] == 0;
    Seqs.SumAppend(t, [(x, 1)], EntryCount);
  }

  /** Whatever comes before what in `s` still does after appending. */
  lemma SeenBeforeExtends(s: seq<string>, x: string, y: string, z: string)
    requires SeenBefore(s, y, z)
    ensures SeenBefore(s + [x], y, z)
  {
    var a :| 0 <= a < |s| && s[a] == y && forall b :: 0 <= b <= a ==> s[b] != z;
    assert (s + [x])[a] == y;
  }

  lemma BumpOrder(s: seq<string>, t: Tally, x: string)
    requires Covers(s, t) && FirstSeenOrder(s, t)
    ensures FirstSeenOrder(s + [x], Bump(t, x))
  {
    var s' := s + [x];
    var e: (string, nat) := (x, CountOf(t, x) + 1);
    var t' := Bump(t, x);
    Keyed.UpsertByIndex(t, e, EntryKey);
    match Keyed.FirstIndex(t, x, EntryKey)
    case Some(i) =>
      Keyed.UpsertReplaces(t, e, EntryKey, i);
      forall k, l | 0 <= k < l < |t'| ensures SeenBefore(s', t'[k].0, t'[l].0) {
        assert t'[k].0 == t[k].0 && t'[l].0 == t[l].0;
        SeenBeforeExtends(s, x, t[k].0, t[l].0);
      }
    case None =>
      assert t' == t + [e];
      forall k, l | 0 <= k < l < |t'| ensures SeenBefore(s', t'[k].0, t'[l].0) {
        if l < |t| {
          SeenBeforeExtends(s, x, t[k].0, t[l].0);
        } else {
          assert t[k].0 in Keyed.KeySet(t, EntryKey);
          var a :| 0 <= a < |s| && s[a] == t[k].0;
          assert x !in Keyed.KeySet(t, EntryKey);
          assert forall b :: 0 <= b <= a ==> s'[b] != x;
          assert s'[a] == t'[k].0;
        }
      }
  }

  /** The tally of any sequence of names: each name present is listed once,
      nothing else is, each count is the name's number of occurrences, the
      counts add up to the length, and the names come in the order they
      first occur. */
  lemma {:induction false} TallyOfCounts(s: seq<string>)
    decreases |s|
    ensures Keyed.UniqueKeys(TallyOf(s), EntryKey)
    ensures forall x :: x in s <==> x in Keyed.KeySet(TallyOf(s), EntryKey)
    ensures forall i :: 0 <= i < |TallyOf(s)| ==> TallyOf(s)[i].1 == multiset(s)[TallyOf(s)[i].0]
    ensures Seqs.Sum(TallyOf(s), EntryCount) == |s|
    ensures forall i, j :: 0 <= i < j < |TallyOf(s)| ==> SeenBefore(s, TallyOf(s)[i].0, TallyOf(s)[j].0)
  {
    if s != [] {
      var init := s[..|s| - 1];
      var x := s[|s| - 1];
      TallyOfCounts(init);
      assert init + [x] == s;
      assert Covers(init, TallyOf(init));
      BumpCovers(init, TallyOf(init), x);
      BumpCounts(init, TallyOf(init), x);
      BumpOrder(init, TallyOf(init), x);
      assert Covers(s, TallyOf(s)) && CountsExact(s, TallyOf(s)) && FirstSeenOrder(s, TallyOf(s));
    }
  }

  /** Each of the five step types has its own colour; any other name is
      gray, unless it names an `Object.prototype` member, which is kept. */
  lemma ColorsCoverStepTypes(a: StepType, b: StepType, other: string)
    requires other !in {"llm", "tool", "plan", "final", "error"}
    ensures TypeColor(StepTypeName(a)).Own? && TypeColor(StepTypeName(a)).value != Gray
    ensures a != b ==> TypeColor(StepTypeName(a)) != TypeColor(StepTypeName(b))
    ensures other !in JsObject.PrototypeNames ==> TypeColor(other) == JsObject.Own(Gray)
    ensures other in JsObject.PrototypeNames ==> TypeColor(other) == JsObject.Inherited(other)
  {
  }
}
