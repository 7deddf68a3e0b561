// The run explorer's step table: which steps the search box and the two
// drop-downs let through, and when a cell shows the "—" placeholder.
// Lower-casing is modelled on ASCII letters; JavaScript's full Unicode case
// mapping is not.
module Explorer {
  import opened Types
  import Seqs

  function LowerChar(c: char): char
  {
    if 'A' <= c <= 'Z' then (c as int + 32) as char else c
  }

  /** `s.toLowerCase()` on ASCII. */
  function ToLower(s: string): (r: string)
    ensures |r| == |s|
    ensures forall i :: 0 <= i < |s| ==> r[i] == LowerChar(s[i])
  {
    if s == [] then [] else [LowerChar(s[0])] + ToLower(s[1..])
  }

  /** `s.startsWith(p)`. */
  predicate StartsWith(s: string, p: string)
  {
    |p| <= |s| && s[..|p|] == p
  }

  /** `s.includes(sub)`: some position of `s` starts with `sub`. */
  predicate Contains(s: string, sub: string)
    decreases |s|
  {
    StartsWith(s, sub) || (s != [] && Contains(s[1..], sub))
  }

  /** `sub` occurs in `s` starting at offset `k`. */
  predicate OccursAt(s: string, sub: string, k: int)
  {
    0 <= k && k + |sub| <= |s| && s[k..k + |sub|] == sub
  }

  /** `includes` is "occurs at some offset". */
  lemma {:induction false} ContainsIff(s: string, sub: string)
    decreases |s|
    ensures Contains(s, sub) <==> exists k :: OccursAt(s, sub, k)
  {
    if s != [] {
      ContainsIff(s[1..], sub);
      if exists k :: OccursAt(s, sub, k) {
        var k :| OccursAt(s, sub, k);
        if k > 0 {
          assert s[1..][k - 1..k - 1 + |sub|] == sub;
          assert OccursAt(s[1..], sub, k - 1);
        }
      }
      if Contains(s[1..], sub) && !StartsWith(s, sub) {
        var k :| OccursAt(s[1..], sub, k);
        assert s[k + 1..k + 1 + |sub|] == sub;
        assert OccursAt(s, sub, k + 1);
      }
      if StartsWith(s, sub) {
        assert OccursAt(s, sub, 0);
      }
    } else if Contains(s, sub) {
      assert OccursAt(s, sub, 0);
    }
  }

  /** The search box: empty matches everything; otherwise the name, both
      lower-cased, or the step id, exactly, must contain the text. */
  predicate MatchesSearch(step: Step, search: string)
  {
    search == [] || Contains(ToLower(step.name), ToLower(search)) || Contains(step.stepId, search)
  }

  predicate MatchesType(step: Step, typeFilter: string)
  {
    typeFilter == "all" || StepTypeName(step.stepType) == typeFilter
  }

  predicate MatchesStatus(step: Step, statusFilter: string)
  {
    statusFilter == "all" || StepStatusName(step.status) == statusFilter
  }

  /** The `filter` callback. */
  function Keep(search: string, typeFilter: string, statusFilter: string): Step -> bool
  {
    (step: Step) => MatchesSearch(step, search) && MatchesType(step, typeFilter) && MatchesStatus(step, statusFilter)
  }

  /** The rows shown: the steps kept, in their order. */
  function Filtered(steps: seq<Step>, search: string, typeFilter: string, statusFilter: string): (r: seq<Step>)
    ensures |r| <= |steps|
    ensures forall i :: 0 <= i < |r| ==>
              MatchesSearch(r[i], search) && MatchesType(r[i], typeFilter) && MatchesStatus(r[i], statusFilter)
  {
    Seqs.Filter(steps, Keep(search, typeFilter, statusFilter))
  }

  // ---- Properties -----------------------------------------------------------

  /** A step is shown exactly when it passes all three tests, and what is
      shown is a subsequence of the steps: the "n of m steps" count never has
      n > m. */
  lemma FilteredExactly(steps: seq<Step>, search: string, typeFilter: string, statusFilter: string, i: nat)
    requires i < |steps|
    ensures steps[i] in Filtered(steps, search, typeFilter, statusFilter) <==>
            MatchesSearch(steps[i], search) && MatchesType(steps[i], typeFilter) && MatchesStatus(steps[i], statusFilter)
    ensures Seqs.IsSubsequence(Filtered(steps, search, typeFilter, statusFilter), steps)
  {
    var p := Keep(search, typeFilter, statusFilter);
    if p(steps[i]) {
      Seqs.FilterComplete(steps, p, i);
    }
    Seqs.FilterIsSubsequence(steps, p);
  }

  /** With an empty search and both drop-downs on "all", every step shows. */
  lemma NoFilterShowsAll(steps: seq<Step>)
    ensures Filtered(steps, "", "all", "all") == steps
  {
    Seqs.FilterAll(steps, Keep("", "all", "all"));
  }

  lemma {:induction false} ToLowerIdempotent(s: string)
    ensures ToLower(ToLower(s)) == ToLower(s)
  {
    if s != [] {
      ToLowerIdempotent(s[1..]);
    }
  }

  /** The name search ignores the name's case: lower-casing the name first
      changes nothing that the search matches. */
  lemma SearchIgnoresNameCase(step: Step, search: string)
    ensures MatchesSearch(step.(name := ToLower(step.name)), search) == MatchesSearch(step, search)
  {
    ToLowerIdempotent(step.name);
  }

  /** Every step contains its own id and name, so searching for either finds it. */
  lemma SearchFindsOwnId(step: Step)
    ensures MatchesSearch(step, step.stepId)
    ensures MatchesSearch(step, step.name)
  {
    assert StartsWith(step.stepId, step.stepId) by {
      assert step.stepId[..|step.stepId|] == step.stepId;
    }
    assert StartsWith(ToLower(step.name), ToLower(step.name)) by {
      assert ToLower(step.name)[..|ToLower(step.name)|] == ToLower(step.name);
    }
  }

  // ---- Placeholder cells ------------------------------------------------------

  /** A numeric cell: the value, or "—". */
  datatype Cell<T> = Dash | Shown(value: T)

  datatype Row = Row(duration: Cell<int>, tokens: Cell<int>, cost: Cell<real>)

  /** A cell shows its value only when it is positive. */
  function RowCells(step: Step): (r: Row)
    ensures r.duration.Shown? <==> step.durationMs > 0
    ensures r.tokens.Shown? <==> step.tokensPrompt + step.tokensCompletion > 0
    ensures r.cost.Shown? <==> step.costUsd > 0.0
    ensures r.duration.Shown? ==> r.duration.value == step.durationMs
    ensures r.tokens.Shown? ==> r.tokens.value == step.tokensPrompt + step.tokensCompletion
    ensures r.cost.Shown? ==> r.cost.value == step.costUsd
  {
    Row(if step.durationMs > 0 then Shown(step.durationMs) else Dash,
        if step.tokensPrompt + step.tokensCompletion > 0 then Shown(step.tokensPrompt + step.tokensCompletion) else Dash,
        if step.costUsd > 0.0 then Shown(step.costUsd) else Dash)
  }
}
