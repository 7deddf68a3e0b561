// What the simulator's walk promises, against an independent description:
// the pre-order listing of the scenario tree, where the n-th node listed
// draws the n-th fresh id and each child names the id of its parent node.
module WalkProperties {
  import opened Types
  import Keyed
  import opened Simulator

  /** A node of the listing, with the parent id it is emitted under and the
      id it draws. */
  datatype Emission = Emission(node: ScenarioStep, parent: Option<string>, stepId: string)

  /** The pre-order listing of `sc` when its first id is `env.ids(n)`. */
  function Expected(env: Env, sc: ScenarioStep, parent: Option<string>, n: nat): seq<Emission>
    decreases sc, 1, 0
  {
    [Emission(sc, parent, env.ids(n))] + ExpectedFrom(env, sc, 0, env.ids(n), n + 1)
  }

  /** The listings of `sc.children[i..]`, one after another, under `parentId`. */
  function ExpectedFrom(env: Env, sc: ScenarioStep, i: nat, parentId: string, n: nat): seq<Emission>
    decreases sc, 0, |sc.children| - i
  {
    if i >= |sc.children| then []
    else Expected(env, sc.children[i], Some(parentId), n) +
         ExpectedFrom(env, sc, i + 1, parentId, n + Size(sc.children[i]))
  }

  predicate AllOk(es: seq<Emission>)
  {
    forall k :: 0 <= k < |es| ==> NodeOk(es[k].node)
  }

  /** What emitting one node broadcasts when its clock readings start at
      `t`: the running snapshot, then the finished step, unless it raised. */
  function NodeMsgs(env: Env, runId: string, e: Emission, t: nat): seq<WsMessage>
  {
    match StartStep(runId, e.node, e.parent, e.stepId, env.clock(t))
    case Raised => []
    case Value(s) =>
      match FinishStep(s, e.node, env.clock(t + 1))
      case RaisedAfter(_) => [StepUpdate(s)]
      case Done(f) => [StepUpdate(s), StepUpdate(f)]
  }

  /** The broadcasts of a listing whose clock readings start at `t`, node by
      node, stopping after the first node that raises. */
  function Msgs(env: Env, runId: string, es: seq<Emission>, t: nat): seq<WsMessage>
  {
    Chain(es, t, NodeOut(env, runId), Passes)
  }

  function NodeOut(env: Env, runId: string): (Emission, nat) -> seq<WsMessage>
  {
    (e: Emission, t: nat) => NodeMsgs(env, runId, e, t)
  }

  function Passes(e: Emission): bool
  {
    NodeOk(e.node)
  }

  /** Each element's output in turn, the clock moving on by two per element,
      up to and including the first element that does not pass. */
  function Chain<E, M>(es: seq<E>, t: nat, out: (E, nat) -> seq<M>, ok: E -> bool): seq<M>
    decreases |es|
  {
    if es == [] then []
    else if !ok(es[0]) then out(es[0], t)
    else out(es[0], t) + Chain(es[1..], t + 2, out, ok)
  }

  // ---- The listing ----------------------------------------------------------

  /** The listing has one entry per node, the tree's own node first, and
      draws consecutive ids. */
  lemma {:induction false} ExpectedShape(env: Env, sc: ScenarioStep, parent: Option<string>, n: nat)
    decreases sc, 1, 0
    ensures |Expected(env, sc, parent, n)| == Size(sc)
    ensures Expected(env, sc, parent, n)[0] == Emission(sc, parent, env.ids(n))
    ensures forall k :: 0 <= k < Size(sc) ==> Expected(env, sc, parent, n)[k].stepId == env.ids(n + k)
    ensures AllOk(Expected(env, sc, parent, n)) <==> WellFormed(sc)
  {
    ExpectedFromShape(env, sc, 0, env.ids(n), n + 1);
    var head := [Emission(sc, parent, env.ids(n))];
    var rest := ExpectedFrom(env, sc, 0, env.ids(n), n + 1);
    assert Expected(env, sc, parent, n) == head + rest;
    IdsAppend(env, head, rest, n);
    AllOkAppend(head, rest);
  }

  lemma {:induction false} ExpectedFromShape(env: Env, sc: ScenarioStep, i: nat, parentId: string, n: nat)
    decreases sc, 0, |sc.children| - i
    ensures |ExpectedFrom(env, sc, i, parentId, n)| == SizeFrom(sc, i)
    ensures forall k :: 0 <= k < SizeFrom(sc, i) ==> ExpectedFrom(env, sc, i, parentId, n)[k].stepId == env.ids(n + k)
    ensures AllOk(ExpectedFrom(env, sc, i, parentId, n)) <==>
            forall j :: i <= j < |sc.children| ==> WellFormed(sc.children[j])
  {
    if i < |sc.children| {
      var c := sc.children[i];
      ExpectedShape(env, c, Some(parentId), n);
      ExpectedFromShape(env, sc, i + 1, parentId, n + Size(c));
      var a := Expected(env, c, Some(parentId), n);
      var b := ExpectedFrom(env, sc, i + 1, parentId, n + Size(c));
      assert ExpectedFrom(env, sc, i, parentId, n) == a + b;
      IdsAppend(env, a, b, n);
      AllOkAppend(a, b);
      assert (forall j :: i <= j < |sc.children| ==> WellFormed(sc.children[j])) <==>
             WellFormed(c) && forall j :: i + 1 <= j < |sc.children| ==> WellFormed(sc.children[j]);
    }
  }

  /** Two runs of consecutive ids, the second starting where the first ends,
      make one. */
  lemma IdsAppend(env: Env, a: seq<Emission>, b: seq<Emission>, n: nat)
    requires forall k :: 0 <= k < |a| ==> a[k].stepId == env.ids(n + k)
    requires forall k :: 0 <= k < |b| ==> b[k].stepId == env.ids(n + |a| + k)
    ensures forall k :: 0 <= k < |a + b| ==> (a + b)[k].stepId == env.ids(n + k)
  {
    forall k | 0 <= k < |a + b| ensures (a + b)[k].stepId == env.ids(n + k) {
      if k >= |a| {
        assert (a + b)[k] == b[k - |a|];
      }
    }
  }

  lemma AllOkAppend(a: seq<Emission>, b: seq<Emission>)
    ensures AllOk(a + b) <==> AllOk(a) && AllOk(b)
  {
    if AllOk(a + b) {
      forall k | 0 <= k < |a| ensures NodeOk(a[k].node) {
        assert (a + b)[k] == a[k];
      }
      forall k | 0 <= k < |b| ensures NodeOk(b[k].node) {
        assert (a + b)[|a| + k] == b[k];
      }
    }
    if AllOk(a) && AllOk(b) {
      forall k | 0 <= k < |a + b| ensures NodeOk((a + b)[k].node) {
        if k >= |a| {
          assert (a + b)[k] == b[k - |a|];
        }
      }
    }
  }

  /** Every node after the first is emitted under the id of a node listed
      before it: a child never precedes its parent. */
  lemma {:induction false} ParentsComeFirst(env: Env, sc: ScenarioStep, parent: Option<string>, n: nat, k: nat)
    decreases sc, 1, 0
    requires 0 < k < |Expected(env, sc, parent, n)|
    ensures exists j :: 0 <= j < k && Expected(env, sc, parent, n)[k].parent == Some(Expected(env, sc, parent, n)[j].stepId)
  {
    var e := Expected(env, sc, parent, n);
    var rest := ExpectedFrom(env, sc, 0, env.ids(n), n + 1);
    assert e[k] == rest[k - 1];
    ParentsWithin(env, sc, 0, env.ids(n), n + 1, k - 1);
    if rest[k - 1].parent == Some(env.ids(n)) {
      assert e[0].stepId == env.ids(n);
    } else {
      var j :| 0 <= j < k - 1 && rest[k - 1].parent == Some(rest[j].stepId);
      assert e[j + 1] == rest[j];
    }
  }

  lemma {:induction false} ParentsWithin(env: Env, sc: ScenarioStep, i: nat, parentId: string, n: nat, k: nat)
    decreases sc, 0, |sc.children| - i
    requires k < |ExpectedFrom(env, sc, i, parentId, n)|
    ensures var ef := ExpectedFrom(env, sc, i, parentId, n);
            ef[k].parent == Some(parentId) || exists j :: 0 <= j < k && ef[k].parent == Some(ef[j].stepId)
  {
    var c := sc.children[i];
    var a := Expected(env, c, Some(parentId), n);
    var b := ExpectedFrom(env, sc, i + 1, parentId, n + Size(c));
    var ef := ExpectedFrom(env, sc, i, parentId, n);
    assert ef == a + b;
    if k < |a| {
      assert ef[k] == a[k];
      if k == 0 {
        ExpectedShape(env, c, Some(parentId), n);
      } else {
        ParentsComeFirst(env, c, Some(parentId), n, k);
        var j :| 0 <= j < k && a[k].parent == Some(a[j].stepId);
        assert ef[j] == a[j];
      }
    } else {
      var k' := k - |a|;
      assert ef[k] == b[k'];
      ParentsWithin(env, sc, i + 1, parentId, n + Size(c), k');
      if b[k'].parent != Some(parentId) {
        var j :| 0 <= j < k' && b[k'].parent == Some(b[j].stepId);
        assert ef[|a| + j] == b[j];
      }
    }
  }

  // ---- The broadcasts of a listing -----------------------------------------

  /** Emitting one node broadcasts `NodeMsgs`, draws one id and, when it
      gets through, two clock readings, and leaves the run table alone. */
  lemma EmitMatches(env: Env, runId: string, sc: ScenarioStep, parent: Option<string>, st: Sim)
    ensures var (st1, id) := Emit(env, runId, sc, parent, st);
            st1.outbox == st.outbox + NodeMsgs(env, runId, Emission(sc, parent, env.ids(st.issued)), st.ticks) &&
            st1.runs == st.runs && st1.issued == st.issued + 1 &&
            (id.Some? <==> NodeOk(sc)) &&
            (id.Some? ==> id.value == env.ids(st.issued) && st1.ticks == st.ticks + 2)
  {
  }

  /** A node that gets through is broadcast twice: first running, then
      finished, both under its id and parent. A failing node ends with the
      error type, no output and the error its blueprint describes (or the
      stock one); any other ends completed with the blueprint's output. */
  lemma NodePair(env: Env, runId: string, e: Emission, t: nat)
    requires NodeOk(e.node)
    ensures var m := NodeMsgs(env, runId, e, t);
            |m| == 2 && m[0].StepUpdate? && m[1].StepUpdate? &&
            m[0].step.stepId == e.stepId && m[1].step.stepId == e.stepId &&
            m[0].step.parentStepId == e.parent && m[1].step.parentStepId == e.parent &&
            m[0].step.status == StepStatus.Running && m[0].step.startedAt == env.clock(t) &&
            m[1].step.startedAt == env.clock(t) && m[1].step.endedAt == Some(env.clock(t + 1)) &&
            m[1].step.durationMs == e.node.durationMs &&
            (e.node.shouldFail ==>
               m[1].step.status == StepStatus.Failed && m[1].step.stepType == StepType.Error &&
               m[1].step.output == map[] && m[1].step.error == Some(ErrorFor(e.node).v)) &&
            (!e.node.shouldFail ==>
               m[1].step.status == StepStatus.Completed && m[1].step.output == e.node.outputData &&
               m[1].step.error.None?)
  {
  }

  /** The stock error stands in exactly when the blueprint has no error data
      or an empty one; otherwise its "message" is required. */
  lemma ErrorForCases(sc: ScenarioStep)
    ensures ErrorFor(sc).Value? && ErrorFor(sc).v.message == DefaultFailure <==
            (sc.errorData.None? || sc.errorData.value == map[])
    ensures ErrorFor(sc).Raised? <==>
            (sc.errorData.Some? && sc.errorData.value != map[] && "message" !in sc.errorData.value)
    ensures sc.errorData.Some? && "message" in sc.errorData.value ==>
            ErrorFor(sc) == Value(StepError(sc.errorData.value["message"], Get(sc.errorData.value, "stack"), Get(sc.errorData.value, "code")))
  {
  }

  lemma {:induction false} ChainAppend<E, M>(a: seq<E>, b: seq<E>, t: nat, out: (E, nat) -> seq<M>, ok: E -> bool)
    requires forall k :: 0 <= k < |a| ==> ok(a[k])
    decreases |a|
    ensures Chain(a + b, t, out, ok) == Chain(a, t, out, ok) + Chain(b, t + 2 * |a|, out, ok)
  {
    if a == [] {
      assert a + b == b;
    } else {
      assert (a + b)[0] == a[0] && (a + b)[1..] == a[1..] + b;
      assert ok(a[0]);
      ChainAppend(a[1..], b, t + 2, out, ok);
    }
  }

  /** Nothing after an element that does not pass is output. */
  lemma {:induction false} ChainStops<E, M>(a: seq<E>, b: seq<E>, t: nat, out: (E, nat) -> seq<M>, ok: E -> bool, k: nat)
    requires k < |a| && !ok(a[k])
    decreases |a|
    ensures Chain(a + b, t, out, ok) == Chain(a, t, out, ok)
  {
    assert (a + b)[0] == a[0] && (a + b)[1..] == a[1..] + b;
    if ok(a[0]) {
      assert a[1..][k - 1] == a[k];
      ChainStops(a[1..], b, t + 2, out, ok, k - 1);
    }
  }

  /** When every element passes and puts out two items, the k-th element's
      pair sits at positions 2k and 2k+1. */
  lemma {:induction false} ChainPairs<E, M>(es: seq<E>, t: nat, out: (E, nat) -> seq<M>, ok: E -> bool, k: nat)
    requires forall j :: 0 <= j < |es| ==> ok(es[j])
    requires forall j, u :: 0 <= j < |es| ==> |out(es[j], u)| == 2
    requires k < |es|
    decreases |es|
    ensures |Chain(es, t, out, ok)| == 2 * |es|
    ensures Chain(es, t, out, ok)[2 * k..2 * k + 2] == out(es[k], t + 2 * k)
  {
    assert ok(es[0]) && |out(es[0], t)| == 2;
    var tail := es[1..];
    if |es| > 1 {
      ChainPairs(tail, t + 2, out, ok, if k > 0 then k - 1 else 0);
      if k > 0 {
        assert tail[k - 1] == es[k];
        assert Chain(es, t, out, ok)[2 * k..2 * k + 2] == Chain(tail, t + 2, out, ok)[2 * (k - 1)..2 * (k - 1) + 2];
      }
    }
  }

  lemma MsgsAppend(env: Env, runId: string, a: seq<Emission>, b: seq<Emission>, t: nat)
    requires AllOk(a)
    ensures Msgs(env, runId, a + b, t) == Msgs(env, runId, a, t) + Msgs(env, runId, b, t + 2 * |a|)
  {
    ChainAppend(a, b, t, NodeOut(env, runId), Passes);
  }

  lemma MsgsStopsAt(env: Env, runId: string, a: seq<Emission>, b: seq<Emission>, t: nat)
    requires !AllOk(a)
    ensures Msgs(env, runId, a + b, t) == Msgs(env, runId, a, t)
  {
    var k :| 0 <= k < |a| && !NodeOk(a[k].node);
    ChainStops(a, b, t, NodeOut(env, runId), Passes, k);
  }

  /** A listing that raises nowhere is broadcast node by node, two messages
      per node, the k-th node's pair at positions 2k and 2k+1. */
  lemma MsgsPairs(env: Env, runId: string, es: seq<Emission>, t: nat, k: nat)
    requires AllOk(es) && k < |es|
    ensures |Msgs(env, runId, es, t)| == 2 * |es|
    ensures Msgs(env, runId, es, t)[2 * k..2 * k + 2] == NodeMsgs(env, runId, es[k], t + 2 * k)
  {
    forall j, u | 0 <= j < |es| ensures |NodeOut(env, runId)(es[j], u)| == 2 {
      NodePair(env, runId, es[j], u);
    }
    ChainPairs(es, t, NodeOut(env, runId), Passes, k);
  }

  // ---- The walk against the listing ----------------------------------------

  /** A walk below the root never touches the run table; when it gets
      through, it has drawn one id and two clock readings per node. */
  lemma {:induction false} WalkCounts(env: Env, runId: string, sc: ScenarioStep, parent: Option<string>, st: Sim)
    decreases sc, 1, 0
    ensures var (st', ok) := Walk(env, runId, sc, parent, false, st);
            st'.runs == st.runs &&
            (ok ==> st'.issued == st.issued + Size(sc) && st'.ticks == st.ticks + 2 * Size(sc))
  {
    EmitMatches(env, runId, sc, parent, st);
    var (st1, id) := Emit(env, runId, sc, parent, st);
    if id.Some? {
      WalkFromCounts(env, runId, sc, 0, id.value, st1);
    }
  }

  lemma {:induction false} WalkFromCounts(env: Env, runId: string, sc: ScenarioStep, i: nat, parentId: string, st: Sim)
    decreases sc, 0, |sc.children| - i
    ensures var (st', ok) := WalkFrom(env, runId, sc, i, parentId, st);
            st'.runs == st.runs &&
            (ok ==> st'.issued == st.issued + SizeFrom(sc, i) && st'.ticks == st.ticks + 2 * SizeFrom(sc, i))
  {
    if i < |sc.children| {
      WalkCounts(env, runId, sc.children[i], Some(parentId), st);
      var (st1, ok1) := Walk(env, runId, sc.children[i], Some(parentId), false, st);
      if ok1 {
        WalkFromCounts(env, runId, sc, i + 1, parentId, st1);
      }
    }
  }

  /** A walk gets through exactly when every node of its tree is well
      formed: a tag that names no step type, or a failure whose error cannot
      be built, anywhere in the tree stops it. */
  lemma {:induction false} WalkSucceedsIff(env: Env, runId: string, sc: ScenarioStep, parent: Option<string>, isRoot: bool, st: Sim)
    decreases sc, 1, 0
    ensures Walk(env, runId, sc, parent, isRoot, st).1 <==> WellFormed(sc)
  {
    EmitMatches(env, runId, sc, parent, st);
    var (st1, id) := Emit(env, runId, sc, parent, st);
    if id.Some? {
      var st2 := if isRoot then SetRoot(runId, id.value, st1) else st1;
      WalkFromSucceedsIff(env, runId, sc, 0, id.value, st2);
    }
  }

  lemma {:induction false} WalkFromSucceedsIff(env: Env, runId: string, sc: ScenarioStep, i: nat, parentId: string, st: Sim)
    decreases sc, 0, |sc.children| - i
    ensures WalkFrom(env, runId, sc, i, parentId, st).1 <==>
            forall j :: i <= j < |sc.children| ==> WellFormed(sc.children[j])
  {
    if i < |sc.children| {
      WalkSucceedsIff(env, runId, sc.children[i], Some(parentId), false, st);
      var (st1, ok1) := Walk(env, runId, sc.children[i], Some(parentId), false, st);
      if ok1 {
        WalkFromSucceedsIff(env, runId, sc, i + 1, parentId, st1);
        if forall j :: i + 1 <= j < |sc.children| ==> WellFormed(sc.children[j]) {
          assert forall j :: i <= j < |sc.children| ==> WellFormed(sc.children[j]);
        }
      }
    }
  }

  /** A walk below the root broadcasts the listing's messages, up to and
      including those of the first node that raised. */
  lemma {:induction false} WalkFollowsPreOrder(env: Env, runId: string, sc: ScenarioStep, parent: Option<string>, st: Sim)
    decreases sc, 1, 0
    ensures Walk(env, runId, sc, parent, false, st).0.outbox ==
            st.outbox + Msgs(env, runId, Expected(env, sc, parent, st.issued), st.ticks)
  {
    EmitMatches(env, runId, sc, parent, st);
    var (st1, id) := Emit(env, runId, sc, parent, st);
    var head := Emission(sc, parent, env.ids(st.issued));
    var rest := ExpectedFrom(env, sc, 0, env.ids(st.issued), st.issued + 1);
    MsgsCons(env, runId, head, rest, st.ticks);
    assert Expected(env, sc, parent, st.issued) == [head] + rest;
    var n := NodeMsgs(env, runId, head, st.ticks);
    if id.Some? {
      WalkFromFollowsPreOrder(env, runId, sc, 0, id.value, st1);
      assert Walk(env, runId, sc, parent, false, st) == WalkFrom(env, runId, sc, 0, id.value, st1);
      var m := Msgs(env, runId, rest, st.ticks + 2);
      assert WalkFrom(env, runId, sc, 0, id.value, st1).0.outbox == (st.outbox + n) + m;
      Assoc(st.outbox, n, m);
    } else {
      assert Walk(env, runId, sc, parent, false, st) == (st1, false);
    }
  }

  lemma MsgsCons(env: Env, runId: string, e: Emission, rest: seq<Emission>, t: nat)
    ensures Msgs(env, runId, [e] + rest, t) ==
            NodeMsgs(env, runId, e, t) + (if NodeOk(e.node) then Msgs(env, runId, rest, t + 2) else [])
  {
    assert ([e] + rest)[0] == e && ([e] + rest)[1..] == rest;
  }

  /** The walk of a subtree gets through exactly when its listing does. */
  lemma WalkPassesIff(env: Env, runId: string, sc: ScenarioStep, parent: Option<string>, st: Sim)
    ensures Walk(env, runId, sc, parent, false, st).1 <==> AllOk(Expected(env, sc, parent, st.issued))
    ensures |Expected(env, sc, parent, st.issued)| == Size(sc)
  {
    WalkSucceedsIff(env, runId, sc, parent, false, st);
    ExpectedShape(env, sc, parent, st.issued);
  }

  lemma Assoc<T>(a: seq<T>, b: seq<T>, c: seq<T>)
    ensures (a + b) + c == a + (b + c)
  {
  }

  lemma WalkFromFollowsPreOrder(env: Env, runId: string, sc: ScenarioStep, i: nat, parentId: string, st: Sim)
    decreases sc, 0, |sc.children| - i, 4
    ensures WalkFrom(env, runId, sc, i, parentId, st).0.outbox ==
            st.outbox + Msgs(env, runId, ExpectedFrom(env, sc, i, parentId, st.issued), st.ticks)
  {
    FromFollows(env, runId, sc, i, parentId, st, st.issued, st.ticks);
  }

  /** The same, with the id and clock counters at the start named `n` and
      `t`. */
  lemma {:induction false} FromFollows(env: Env, runId: string, sc: ScenarioStep, i: nat, parentId: string, st: Sim, n: nat, t: nat)
    decreases sc, 0, |sc.children| - i, 3
    requires st.issued == n && st.ticks == t
    ensures WalkFrom(env, runId, sc, i, parentId, st).0.outbox ==
            st.outbox + Msgs(env, runId, ExpectedFrom(env, sc, i, parentId, n), t)
  {
    if i < |sc.children| {
      var c := sc.children[i];
      var w := Walk(env, runId, c, Some(parentId), false, st);
      if w.1 {
        FollowsPastChild(env, runId, sc, i, parentId, st);
      } else {
        var a := Expected(env, c, Some(parentId), n);
        var b := ExpectedFrom(env, sc, i + 1, parentId, n + Size(c));
        assert ExpectedFrom(env, sc, i, parentId, n) == a + b;
        assert WalkFrom(env, runId, sc, i, parentId, st) == w;
        WalkFollowsPreOrder(env, runId, c, Some(parentId), st);
        WalkPassesIff(env, runId, c, Some(parentId), st);
        MsgsStopsAt(env, runId, a, b, t);
      }
    } else {
      assert ExpectedFrom(env, sc, i, parentId, n) == [];
      assert Msgs(env, runId, [], t) == [];
    }
  }

  /** The children from `i` on, when child `i` gets through: its listing's
      broadcasts, then those of the children after it. */
  lemma {:induction false} FollowsPastChild(env: Env, runId: string, sc: ScenarioStep, i: nat, parentId: string, st: Sim)
    decreases sc, 0, |sc.children| - i, 2
    requires i < |sc.children| && Walk(env, runId, sc.children[i], Some(parentId), false, st).1
    ensures WalkFrom(env, runId, sc, i, parentId, st).0.outbox ==
            st.outbox + Msgs(env, runId, ExpectedFrom(env, sc, i, parentId, st.issued), st.ticks)
  {
    var c := sc.children[i];
    var st1 := Walk(env, runId, c, Some(parentId), false, st).0;
    var n1, t1 := st.issued + Size(c), st.ticks + 2 * Size(c);
    WalkCounts(env, runId, c, Some(parentId), st);
    FromFollows(env, runId, sc, i + 1, parentId, st1, n1, t1);
    ChildThenRest(env, runId, sc, i, parentId, st, st1, n1, t1);
  }

  /** Child `i`'s broadcasts, then those of the children after it, are the
      broadcasts of the listing of the children from `i` on. */
  lemma ChildThenRest(env: Env, runId: string, sc: ScenarioStep, i: nat, parentId: string, st: Sim, st1: Sim, n1: nat, t1: nat)
    decreases sc, 0, |sc.children| - i, 1
    requires i < |sc.children| && Walk(env, runId, sc.children[i], Some(parentId), false, st).1
    requires st1 == Walk(env, runId, sc.children[i], Some(parentId), false, st).0
    requires n1 == st.issued + Size(sc.children[i]) && t1 == st.ticks + 2 * Size(sc.children[i])
    requires WalkFrom(env, runId, sc, i + 1, parentId, st1).0.outbox ==
             st1.outbox + Msgs(env, runId, ExpectedFrom(env, sc, i + 1, parentId, n1), t1)
    ensures WalkFrom(env, runId, sc, i, parentId, st).0.outbox ==
            st.outbox + Msgs(env, runId, ExpectedFrom(env, sc, i, parentId, st.issued), st.ticks)
  {
    var a := Expected(env, sc.children[i], Some(parentId), st.issued);
    ChildPasses(env, runId, sc, i, parentId, st, st1, a, n1, t1);
    Stitch(WalkFrom(env, runId, sc, i, parentId, st).0.outbox, st.outbox, st1.outbox,
           Msgs(env, runId, a, st.ticks), Msgs(env, runId, ExpectedFrom(env, sc, i + 1, parentId, n1), t1),
           Msgs(env, runId, ExpectedFrom(env, sc, i, parentId, st.issued), st.ticks));
  }

  /** What child `i` getting through means: the walk goes on with the next
      child from the state after it, that state has broadcast child `i`'s
      listing, and the listing of the children from `i` on splits the same
      way. */
  lemma ChildPasses(env: Env, runId: string, sc: ScenarioStep, i: nat, parentId: string, st: Sim, st1: Sim, a: seq<Emission>, n1: nat, t1: nat)
    decreases sc, 0, |sc.children| - i, 0
    requires i < |sc.children| && Walk(env, runId, sc.children[i], Some(parentId), false, st).1
    requires st1 == Walk(env, runId, sc.children[i], Some(parentId), false, st).0
    requires a == Expected(env, sc.children[i], Some(parentId), st.issued)
    requires n1 == st.issued + Size(sc.children[i]) && t1 == st.ticks + 2 * Size(sc.children[i])
    ensures WalkFrom(env, runId, sc, i, parentId, st) == WalkFrom(env, runId, sc, i + 1, parentId, st1)
    ensures st1.outbox == st.outbox + Msgs(env, runId, a, st.ticks)
    ensures Msgs(env, runId, ExpectedFrom(env, sc, i, parentId, st.issued), st.ticks) ==
            Msgs(env, runId, a, st.ticks) + Msgs(env, runId, ExpectedFrom(env, sc, i + 1, parentId, n1), t1)
  {
    var c := sc.children[i];
    WalkFromPastChild(env, runId, sc, i, parentId, st);
    WalkPassesIff(env, runId, c, Some(parentId), st);
    ListingPastChild(env, runId, sc, i, parentId, a, st.issued, st.ticks, n1, t1);
    WalkFollowsPreOrder(env, runId, c, Some(parentId), st);
  }

  /** When child `i` gets through, the walk goes on with the next child. */
  lemma WalkFromPastChild(env: Env, runId: string, sc: ScenarioStep, i: nat, parentId: string, st: Sim)
    requires i < |sc.children| && Walk(env, runId, sc.children[i], Some(parentId), false, st).1
    ensures WalkFrom(env, runId, sc, i, parentId, st) ==
            WalkFrom(env, runId, sc, i + 1, parentId, Walk(env, runId, sc.children[i], Some(parentId), false, st).0)
  {
  }

  /** The listing of the children from `i` on is child `i`'s, then the rest;
      when child `i`'s passes, so do the broadcasts. */
  lemma ListingPastChild(env: Env, runId: string, sc: ScenarioStep, i: nat, parentId: string, a: seq<Emission>,
                         n: nat, t: nat, n1: nat, t1: nat)
    requires i < |sc.children| && a == Expected(env, sc.children[i], Some(parentId), n) && AllOk(a)
    requires n1 == n + Size(sc.children[i]) && t1 == t + 2 * |a|
    ensures Msgs(env, runId, ExpectedFrom(env, sc, i, parentId, n), t) ==
            Msgs(env, runId, a, t) + Msgs(env, runId, ExpectedFrom(env, sc, i + 1, parentId, n1), t1)
  {
    var b := ExpectedFrom(env, sc, i + 1, parentId, n1);
    assert ExpectedFrom(env, sc, i, parentId, n) == a + b;
    MsgsAppend(env, runId, a, b, t);
  }

  lemma Stitch<M>(x: seq<M>, o: seq<M>, o1: seq<M>, ma: seq<M>, mb: seq<M>, mab: seq<M>)
    requires o1 == o + ma && x == o1 + mb && mab == ma + mb
    ensures x == o + mab
  {
  }

  // ---- The root and the run -------------------------------------------------

  /** Only the root walk writes the run: it records the root's step id, when
      the run exists and the root step got through. */
  lemma RootRecordsItsId(env: Env, runId: string, sc: ScenarioStep, st: Sim, run: Run)
    requires Keyed.Lookup(st.runs, runId, RunKey) == Some(run)
    ensures var (st', ok) := Walk(env, runId, sc, None, true, st);
            (NodeOk(sc) ==> Keyed.Lookup(st'.runs, runId, RunKey) == Some(run.(rootStepId := Some(env.ids(st.issued))))) &&
            (!NodeOk(sc) ==> st'.runs == st.runs)
  {
    EmitMatches(env, runId, sc, None, st);
    var (st1, id) := Emit(env, runId, sc, None, st);
    if id.Some? {
      var r := run.(rootStepId := id);
      var st2 := SetRoot(runId, id.value, st1);
      assert st2.runs == Keyed.Upsert(st1.runs, r, RunKey);
      WalkFromCounts(env, runId, sc, 0, id.value, st2);
      Keyed.LookupAfterUpsert(st1.runs, r, RunKey, runId);
    }
  }

  /** The root walk broadcasts the root's messages; when the root step got
      through, the run carrying the root's id follows (if the run exists),
      then the children's listings, up to and including the first node that
      raised. */
  lemma RootWalkBroadcasts(env: Env, runId: string, sc: ScenarioStep, st: Sim)
    ensures var id := env.ids(st.issued);
            var found := Keyed.Lookup(st.runs, runId, RunKey);
            var update := if found.Some? then [RunUpdate(found.value.(rootStepId := Some(id)))] else [];
            Walk(env, runId, sc, None, true, st).0.outbox ==
              st.outbox + NodeMsgs(env, runId, Emission(sc, None, id), st.ticks) +
              (if NodeOk(sc) then update + Msgs(env, runId, ExpectedFrom(env, sc, 0, id, st.issued + 1), st.ticks + 2)
               else [])
  {
    EmitMatches(env, runId, sc, None, st);
    var (st1, id) := Emit(env, runId, sc, None, st);
    if id.Some? {
      RootThenChildren(env, runId, sc, st, st1, id.value, st.issued + 1, st.ticks + 2);
    } else {
      assert Walk(env, runId, sc, None, true, st) == (st1, false);
    }
  }

  /** The root walk once the root step got through and its id is recorded,
      with the id and clock counters after the root named `n1` and `t1`. */
  lemma RootThenChildren(env: Env, runId: string, sc: ScenarioStep, st: Sim, st1: Sim, id: string, n1: nat, t1: nat)
    requires Emit(env, runId, sc, None, st) == (st1, Some(id))
    requires st1.runs == st.runs && st1.issued == n1 && st1.ticks == t1
    ensures var found := Keyed.Lookup(st.runs, runId, RunKey);
            var update := if found.Some? then [RunUpdate(found.value.(rootStepId := Some(id)))] else [];
            Walk(env, runId, sc, None, true, st).0.outbox ==
              st1.outbox + (update + Msgs(env, runId, ExpectedFrom(env, sc, 0, id, n1), t1))
  {
    var found := Keyed.Lookup(st.runs, runId, RunKey);
    var update := if found.Some? then [RunUpdate(found.value.(rootStepId := Some(id)))] else [];
    var st2 := SetRoot(runId, id, st1);
    assert st2.outbox == st1.outbox + update && st2.issued == n1 && st2.ticks == t1;
    assert Walk(env, runId, sc, None, true, st) == WalkFrom(env, runId, sc, 0, id, st2);
    WalkFromFollowsPreOrder(env, runId, sc, 0, id, st2);
    Assoc(st1.outbox, update, Msgs(env, runId, ExpectedFrom(env, sc, 0, id, n1), t1));
  }

  /** `run_simulation` leaves the run completed exactly when every node of
      the scenario is well formed, and failed otherwise; a root step that
      got through has its id on the run; the run in that final state is the
      last broadcast, after everything the walk broadcast. */
  lemma SimulationOutcome(env: Env, runId: string, sc: ScenarioStep, st: Sim, run: Run)
    requires Keyed.Lookup(st.runs, runId, RunKey) == Some(run)
    ensures var final := Keyed.Lookup(Simulate(env, runId, sc, st).runs, runId, RunKey);
            final.Some? &&
            (final.value.status == RunStatus.Completed <==> WellFormed(sc)) &&
            (final.value.status == RunStatus.Failed <==> !WellFormed(sc)) &&
            (NodeOk(sc) ==> final.value.rootStepId == Some(env.ids(st.issued))) &&
            (!NodeOk(sc) ==> final.value.rootStepId == run.rootStepId) &&
            Simulate(env, runId, sc, st).outbox == Walk(env, runId, sc, None, true, st).0.outbox + [RunUpdate(final.value)]
  {
    var (st1, ok) := Walk(env, runId, sc, None, true, st);
    RootRecordsItsId(env, runId, sc, st, run);
    WalkSucceedsIff(env, runId, sc, None, true, st);
    var before := Keyed.Lookup(st1.runs, runId, RunKey);
    assert before.Some?;
    var r := before.value.(status := if ok then RunStatus.Completed else RunStatus.Failed, updatedAt := env.clock(st1.ticks));
    Keyed.LookupAfterUpsert(st1.runs, r, RunKey, runId);
  }

}
