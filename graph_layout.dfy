// Node and edge construction for the execution graph. One node per step,
// one directed edge parent -> child per step that names a parent. Placement
// is delegated to an external layered-layout library; here it is the
// uninterpreted `centre` function from node id to the centre it assigned.
module GraphLayout {
  import opened Types
  import Seqs

  const NodeWidth: int := 260
  const NodeHeight: int := 88

  const Red := "#ef4444"
  const Blue := "#3b82f6"
  const Gray := "#6b7280"

  datatype Point = Point(x: real, y: real)

  datatype Node = Node(id: string, nodeType: string, position: Point, data: Step)

  datatype EdgeStyle = EdgeStyle(stroke: string, strokeWidth: int)

  datatype Edge = Edge(id: string, source: string, target: string, animated: bool, style: EdgeStyle)

  datatype Layout = Layout(nodes: seq<Node>, edges: seq<Edge>)

  /** A parent reference counts only when it is present and non-empty. */
  predicate HasParent(s: Step)
  {
    s.parentStepId.Some? && s.parentStepId.value != ""
  }

  /** Top-left corner of a node box whose centre the layout placed at
      `centre(id)`; a missing entry counts as the origin. */
  function TopLeft(id: string, centre: string -> Option<Point>): (p: Point)
    ensures centre(id).Some? ==>
              p.x + (NodeWidth / 2) as real == centre(id).value.x &&
              p.y + (NodeHeight / 2) as real == centre(id).value.y
    ensures centre(id).None? ==> p == Point(-130.0, -44.0)
  {
    var c := match centre(id) case Some(c) => c case None => Point(0.0, 0.0);
    Point(c.x - (NodeWidth / 2) as real, c.y - (NodeHeight / 2) as real)
  }

  function NodeFor(step: Step, centre: string -> Option<Point>): Node
  {
    Node(step.stepId, "stepNode", TopLeft(step.stepId, centre), step)
  }

  /** Edge colour: red for a failed target, blue for a running one, gray
      for every other status. */
  function StrokeFor(status: StepStatus): (c: string)
    ensures c == Red <==> status == StepStatus.Failed
    ensures c == Blue <==> status == StepStatus.Running
    ensures c == Gray <==> status == StepStatus.Completed || status == StepStatus.Retrying
  {
    assert Red[1] != Gray[1] && Blue[1] != Gray[1] && Red[1] != Blue[1];
    match status
    case Failed => Red
    case Running => Blue
    case Completed | Retrying => Gray
  }

  function EdgeFor(step: Step): (e: Edge)
    requires HasParent(step)
    ensures e.source == step.parentStepId.value && e.target == step.stepId
    ensures e.id == step.parentStepId.value + "-" + step.stepId
    ensures e.animated <==> step.status == StepStatus.Running
    ensures e.style == EdgeStyle(StrokeFor(step.status), 2)
  {
    var parent := step.parentStepId.value;
    Edge(parent + "-" + step.stepId, parent, step.stepId,
         step.status == StepStatus.Running,
         EdgeStyle(StrokeFor(step.status), 2))
  }

  function Nodes(steps: seq<Step>, centre: string -> Option<Point>): (r: seq<Node>)
    ensures |r| == |steps|
    ensures forall i :: 0 <= i < |steps| ==> r[i] == NodeFor(steps[i], centre)
  {
    seq(|steps|, i requires 0 <= i < |steps| => NodeFor(steps[i], centre))
  }

  function WithParent(steps: seq<Step>): seq<Step>
  {
    Seqs.Filter(steps, HasParent)
  }

  function Edges(steps: seq<Step>): (r: seq<Edge>)
    ensures |r| == |WithParent(steps)|
    ensures forall k :: 0 <= k < |r| ==> r[k] == EdgeFor(WithParent(steps)[k])
  {
    var ps := WithParent(steps);
    seq(|ps|, k requires 0 <= k < |ps| => EdgeFor(ps[k]))
  }

  function ComputeGraphLayout(steps: seq<Step>, centre: string -> Option<Point>): Layout
  {
    Layout(Nodes(steps, centre), Edges(steps))
  }

  // ---- Properties -----------------------------------------------------------

  /** One node per step, in order, carrying the step and its box corner. */
  lemma NodesMatchSteps(steps: seq<Step>, centre: string -> Option<Point>, i: nat)
    requires i < |steps|
    ensures |ComputeGraphLayout(steps, centre).nodes| == |steps|
    ensures var n := ComputeGraphLayout(steps, centre).nodes[i];
            n.id == steps[i].stepId && n.nodeType == "stepNode" && n.data == steps[i] &&
            n.position == TopLeft(steps[i].stepId, centre)
  {
  }

  /** Every step with a parent yields its edge, whether or not the parent is
      among the steps: no membership check is made. */
  lemma {:induction false} EdgeForEveryParentedStep(steps: seq<Step>, i: nat)
    requires i < |steps| && HasParent(steps[i])
    ensures EdgeFor(steps[i]) in Edges(steps)
  {
    var ps := WithParent(steps);
    Seqs.FilterComplete(steps, HasParent, i);
    var k :| 0 <= k < |ps| && ps[k] == steps[i];
    assert Edges(steps)[k] == EdgeFor(steps[i]);
  }

  /** Conversely every edge comes from some step with a parent. */
  lemma EdgesComeFromSteps(steps: seq<Step>, e: Edge)
    requires e in Edges(steps)
    ensures exists i :: 0 <= i < |steps| && HasParent(steps[i]) && e == EdgeFor(steps[i])
  {
    var ps := WithParent(steps);
    var k :| 0 <= k < |ps| && Edges(steps)[k] == e;
    Seqs.FilterSound(steps, HasParent, k);
    var i :| 0 <= i < |steps| && steps[i] == ps[k];
  }

  /** A step whose parent names no step in the list still gets an edge whose
      source is that missing id. */
  lemma DanglingParentKeepsEdge(steps: seq<Step>, i: nat)
    requires i < |steps| && HasParent(steps[i])
    requires forall j :: 0 <= j < |steps| ==> steps[j].stepId != steps[i].parentStepId.value
    ensures exists e :: e in Edges(steps) && e.source == steps[i].parentStepId.value &&
                        forall n :: n in ComputeGraphLayout(steps, (id: string) => None).nodes ==> n.id != e.source
  {
    EdgeForEveryParentedStep(steps, i);
    var e := EdgeFor(steps[i]);
    var ns := ComputeGraphLayout(steps, (id: string) => None).nodes;
    forall n | n in ns ensures n.id != e.source {
      var j :| 0 <= j < |ns| && ns[j] == n;
    }
  }

  /** Edges come in input order and never outnumber nodes. */
  lemma EdgeCountBounded(steps: seq<Step>, centre: string -> Option<Point>)
    ensures |ComputeGraphLayout(steps, centre).edges| == Seqs.Count(steps, HasParent)
    ensures |ComputeGraphLayout(steps, centre).edges| <= |ComputeGraphLayout(steps, centre).nodes|
    ensures Seqs.IsSubsequence(WithParent(steps), steps)
  {
    Seqs.FilterIsSubsequence(steps, HasParent);
  }

  lemma EmptyLayout(centre: string -> Option<Point>)
    ensures ComputeGraphLayout([], centre) == Layout([], [])
  {
  }
}
