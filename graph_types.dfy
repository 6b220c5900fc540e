/** What the three graph hooks share: the skills returned by the API, the
    similarity entries, the similarity thresholds, and order-keeping
    filtering of node and edge lists. Similarities are real numbers. */
module GraphTypes {
  import opened Text

  datatype Source = Generated | AwesomeClaudeSkills

  datatype Skill = Skill(id: String, name: String, description: String, source: Source)

  /** One entry of a similar-skills response. */
  datatype SimilarSkill = SimilarSkill(id: String, similarity: real)

  /** Edges are drawn only at or above this similarity. */
  const SimilarityThreshold: real := 0.7

  /** Edges above this similarity are animated and drawn darker. */
  const StrongSimilarity: real := 0.85

  /** A graph node of the 2D views: the skill under its id. Positions are
      random and not part of the model. */
  datatype FlowNode = FlowNode(id: String, skill: Skill)

  /** A graph edge of the 2D views, with its drawing style. */
  datatype FlowEdge = FlowEdge(id: String, source: String, target: String, animated: bool,
                               strokeWidth: real, opacity: real, stroke: String, similarity: real)

  function Max(a: real, b: real): real { if a >= b then a else b }

  function Min(a: real, b: real): real { if a <= b then a else b }

  function NodeIds(ns: seq<FlowNode>): (r: seq<String>)
    ensures |r| == |ns| && forall i :: 0 <= i < |ns| ==> r[i] == ns[i].id
  {
    seq(|ns|, i requires 0 <= i < |ns| => ns[i].id)
  }

  /** One flow node per skill, keyed by the skill's id. */
  function NodesOf(skills: seq<Skill>): (r: seq<FlowNode>)
    ensures |r| == |skills| && forall i :: 0 <= i < |r| ==> r[i] == FlowNode(skills[i].id, skills[i])
  {
    seq(|skills|, i requires 0 <= i < |skills| => FlowNode(skills[i].id, skills[i]))
  }

  /** `xs.filter(keep)`. */
  function Filter<T>(xs: seq<T>, keep: T -> bool): (r: seq<T>)
    ensures |r| <= |xs|
    ensures forall i :: 0 <= i < |r| ==> keep(r[i]) && r[i] in xs
    ensures forall i :: 0 <= i < |xs| && keep(xs[i]) ==> xs[i] in r
  {
    if xs == [] then []
    else
      var init := xs[..|xs| - 1];
      var r := Filter(init, keep) + (if keep(xs[|xs| - 1]) then [xs[|xs| - 1]] else []);
      assert forall i :: 0 <= i < |init| ==> init[i] == xs[i];
      assert forall x :: x in init ==> x in xs;
      r
  }

  /** Filtering keeps the order: it distributes over concatenation. */
  lemma {:induction false} FilterAppend<T>(a: seq<T>, b: seq<T>, keep: T -> bool)
    ensures Filter(a + b, keep) == Filter(a, keep) + Filter(b, keep)
    decreases |b|
  {
    if b == [] {
      assert a + b == a;
    } else {
      assert (a + b)[..|a + b| - 1] == a + b[..|b| - 1];
      FilterAppend(a, b[..|b| - 1], keep);
    }
  }

  /** A list whose every element passes is kept whole. */
  lemma {:induction false} FilterKeepsAll<T>(xs: seq<T>, keep: T -> bool)
    requires forall i :: 0 <= i < |xs| ==> keep(xs[i])
    ensures Filter(xs, keep) == xs
    decreases |xs|
  {
    if xs != [] {
      var init := xs[..|xs| - 1];
      FilterKeepsAll(init, keep);
      assert Filter(xs, keep) == Filter(init, keep) + [xs[|xs| - 1]];
      assert init + [xs[|xs| - 1]] == xs;
    }
  }

  /** A node list with pairwise distinct ids. */
  predicate UniqueIds(ns: seq<FlowNode>) {
    forall i, j :: 0 <= i < j < |ns| ==> ns[i].id != ns[j].id
  }

  /** The `setNodes` updater shared by the incremental hooks: append the
      node unless its id is present. */
  function AddNode(prev: seq<FlowNode>, skill: Skill): (r: seq<FlowNode>)
    ensures skill.id in NodeIds(prev) ==> r == prev
    ensures skill.id !in NodeIds(prev) ==> r == prev + [FlowNode(skill.id, skill)]
    ensures UniqueIds(prev) ==> UniqueIds(r)
    ensures skill.id in NodeIds(r)
  {
    if skill.id in NodeIds(prev) then prev
    else
      var r := prev + [FlowNode(skill.id, skill)];
      assert NodeIds(r)[|prev|] == skill.id;
      r
  }

  /** `removeNode` on nodes: every node with that id goes, the rest stay in order. */
  function RemoveNodeFrom(ns: seq<FlowNode>, nodeId: String): (r: seq<FlowNode>)
    ensures forall i :: 0 <= i < |r| ==> r[i].id != nodeId
    ensures forall i :: 0 <= i < |ns| && ns[i].id != nodeId ==> ns[i] in r
    ensures nodeId !in NodeIds(ns) ==> r == ns
  {
    if nodeId !in NodeIds(ns) then
      FilterKeepsAll(ns, (n: FlowNode) => n.id != nodeId);
      Filter(ns, (n: FlowNode) => n.id != nodeId)
    else Filter(ns, (n: FlowNode) => n.id != nodeId)
  }

  /** `removeNode` on 2D edges: every edge touching the node goes. */
  function RemoveEdgesOf(es: seq<FlowEdge>, nodeId: String): (r: seq<FlowEdge>)
    ensures forall i :: 0 <= i < |r| ==> r[i].source != nodeId && r[i].target != nodeId
    ensures forall i :: 0 <= i < |es| && es[i].source != nodeId && es[i].target != nodeId ==> es[i] in r
  {
    Filter(es, (e: FlowEdge) => e.source != nodeId && e.target != nodeId)
  }
}
