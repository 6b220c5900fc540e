/** The 3D graph hook: adding one skill or a batch of skills, drawing
    similarity edges to skills already on the graph, and removing or
    clearing. Edge duplicates are recognised by the text key `from-to`.
    Positions and colours are not modelled; a similar-skills lookup is a
    parameter that gives `None` when its request fails. */
module SkillGraph3D {
  import opened Text
  import opened Results
  import opened GraphTypes

  datatype Edge3D = Edge3D(from: String, to: String, similarity: real)

  /** The text key of an edge. */
  function Key(from: String, to: String): String {
    from + "-" + to
  }

  /** `new Set(prev.map(e => `${e.from}-${e.to}`))`. */
  function Keys(es: seq<Edge3D>): (r: set<String>)
    ensures forall i :: 0 <= i < |es| ==> Key(es[i].from, es[i].to) in r
  {
    set e | e in es :: Key(e.from, e.to)
  }

  /** The key is not present in either order. */
  predicate Unkeyed(keys: set<String>, a: String, b: String) {
    Key(a, b) !in keys && Key(b, a) !in keys
  }

  // --- adding one skill

  /** The edges the updater appends for one new skill: each similar skill
      at or above the threshold that is already on the graph and whose key
      is absent in both orders. */
  function EdgesFor(keys: set<String>, current: seq<String>, id: String, sims: seq<SimilarSkill>): (r: seq<Edge3D>)
    ensures forall i :: 0 <= i < |r| ==>
      && r[i].from == id && r[i].to in current && r[i].similarity >= SimilarityThreshold
      && Unkeyed(keys, id, r[i].to)
    ensures |r| <= |sims|
    decreases |sims|
  {
    if sims == [] then []
    else
      var s := sims[|sims| - 1];
      EdgesFor(keys, current, id, sims[..|sims| - 1])
      + (if s.similarity >= SimilarityThreshold && s.id in current && Unkeyed(keys, id, s.id)
         then [Edge3D(id, s.id, s.similarity)] else [])
  }

  /** Every qualifying similar skill on the graph whose key is absent in
      both orders gets an edge. */
  lemma {:induction false} EdgesForComplete(keys: set<String>, current: seq<String>, id: String, sims: seq<SimilarSkill>, k: nat)
    requires k < |sims| && sims[k].similarity >= SimilarityThreshold && sims[k].id in current
    requires Unkeyed(keys, id, sims[k].id)
    ensures Edge3D(id, sims[k].id, sims[k].similarity) in EdgesFor(keys, current, id, sims)
    decreases |sims|
  {
    var init := sims[..|sims| - 1];
    if k < |init| {
      assert init[k] == sims[k];
      EdgesForComplete(keys, current, id, init, k);
    }
  }

  /** The edges after adding one skill: unchanged when the graph was empty
      beforehand or the lookup failed. */
  function EdgesAfterAdd(prevEdges: seq<Edge3D>, prevNodes: seq<FlowNode>, id: String, similar: Option<seq<SimilarSkill>>)
    : (r: seq<Edge3D>)
    ensures prevNodes == [] || similar.None? ==> r == prevEdges
    ensures prevEdges <= r
  {
    if prevNodes == [] || similar.None? then prevEdges
    else prevEdges + EdgesFor(Keys(prevEdges), NodeIds(prevNodes), id, similar.value)
  }

  // --- adding a batch

  /** The nodes after a batch: the previous ones, then the batch's skills
      whose ids were not present before, in order. Repeats inside the
      batch are all kept. */
  function WithSkills(prev: seq<FlowNode>, skills: seq<Skill>): (r: seq<FlowNode>)
    ensures prev <= r && |r| <= |prev| + |skills|
    ensures forall n :: n in r[|prev|..] <==> n in NodesOf(skills) && n.id !in NodeIds(prev)
  {
    var added := Filter(NodesOf(skills), (n: FlowNode) => n.id !in NodeIds(prev));
    assert (prev + added)[|prev|..] == added;
    prev + added
  }

  /** A batch that names one new skill twice puts that id on the graph twice. */
  lemma BatchRepeatsKept(s: Skill)
    ensures WithSkills([], [s, s]) == [FlowNode(s.id, s), FlowNode(s.id, s)]
  {
    var keep := (n: FlowNode) => n.id !in NodeIds([]);
    var ns := NodesOf([s, s]);
    assert ns == [FlowNode(s.id, s)] + [FlowNode(s.id, s)];
    FilterKeepsAll(ns, keep);
  }

  /** The candidate edges of one batch node: similar skills at or above the
      threshold that are on the graph or in the batch, other than the node
      itself. */
  function CandidatesFor(all: seq<String>, id: String, sims: seq<SimilarSkill>): (r: seq<Edge3D>)
    ensures forall i :: 0 <= i < |r| ==>
      r[i].from == id && r[i].to != id && r[i].to in all && r[i].similarity >= SimilarityThreshold
    decreases |sims|
  {
    if sims == [] then []
    else
      var s := sims[|sims| - 1];
      CandidatesFor(all, id, sims[..|sims| - 1])
      + (if s.similarity >= SimilarityThreshold && s.id in all && s.id != id
         then [Edge3D(id, s.id, s.similarity)] else [])
  }

  /** Every qualifying similar skill other than the node itself, on the
      graph or in the batch, is a candidate. */
  lemma {:induction false} CandidatesForComplete(all: seq<String>, id: String, sims: seq<SimilarSkill>, k: nat)
    requires k < |sims| && sims[k].similarity >= SimilarityThreshold && sims[k].id in all && sims[k].id != id
    ensures Edge3D(id, sims[k].id, sims[k].similarity) in CandidatesFor(all, id, sims)
    decreases |sims|
  {
    var init := sims[..|sims| - 1];
    if k < |init| {
      assert init[k] == sims[k];
      CandidatesForComplete(all, id, init, k);
    }
  }

  /** The inner loop of a batch: one node's candidate edges, in the order
      of its similar list. */
  method CollectCandidates(all: seq<String>, id: String, sims: seq<SimilarSkill>) returns (found: seq<Edge3D>)
    ensures found == CandidatesFor(all, id, sims)
  {
    found := [];
    for j := 0 to |sims|
      invariant found == CandidatesFor(all, id, sims[..j])
    {
      assert sims[..j + 1][..j] == sims[..j];
      var s := sims[j];
      if s.similarity >= SimilarityThreshold {
        var targetExists := s.id in all;
        if targetExists && s.id != id {
          found := found + [Edge3D(id, s.id, s.similarity)];
        }
      }
    }
    assert sims[..|sims|] == sims;
  }

  /** All candidates of a batch, node by node; a failed lookup adds none. */
  function Candidates(all: seq<String>, batch: seq<String>, similarOf: String -> Option<seq<SimilarSkill>>)
    : (r: seq<Edge3D>)
    ensures forall i :: 0 <= i < |r| ==> r[i].to != r[i].from && r[i].to in all && r[i].similarity >= SimilarityThreshold
    decreases |batch|
  {
    if batch == [] then []
    else
      var id := batch[|batch| - 1];
      Candidates(all, batch[..|batch| - 1], similarOf)
      + (match similarOf(id) case None => [] case Some(sims) => CandidatesFor(all, id, sims))
  }

  /** The outer loop of a batch: every batch node's candidates, node by
      node; a failed lookup is skipped. */
  method CollectBatch(all: seq<String>, batch: seq<String>, similarOf: String -> Option<seq<SimilarSkill>>)
    returns (found: seq<Edge3D>)
    ensures found == Candidates(all, batch, similarOf)
  {
    found := [];
    for i := 0 to |batch|
      invariant found == Candidates(all, batch[..i], similarOf)
    {
      assert batch[..i + 1][..i] == batch[..i];
      var id := batch[i];
      match similarOf(id)
      case None =>
      case Some(sims) =>
        var more := CollectCandidates(all, id, sims);
        found := found + more;
    }
    assert batch[..|batch|] == batch;
  }

  /** The edge updater of a batch: candidates whose key is absent, in both
      orders, from the previous edges. Candidates are not checked against
      each other. */
  function EdgesAfterBatch(prevEdges: seq<Edge3D>, candidates: seq<Edge3D>): (r: seq<Edge3D>)
    ensures prevEdges <= r
    ensures forall i :: |prevEdges| <= i < |r| ==> r[i] in candidates && Unkeyed(Keys(prevEdges), r[i].from, r[i].to)
  {
    var keys := Keys(prevEdges);
    prevEdges + Filter(candidates, (e: Edge3D) => Unkeyed(keys, e.from, e.to))
  }

  /** A batch never draws an edge from a node to itself. */
  lemma BatchHasNoSelfEdge(prevEdges: seq<Edge3D>, all: seq<String>, batch: seq<String>,
                           similarOf: String -> Option<seq<SimilarSkill>>)
    ensures var r := EdgesAfterBatch(prevEdges, Candidates(all, batch, similarOf));
      forall i :: |prevEdges| <= i < |r| ==> r[i].from != r[i].to
  {
  }

  // --- removing

  function RemoveEdges3D(es: seq<Edge3D>, nodeId: String): (r: seq<Edge3D>)
    ensures forall i :: 0 <= i < |r| ==> r[i].from != nodeId && r[i].to != nodeId
    ensures forall i :: 0 <= i < |es| && es[i].from != nodeId && es[i].to != nodeId ==> es[i] in r
  {
    Filter(es, (e: Edge3D) => e.from != nodeId && e.to != nodeId)
  }

  /** Removing a node keeps the other nodes and edges in their order:
      removal from a concatenation is the concatenation of the removals. */
  lemma RemoveKeepsOrder(a: seq<Edge3D>, b: seq<Edge3D>, nodeId: String)
    ensures RemoveEdges3D(a + b, nodeId) == RemoveEdges3D(a, nodeId) + RemoveEdges3D(b, nodeId)
  {
    FilterAppend(a, b, (e: Edge3D) => e.from != nodeId && e.to != nodeId);
  }

  /** The hook's state. */
  class Graph3D {
    var nodes: seq<FlowNode>
    var edges: seq<Edge3D>
    var error: Option<String>
    var hoveredNodeId: Option<String>

    constructor()
      ensures nodes == [] && edges == [] && error == None && hoveredNodeId == None
    {
      nodes, edges, error, hoveredNodeId := [], [], None, None;
    }

    /** `addSkillNode`: the node unless present, then, when the graph was
        non-empty, edges to similar skills already on it. */
    method AddSkillNode(skill: Skill, similar: Option<seq<SimilarSkill>>)
      modifies this
      ensures nodes == AddNode(old(nodes), skill)
      ensures edges == EdgesAfterAdd(old(edges), old(nodes), skill.id, similar)
      ensures error == None && hoveredNodeId == old(hoveredNodeId)
    {
      error := None;
      var currentNodes := nodes;
      nodes := AddNode(nodes, skill);
      if |currentNodes| > 0 && similar.Some? {
        var sims := similar.value;
        var existingIds := Keys(edges);
        var current := NodeIds(currentNodes);
        var newEdges: seq<Edge3D> := [];
        for i := 0 to |sims|
          invariant newEdges == EdgesFor(existingIds, current, skill.id, sims[..i])
        {
          assert sims[..i + 1][..i] == sims[..i];
          var s := sims[i];
          if s.similarity >= SimilarityThreshold {
            var targetExists := s.id in current;
            if targetExists {
              var edgeId1 := Key(skill.id, s.id);
              var edgeId2 := Key(s.id, skill.id);
              if edgeId1 !in existingIds && edgeId2 !in existingIds {
                newEdges := newEdges + [Edge3D(skill.id, s.id, s.similarity)];
              }
            }
          }
        }
        assert sims[..|sims|] == sims;
        edges := if |newEdges| > 0 then edges + newEdges else edges;
      }
    }

    /** `addMultipleSkills`: the batch's new nodes appended in order, then
        the batch's candidate edges whose keys are absent. */
    method AddMultipleSkills(skills: seq<Skill>, similarOf: String -> Option<seq<SimilarSkill>>)
      modifies this
      ensures nodes == WithSkills(old(nodes), skills)
      ensures var batch := NodeIds(NodesOf(skills));
        var cands := Candidates(NodeIds(old(nodes)) + batch, batch, similarOf);
        edges == (if cands == [] then old(edges) else EdgesAfterBatch(old(edges), cands))
      ensures error == None && hoveredNodeId == old(hoveredNodeId)
    {
      var newNodes := NodesOf(skills);
      var batch := NodeIds(newNodes);
      var newEdges := CollectBatch(NodeIds(nodes) + batch, batch, similarOf);
      error := None;
      nodes := WithSkills(nodes, skills);
      if |newEdges| > 0 {
        edges := EdgesAfterBatch(edges, newEdges);
      }
    }

    /** `removeNode`: the node and every edge touching it go. */
    method RemoveNode(nodeId: String)
      modifies this
      ensures nodes == RemoveNodeFrom(old(nodes), nodeId) && edges == RemoveEdges3D(old(edges), nodeId)
      ensures error == old(error) && hoveredNodeId == old(hoveredNodeId)
    {
      nodes := RemoveNodeFrom(nodes, nodeId);
      edges := RemoveEdges3D(edges, nodeId);
    }

    /** `clearGraph`. */
    method ClearGraph()
      modifies this
      ensures nodes == [] && edges == [] && hoveredNodeId == None && error == old(error)
    {
      nodes, edges, hoveredNodeId := [], [], None;
    }
  }
}
