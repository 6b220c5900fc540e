/** The incremental graph hook: skills are added one at a time; the first
    one fetches recommendations, each later one draws edges to the skills
    already on the graph. Nodes can be removed and the graph cleared.
    Lookups are parameters: `None` stands for a request that failed. */
module IncrementalSkillGraph {
  import opened Text
  import opened Results
  import opened GraphTypes

  /** The number of recommendations asked for after the first skill. */
  const RecommendationCount := 5

  /** The edge drawn from a new skill to a similar one, with its style. */
  function StyledEdge(source: String, s: SimilarSkill): (e: FlowEdge)
    ensures e.id == source + "-" + s.id && e.source == source && e.target == s.id && e.similarity == s.similarity
    ensures e.animated <==> s.similarity > StrongSimilarity
    ensures 1.0 <= e.strokeWidth <= 3.0 && 0.4 <= e.opacity <= 0.9
    ensures s.similarity * 3.0 <= 1.0 ==> e.strokeWidth == 1.0
    ensures 1.0 <= s.similarity * 3.0 <= 3.0 ==> e.strokeWidth == s.similarity * 3.0
    ensures s.similarity * 3.0 >= 3.0 ==> e.strokeWidth == 3.0
    ensures s.similarity * 0.8 <= 0.4 ==> e.opacity == 0.4
    ensures 0.4 <= s.similarity * 0.8 <= 0.9 ==> e.opacity == s.similarity * 0.8
    ensures s.similarity * 0.8 >= 0.9 ==> e.opacity == 0.9
    ensures e.stroke == (if e.animated then "#4a4a4a" else "#2a2a2a")
  {
    FlowEdge(source + "-" + s.id, source, s.id, s.similarity > StrongSimilarity,
             Max(1.0, Min(3.0, s.similarity * 3.0)), Max(0.4, Min(0.9, s.similarity * 0.8)),
             if s.similarity > StrongSimilarity then "#4a4a4a" else "#2a2a2a", s.similarity)
  }

  /** The ids of a list of edges. */
  function EdgeIds(es: seq<FlowEdge>): (r: set<String>)
    ensures forall i :: 0 <= i < |es| ==> es[i].id in r
    ensures forall x :: x in r ==> exists i :: 0 <= i < |es| && es[i].id == x
  {
    set e | e in es :: e.id
  }

  /** The edges appended for a new skill: each similar skill at or above the
      threshold that is on the graph, unless an edge of that id exists. */
  function NewEdges(existing: set<String>, current: seq<String>, id: String, sims: seq<SimilarSkill>)
    : (r: seq<FlowEdge>)
    ensures |r| <= |sims|
    ensures forall i :: 0 <= i < |r| ==>
      && r[i].source == id && r[i].target in current && r[i].similarity >= SimilarityThreshold
      && r[i].id !in existing && r[i] == StyledEdge(id, SimilarSkill(r[i].target, r[i].similarity))
    decreases |sims|
  {
    if sims == [] then []
    else
      var s := sims[|sims| - 1];
      NewEdges(existing, current, id, sims[..|sims| - 1])
      + (if s.similarity >= SimilarityThreshold && s.id in current && StyledEdge(id, s).id !in existing
         then [StyledEdge(id, s)] else [])
  }

  /** Every qualifying similar skill that is on the graph and whose edge id
      is new gets an edge. */
  lemma {:induction false} NewEdgesComplete(existing: set<String>, current: seq<String>, id: String, sims: seq<SimilarSkill>)
    ensures forall k ::
      (0 <= k < |sims| && sims[k].similarity >= SimilarityThreshold && sims[k].id in current
       && id + "-" + sims[k].id !in existing) ==> StyledEdge(id, sims[k]) in NewEdges(existing, current, id, sims)
    decreases |sims|
  {
    if sims != [] {
      var init := sims[..|sims| - 1];
      NewEdgesComplete(existing, current, id, init);
      forall k | 0 <= k < |init| ensures init[k] == sims[k] { }
    }
  }

  /** The inner loop of `addSkillNode`. */
  method CollectEdges(existing: set<String>, current: seq<String>, id: String, sims: seq<SimilarSkill>)
    returns (found: seq<FlowEdge>)
    ensures found == NewEdges(existing, current, id, sims)
  {
    found := [];
    for i := 0 to |sims|
      invariant found == NewEdges(existing, current, id, sims[..i])
    {
      assert sims[..i + 1][..i] == sims[..i];
      var s := sims[i];
      if s.similarity >= SimilarityThreshold {
        var targetExists := s.id in current;
        if targetExists {
          var edgeId := id + "-" + s.id;
          if edgeId !in existing {
            found := found + [StyledEdge(id, s)];
          }
        }
      }
    }
    assert sims[..|sims|] == sims;
  }

  /** The edges after adding a skill: the first skill and a failed lookup
      draw none. */
  function EdgesAfterAdd(prevEdges: seq<FlowEdge>, prevNodes: seq<FlowNode>, id: String, similar: Option<seq<SimilarSkill>>)
    : (r: seq<FlowEdge>)
    ensures prevEdges <= r
    ensures prevNodes == [] || similar.None? ==> r == prevEdges
  {
    if prevNodes == [] || similar.None? then prevEdges
    else prevEdges + NewEdges(EdgeIds(prevEdges), NodeIds(prevNodes), id, similar.value)
  }

  /** The hook's state. */
  class IncrementalGraph {
    var nodes: seq<FlowNode>
    var edges: seq<FlowEdge>
    var recommendations: seq<SimilarSkill>
    var error: Option<String>
    var selectedSkillId: Option<String>

    constructor()
      ensures nodes == [] && edges == [] && recommendations == [] && error == None && selectedSkillId == None
    {
      nodes, edges, recommendations, error, selectedSkillId := [], [], [], None, None;
    }

    /** `addSkillNode`: the node unless present and edges to similar skills
        already on the graph. The first skill's recommendations are stored
        and then cleared within the same call, so none remain. */
    method AddSkillNode(skill: Skill, similar: Option<seq<SimilarSkill>>)
      modifies this
      ensures nodes == AddNode(old(nodes), skill)
      ensures edges == EdgesAfterAdd(old(edges), old(nodes), skill.id, similar)
      ensures recommendations == []
      ensures error == None && selectedSkillId == old(selectedSkillId)
    {
      var currentNodes := nodes;
      var newEdges: seq<FlowEdge> := [];
      if |currentNodes| > 0 && similar.Some? {
        newEdges := CollectEdges(EdgeIds(edges), NodeIds(currentNodes), skill.id, similar.value);
      }
      error := None;
      nodes := AddNode(nodes, skill);
      if |currentNodes| == 0 {
        recommendations := match similar case Some(sims) => sims case None => [];
      } else if |newEdges| > 0 {
        edges := edges + newEdges;
      }
      recommendations := [];
    }

    /** `addRecommendedSkill`: a failed lookup or a missing skill sets the
        error and changes nothing else; a found skill is added. */
    method AddRecommendedSkill(lookup: Result<Option<Skill>, String>, similar: Option<seq<SimilarSkill>>)
      modifies this
      ensures lookup.Err? ==> error == Some(lookup.error)
      ensures lookup == Ok(None) ==> error == Some("Skill not found")
      ensures !(lookup.Ok? && lookup.value.Some?) ==>
        nodes == old(nodes) && edges == old(edges) && recommendations == old(recommendations)
      ensures lookup.Ok? && lookup.value.Some? ==>
        && nodes == AddNode(old(nodes), lookup.value.value)
        && edges == EdgesAfterAdd(old(edges), old(nodes), lookup.value.value.id, similar)
        && error == None
      ensures selectedSkillId == old(selectedSkillId)
    {
      match lookup
      case Err(message) => error := Some(message);
      case Ok(None) => error := Some("Skill not found");
      case Ok(Some(skill)) => AddSkillNode(skill, similar);
    }

    /** `removeNode`: the node and its edges go; the selection is cleared
        exactly when it was that node. */
    method RemoveNode(nodeId: String)
      modifies this
      ensures nodes == RemoveNodeFrom(old(nodes), nodeId) && edges == RemoveEdgesOf(old(edges), nodeId)
      ensures selectedSkillId == (if old(selectedSkillId) == Some(nodeId) then None else old(selectedSkillId))
      ensures recommendations == old(recommendations) && error == old(error)
    {
      nodes := RemoveNodeFrom(nodes, nodeId);
      edges := RemoveEdgesOf(edges, nodeId);
      if selectedSkillId == Some(nodeId) {
        selectedSkillId := None;
      }
    }

    /** `clearGraph`: everything but the error is reset. */
    method ClearGraph()
      modifies this
      ensures nodes == [] && edges == [] && recommendations == [] && selectedSkillId == None
      ensures error == old(error)
    {
      nodes, edges, recommendations, selectedSkillId := [], [], [], None;
    }
  }

  /** Adding keeps node ids distinct and every new edge points from the new
      skill to a node that was already there. */
  lemma AddKeepsGraphSound(prevNodes: seq<FlowNode>, prevEdges: seq<FlowEdge>, skill: Skill, similar: Option<seq<SimilarSkill>>)
    requires UniqueIds(prevNodes)
    ensures UniqueIds(AddNode(prevNodes, skill))
    ensures var r := EdgesAfterAdd(prevEdges, prevNodes, skill.id, similar);
      forall i :: |prevEdges| <= i < |r| ==>
        r[i].source == skill.id && r[i].target in NodeIds(prevNodes) && r[i].id !in EdgeIds(prevEdges)
  {
  }
}
