/** The full-graph hook: loading all skills as nodes and drawing similarity
    edges for the first twenty of them, with no two edges joining the same
    pair; filtering by source and searching replace the nodes and drop the
    edges. The API responses are parameters: a similar-skills lookup gives
    `None` when its request fails. */
module SkillGraph {
  import opened Text
  import opened Results
  import opened GraphTypes

  /** Only the first nodes have their similar skills fetched. */
  const EdgeSourceLimit := 20

  /** The edge drawn from a processed node to one of its similar skills. */
  function EdgeOf(source: String, s: SimilarSkill): (e: FlowEdge)
    ensures e.source == source && e.target == s.id && e.similarity == s.similarity
    ensures e.animated <==> s.similarity > StrongSimilarity
  {
    FlowEdge(source + "-" + s.id, source, s.id, s.similarity > StrongSimilarity,
             Max(1.0, s.similarity * 2.5), Max(0.3, s.similarity * 0.6),
             if s.similarity > StrongSimilarity then "#3a3a3a" else "#2a2a2a", s.similarity)
  }

  /** The edge joins `a` and `b`, in either direction. */
  predicate Joins(e: FlowEdge, a: String, b: String) {
    (e.source == a && e.target == b) || (e.source == b && e.target == a)
  }

  /** `newEdges.some(...)`: some edge already joins the pair. */
  predicate Linked(es: seq<FlowEdge>, a: String, b: String) {
    exists i :: 0 <= i < |es| && Joins(es[i], a, b)
  }

  /** The inner loop: each similar skill at or above the threshold whose
      pair is not yet joined adds an edge. */
  function AddSimilar(es: seq<FlowEdge>, source: String, sims: seq<SimilarSkill>): (r: seq<FlowEdge>)
    ensures es <= r
    decreases |sims|
  {
    if sims == [] then es
    else
      var before := AddSimilar(es, source, sims[..|sims| - 1]);
      var s := sims[|sims| - 1];
      if s.similarity >= SimilarityThreshold && !Linked(before, source, s.id) then before + [EdgeOf(source, s)]
      else before
  }

  /** The outer loop over the processed node ids; a failed lookup adds nothing. */
  function LoadEdges(ids: seq<String>, similarOf: String -> Option<seq<SimilarSkill>>): seq<FlowEdge>
    decreases |ids|
  {
    if ids == [] then []
    else
      var before := LoadEdges(ids[..|ids| - 1], similarOf);
      match similarOf(ids[|ids| - 1])
      case None => before
      case Some(sims) => AddSimilar(before, ids[|ids| - 1], sims)
  }

  /** No two edges join the same unordered pair. */
  predicate NoDupPairs(es: seq<FlowEdge>) {
    forall i, j :: 0 <= i < j < |es| ==> !Joins(es[j], es[i].source, es[i].target)
  }

  /** An edge comes from a processed node's own similar list, at or above
      the threshold, and is drawn as `EdgeOf` draws it. */
  predicate Justified(e: FlowEdge, ids: seq<String>, similarOf: String -> Option<seq<SimilarSkill>>) {
    && e.source in ids
    && e.similarity >= SimilarityThreshold
    && similarOf(e.source).Some?
    && SimilarSkill(e.target, e.similarity) in similarOf(e.source).value
    && e == EdgeOf(e.source, SimilarSkill(e.target, e.similarity))
  }

  predicate AllJustified(es: seq<FlowEdge>, ids: seq<String>, similarOf: String -> Option<seq<SimilarSkill>>) {
    forall i :: 0 <= i < |es| ==> Justified(es[i], ids, similarOf)
  }

  /** Every qualifying similar skill of `source` is joined to it. */
  predicate Covers(es: seq<FlowEdge>, source: String, sims: seq<SimilarSkill>) {
    forall k :: 0 <= k < |sims| && sims[k].similarity >= SimilarityThreshold ==> Linked(es, source, sims[k].id)
  }

  lemma LinkedGrows(es: seq<FlowEdge>, es': seq<FlowEdge>, a: String, b: String)
    requires es <= es' && Linked(es, a, b)
    ensures Linked(es', a, b)
  {
    var i :| 0 <= i < |es| && Joins(es[i], a, b);
    assert es'[i] == es[i];
  }

  lemma CoversGrows(es: seq<FlowEdge>, es': seq<FlowEdge>, source: String, sims: seq<SimilarSkill>)
    requires es <= es' && Covers(es, source, sims)
    ensures Covers(es', source, sims)
  {
    forall k | 0 <= k < |sims| && sims[k].similarity >= SimilarityThreshold
      ensures Linked(es', source, sims[k].id)
    {
      LinkedGrows(es, es', source, sims[k].id);
    }
  }

  /** The inner loop keeps the pairs distinct and the edges justified, and
      joins every qualifying similar skill. */
  lemma {:induction false} AddSimilarSound(es: seq<FlowEdge>, source: String, sims: seq<SimilarSkill>,
                                           ids: seq<String>, similarOf: String -> Option<seq<SimilarSkill>>)
    requires NoDupPairs(es) && AllJustified(es, ids, similarOf)
    requires source in ids && similarOf(source).Some? && forall k :: 0 <= k < |sims| ==> sims[k] in similarOf(source).value
    ensures var r := AddSimilar(es, source, sims);
      NoDupPairs(r) && AllJustified(r, ids, similarOf) && Covers(r, source, sims)
    decreases |sims|
  {
    if sims != [] {
      var init := sims[..|sims| - 1];
      var s := sims[|sims| - 1];
      assert sims == init + [s];
      assert forall k :: 0 <= k < |init| ==> init[k] == sims[k];
      AddSimilarSound(es, source, init, ids, similarOf);
      var before := AddSimilar(es, source, init);
      assert AddSimilar(es, source, sims)
          == if s.similarity >= SimilarityThreshold && !Linked(before, source, s.id)
             then before + [EdgeOf(source, s)] else before;
      AddSimilarStep(before, source, init, s, ids, similarOf);
    }
  }

  /** One turn of the inner loop keeps what `AddSimilarSound` states. */
  lemma AddSimilarStep(before: seq<FlowEdge>, source: String, init: seq<SimilarSkill>, s: SimilarSkill,
                       ids: seq<String>, similarOf: String -> Option<seq<SimilarSkill>>)
    requires NoDupPairs(before) && AllJustified(before, ids, similarOf) && Covers(before, source, init)
    requires source in ids && similarOf(source).Some? && s in similarOf(source).value
    ensures var r := if s.similarity >= SimilarityThreshold && !Linked(before, source, s.id)
                     then before + [EdgeOf(source, s)] else before;
      NoDupPairs(r) && AllJustified(r, ids, similarOf) && Covers(r, source, init + [s])
  {
    var sims := init + [s];
    if s.similarity >= SimilarityThreshold && !Linked(before, source, s.id) {
      var e := EdgeOf(source, s);
      var r := before + [e];
      forall i | 0 <= i < |before| ensures !Joins(e, before[i].source, before[i].target) {
        if Joins(e, before[i].source, before[i].target) {
          assert Joins(before[i], source, s.id);
        }
      }
      assert Joins(r[|before|], source, s.id);
      CoversGrows(before, r, source, init);
      forall k | 0 <= k < |sims| && sims[k].similarity >= SimilarityThreshold ensures Linked(r, source, sims[k].id) {
        if k < |init| { assert sims[k] == init[k]; }
      }
    } else {
      forall k | 0 <= k < |sims| && sims[k].similarity >= SimilarityThreshold ensures Linked(before, source, sims[k].id) {
        if k < |init| { assert sims[k] == init[k]; }
      }
    }
  }

  /** Loading: no two edges join the same pair, every edge comes from a
      processed node's similar list at or above the threshold, and every
      such similar skill of a processed node ends up joined to it. */
  lemma {:induction false} LoadEdgesSound(ids: seq<String>, similarOf: String -> Option<seq<SimilarSkill>>)
    ensures var r := LoadEdges(ids, similarOf);
      && NoDupPairs(r) && AllJustified(r, ids, similarOf)
      && forall i :: 0 <= i < |ids| && similarOf(ids[i]).Some? ==> Covers(r, ids[i], similarOf(ids[i]).value)
    decreases |ids|
  {
    if ids != [] {
      var init := ids[..|ids| - 1];
      LoadEdgesSound(init, similarOf);
      LoadEdgesStep(init, ids[|ids| - 1], similarOf);
      assert init + [ids[|ids| - 1]] == ids;
    }
  }

  /** One turn of the outer loop keeps what `LoadEdgesSound` states. */
  lemma LoadEdgesStep(init: seq<String>, id: String, similarOf: String -> Option<seq<SimilarSkill>>)
    requires var before := LoadEdges(init, similarOf);
      && NoDupPairs(before) && AllJustified(before, init, similarOf)
      && forall i :: 0 <= i < |init| && similarOf(init[i]).Some? ==> Covers(before, init[i], similarOf(init[i]).value)
    ensures var ids := init + [id];
      var r := LoadEdges(ids, similarOf);
      && NoDupPairs(r) && AllJustified(r, ids, similarOf)
      && forall i :: 0 <= i < |ids| && similarOf(ids[i]).Some? ==> Covers(r, ids[i], similarOf(ids[i]).value)
  {
    var ids := init + [id];
    assert ids[..|ids| - 1] == init && ids[|ids| - 1] == id;
    var before := LoadEdges(init, similarOf);
    var r := LoadEdges(ids, similarOf);
    JustifiedWiden(before, init, ids, similarOf);
    match similarOf(id)
    case None =>
      assert r == before;
      forall i | 0 <= i < |ids| && similarOf(ids[i]).Some? ensures Covers(r, ids[i], similarOf(ids[i]).value) {
        assert ids[i] == init[i];
      }
    case Some(sims) =>
      assert r == AddSimilar(before, id, sims);
      AddSimilarSound(before, id, sims, ids, similarOf);
      forall i | 0 <= i < |ids| && similarOf(ids[i]).Some? ensures Covers(r, ids[i], similarOf(ids[i]).value) {
        if i < |init| {
          assert ids[i] == init[i];
          CoversGrows(before, r, ids[i], similarOf(ids[i]).value);
        }
      }
  }

  /** Justification only asks that the source be among the processed ids,
      so it survives adding ids. */
  lemma JustifiedWiden(es: seq<FlowEdge>, small: seq<String>, big: seq<String>,
                       similarOf: String -> Option<seq<SimilarSkill>>)
    requires AllJustified(es, small, similarOf)
    requires forall x :: x in small ==> x in big
    ensures AllJustified(es, big, similarOf)
  {
  }

  function FirstIds(nodes: seq<FlowNode>): (r: seq<String>)
    ensures |r| == (if |nodes| < EdgeSourceLimit then |nodes| else EdgeSourceLimit)
    ensures r <= NodeIds(nodes)
  {
    NodeIds(nodes)[..if |nodes| < EdgeSourceLimit then |nodes| else EdgeSourceLimit]
  }

  /** The hook's state. */
  class SkillGraphState {
    var nodes: seq<FlowNode>
    var edges: seq<FlowEdge>
    var error: Option<String>

    constructor()
      ensures nodes == [] && edges == [] && error == None
    {
      nodes, edges, error := [], [], None;
    }

    /** `loadSkills`: on success every skill becomes a node and the edges are
        rebuilt from the first twenty; on failure only the error is set. */
    method LoadSkills(response: Result<seq<Skill>, String>, similarOf: String -> Option<seq<SimilarSkill>>)
      modifies this
      ensures response.Ok? ==> nodes == NodesOf(response.value) && edges == LoadEdges(FirstIds(nodes), similarOf) && error == None
      ensures response.Err? ==> nodes == old(nodes) && edges == old(edges) && error == Some(response.error)
    {
      error := None;
      if response.Err? {
        error := Some(response.error);
        return;
      }
      nodes := NodesOf(response.value);
      var ids := FirstIds(nodes);
      var newEdges: seq<FlowEdge> := [];
      for i := 0 to |ids|
        invariant newEdges == LoadEdges(ids[..i], similarOf)
      {
        assert ids[..i + 1][..i] == ids[..i];
        var id := ids[i];
        match similarOf(id)
        case None =>
        case Some(sims) =>
          ghost var start := newEdges;
          for j := 0 to |sims|
            invariant newEdges == AddSimilar(start, id, sims[..j])
          {
            assert sims[..j + 1][..j] == sims[..j];
            var s := sims[j];
            if s.similarity >= SimilarityThreshold {
              var edgeExists := Linked(newEdges, id, s.id);
              if !edgeExists {
                newEdges := newEdges + [EdgeOf(id, s)];
              }
            }
          }
          assert sims[..|sims|] == sims;
      }
      assert ids[..|ids|] == ids;
      edges := newEdges;
    }

    /** `filterBySource`: without a source, a full reload; with one, the
        filtered skills replace the nodes and the edges are emptied. */
    method FilterBySource(source: Option<Source>, response: Result<seq<Skill>, String>,
                          similarOf: String -> Option<seq<SimilarSkill>>)
      modifies this
      ensures source.None? && response.Ok? ==> 
        nodes == NodesOf(response.value) && edges == LoadEdges(FirstIds(nodes), similarOf) && error == None
      ensures source.Some? && response.Ok? ==> nodes == NodesOf(response.value) && edges == [] && error == old(error)
      ensures response.Err? ==> nodes == old(nodes) && edges == old(edges) && error == Some(response.error)
    {
      if source.None? {
        LoadSkills(response, similarOf);
      } else {
        ShowResults(response);
      }
    }

    /** `searchSkills`: a blank query reloads everything; otherwise the
        results replace the nodes and the edges are emptied. */
    method SearchSkills(query: String, response: Result<seq<Skill>, String>,
                        similarOf: String -> Option<seq<SimilarSkill>>)
      modifies this
      ensures Trim(query) == [] && response.Ok? ==> 
        nodes == NodesOf(response.value) && edges == LoadEdges(FirstIds(nodes), similarOf) && error == None
      ensures Trim(query) != [] && response.Ok? ==> nodes == NodesOf(response.value) && edges == [] && error == old(error)
      ensures response.Err? ==> nodes == old(nodes) && edges == old(edges) && error == Some(response.error)
    {
      var blank := Trim(query) == [];
      if blank {
        LoadSkills(response, similarOf);
      } else {
        ShowResults(response);
      }
    }

    /** The shared tail of `filterBySource` and `searchSkills`: the returned
        skills replace the nodes without edges, or the error is set. */
    method ShowResults(response: Result<seq<Skill>, String>)
      modifies this
      ensures response.Ok? ==> nodes == NodesOf(response.value) && edges == [] && error == old(error)
      ensures response.Err? ==> nodes == old(nodes) && edges == old(edges) && error == Some(response.error)
    {
      match response
      case Ok(skills) =>
        nodes := NodesOf(skills);
        edges := [];
      case Err(message) =>
        error := Some(message);
    }
  }
}
