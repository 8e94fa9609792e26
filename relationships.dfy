/**
 * The "Simplified Team Relationship Map": a simple undirected graph with a
 * node per member and per tag, and an edge from a member to each tag in its
 * Genius, Competency and Frustration lists. A simple graph keeps one edge
 * per (member, tag) pair, so drawing the pair again overwrites its
 * `relation` attribute: the last category written wins.
 */
module RelationshipMap {
  import opened Profiles

  /** The node attribute `type`; nodes that only an edge created have none. */
  datatype NodeType = MemberNode | GeniusNode | Untyped

  /** The node that stands for a tag: its one-letter name. */
  function TagNode(t: Tag): string
  {
    [Letter(t)]
  }

  /** `G.add_node(member, type='member')` for every member, in order. */
  function WithMemberNodes(nodes: map<string, NodeType>, r: Roster): map<string, NodeType>
  {
    if r == [] then nodes
    else WithMemberNodes(nodes, r[..|r| - 1])[r[|r| - 1].name := MemberNode]
  }

  lemma {:induction false} MemberNodesAdded(nodes: map<string, NodeType>, r: Roster)
    ensures forall n :: n in WithMemberNodes(nodes, r) <==> n in nodes || exists i :: 0 <= i < |r| && r[i].name == n
    ensures forall i :: 0 <= i < |r| ==> WithMemberNodes(nodes, r)[r[i].name] == MemberNode
  {
    if r != [] {
      MemberNodesAdded(nodes, r[..|r| - 1]);
      assert forall i :: 0 <= i < |r| - 1 ==> r[..|r| - 1][i] == r[i];
    }
  }

  /** `G.add_node(genius_type, type='genius')` for every tag of `tags`, in order. */
  function WithTagNodes(nodes: map<string, NodeType>, tags: seq<Tag>): map<string, NodeType>
  {
    if tags == [] then nodes
    else WithTagNodes(nodes, tags[..|tags| - 1])[TagNode(tags[|tags| - 1]) := GeniusNode]
  }

  lemma {:induction false} TagNodesAdded(nodes: map<string, NodeType>, tags: seq<Tag>)
    ensures forall n :: n in WithTagNodes(nodes, tags) <==> n in nodes || exists t :: t in tags && TagNode(t) == n
    ensures forall t :: t in tags ==> WithTagNodes(nodes, tags)[TagNode(t)] == GeniusNode
    ensures forall n :: n in nodes && (forall t :: t in tags ==> TagNode(t) != n) ==>
              WithTagNodes(nodes, tags)[n] == nodes[n]
  {
    if tags != [] {
      var init := tags[..|tags| - 1];
      TagNodesAdded(nodes, init);
      assert forall t :: t in tags <==> t in init || t == tags[|tags| - 1];
    }
  }

  /** The nodes of the map before any edge is drawn. */
  function Nodes(r: Roster): map<string, NodeType>
  {
    WithTagNodes(WithMemberNodes(map[], r), Alphabet)
  }

  lemma AlphabetIsComplete()
    ensures forall t: Tag :: t in Alphabet
  {
    forall t: Tag ensures t in Alphabet {
      match t
      case W => assert Alphabet[0] == t;
      case I => assert Alphabet[1] == t;
      case D => assert Alphabet[2] == t;
      case G => assert Alphabet[3] == t;
      case E => assert Alphabet[4] == t;
      case T => assert Alphabet[5] == t;
    }
  }

  /**
   * The map has a node for every member and for all six tags, used or not,
   * and for nothing else. Tags are typed 'genius'; a member is typed
   * 'member' unless it shares its name with a tag, whose `add_node` comes
   * later and overwrites the type.
   */
  lemma NodesOfMap(r: Roster)
    ensures forall n :: n in Nodes(r) <==>
              (exists i :: 0 <= i < |r| && r[i].name == n) || (exists t :: TagNode(t) == n)
    ensures forall t :: Nodes(r)[TagNode(t)] == GeniusNode
    ensures forall i :: 0 <= i < |r| && (forall t :: TagNode(t) != r[i].name) ==>
              Nodes(r)[r[i].name] == MemberNode
  {
    AlphabetIsComplete();
    MemberNodesAdded(map[], r);
    TagNodesAdded(WithMemberNodes(map[], r), Alphabet);
  }

  /** Every endpoint an edge of the roster needs is already a node. */
  lemma EndpointsAreNodes(r: Roster, i: nat)
    requires i < |r|
    ensures r[i].name in Nodes(r)
    ensures forall t :: TagNode(t) in Nodes(r)
  {
    AlphabetIsComplete();
    MemberNodesAdded(map[], r);
    TagNodesAdded(WithMemberNodes(map[], r), Alphabet);
  }

  /** `G.add_edge` adds an endpoint that is not yet a node, without a type. */
  function WithEndpoint(nodes: map<string, NodeType>, n: string): map<string, NodeType>
  {
    if n in nodes then nodes else nodes[n := Untyped]
  }

  /** The endpoints `add_edge(m, t)` adds for every `t` of `tags`, in order. */
  function WithEndpoints(nodes: map<string, NodeType>, m: Name, tags: seq<Tag>): (nodes': map<string, NodeType>)
    ensures m in nodes && (forall t :: t in tags ==> TagNode(t) in nodes) ==> nodes' == nodes
  {
    if tags == [] then nodes
    else
      var init := tags[..|tags| - 1];
      assert forall t :: t in init ==> t in tags;
      WithEndpoint(WithEndpoint(WithEndpoints(nodes, m, init), m), TagNode(tags[|tags| - 1]))
  }

  /** `G.add_edge(m, t, relation=rel)` for every `t` of `tags`, in order. */
  function WithRelation(edges: map<(Name, Tag), Category>, m: Name, tags: seq<Tag>, rel: Category)
    : map<(Name, Tag), Category>
  {
    if tags == [] then edges
    else WithRelation(edges, m, tags[..|tags| - 1], rel)[(m, tags[|tags| - 1]) := rel]
  }

  /**
   * Drawing a list adds an edge from `m` to each of its tags, overwriting
   * the relation of a pair already drawn, and leaves every other edge alone.
   */
  lemma {:induction false} RelationAdded(edges: map<(Name, Tag), Category>, m: Name, tags: seq<Tag>, rel: Category)
    ensures forall n, t :: (n, t) in WithRelation(edges, m, tags, rel) <==> (n, t) in edges || (n == m && t in tags)
    ensures forall n, t :: (n, t) in WithRelation(edges, m, tags, rel) ==>
              WithRelation(edges, m, tags, rel)[(n, t)] == if n == m && t in tags then rel else edges[(n, t)]
  {
    if tags != [] {
      var init := tags[..|tags| - 1];
      RelationAdded(edges, m, init, rel);
      assert forall t :: t in tags <==> t in init || t == tags[|tags| - 1];
    }
  }

  /** One member's edges: Genius, then Competency, then Frustration. */
  function WithMemberEdges(edges: map<(Name, Tag), Category>, e: Entry): map<(Name, Tag), Category>
  {
    var afterGenius := WithRelation(edges, e.name, e.profile.genius, Genius);
    var afterCompetency := WithRelation(afterGenius, e.name, e.profile.competency, Competency);
    WithRelation(afterCompetency, e.name, e.profile.frustration, Frustration)
  }

  /** The edges of the map, members taken in roster order. */
  function Edges(r: Roster): map<(Name, Tag), Category>
  {
    if r == [] then map[] else WithMemberEdges(Edges(r[..|r| - 1]), r[|r| - 1])
  }

  /** The last of Genius, Competency, Frustration whose list holds the tag. */
  function LastRelation(p: Profile, t: Tag): Option<Category>
  {
    if t in p.frustration then Some(Frustration)
    else if t in p.competency then Some(Competency)
    else if t in p.genius then Some(Genius)
    else None
  }

  /**
   * The map has one edge for each (member, tag) pair that occurs in some
   * list of the member, and nothing else; the edge's relation is the last
   * category, in the order Genius, Competency, Frustration, holding the tag.
   */
  lemma {:induction false} EdgesAreLastRelations(r: Roster)
    requires WellFormed(r)
    ensures forall m, t :: (m, t) in Edges(r) <==> Lookup(r, m).Some? && LastRelation(Lookup(r, m).value, t).Some?
    ensures forall m, t :: (m, t) in Edges(r) ==> Edges(r)[(m, t)] == LastRelation(Lookup(r, m).value, t).value
  {
    if r != [] {
      var init, e := r[..|r| - 1], r[|r| - 1];
      assert WellFormed(init);
      EdgesAreLastRelations(init);
      var afterGenius := WithRelation(Edges(init), e.name, e.profile.genius, Genius);
      var afterCompetency := WithRelation(afterGenius, e.name, e.profile.competency, Competency);
      RelationAdded(Edges(init), e.name, e.profile.genius, Genius);
      RelationAdded(afterGenius, e.name, e.profile.competency, Competency);
      RelationAdded(afterCompetency, e.name, e.profile.frustration, Frustration);
      assert Lookup(init, e.name).None? by {
        forall i | 0 <= i < |init| ensures init[i].name != e.name {
          assert init[i] == r[i];
        }
      }
    }
  }

  /** The relationship graph the page draws. */
  class RelationshipGraph {
    var nodes: map<string, NodeType>
    var edges: map<(Name, Tag), Category>

    /** `nx.Graph()`. */
    constructor ()
      ensures nodes == map[] && edges == map[]
    {
      nodes := map[];
      edges := map[];
    }

    /** `add_node(n, type=kind)`: adds the node or overwrites its type. */
    method AddNode(n: string, kind: NodeType)
      modifies this
      ensures nodes == old(nodes)[n := kind]
      ensures edges == old(edges)
    {
      nodes := nodes[n := kind];
    }

    /** `add_edge(m, t, relation=rel)`: one edge per pair, the relation overwritten. */
    method AddEdge(m: Name, t: Tag, rel: Category)
      modifies this
      ensures edges == old(edges)[(m, t) := rel]
      ensures nodes == WithEndpoint(WithEndpoint(old(nodes), m), TagNode(t))
    {
      nodes := WithEndpoint(WithEndpoint(nodes, m), TagNode(t));
      edges := edges[(m, t) := rel];
    }

    /** One of the page's three inner loops: an edge to every tag of a list. */
    method AddRelations(m: Name, tags: seq<Tag>, rel: Category)
      modifies this
      ensures edges == WithRelation(old(edges), m, tags, rel)
      ensures nodes == WithEndpoints(old(nodes), m, tags)
    {
      for k := 0 to |tags|
        invariant edges == WithRelation(old(edges), m, tags[..k], rel)
        invariant nodes == WithEndpoints(old(nodes), m, tags[..k])
      {
        assert tags[..k + 1][..k] == tags[..k];
        AddEdge(m, tags[k], rel);
      }
      assert tags[..|tags|] == tags;
    }
  }

  /** The member nodes, then the tag nodes, of a fresh graph. */
  method AddAllNodes(g: RelationshipGraph, r: Roster)
    modifies g
    ensures g.nodes == WithTagNodes(WithMemberNodes(old(g.nodes), r), Alphabet)
    ensures g.edges == old(g.edges)
  {
    for i := 0 to |r|
      invariant g.nodes == WithMemberNodes(old(g.nodes), r[..i])
      invariant g.edges == old(g.edges)
    {
      assert r[..i + 1][..i] == r[..i];
      g.AddNode(r[i].name, MemberNode);
    }
    assert r[..|r|] == r;
    var members := g.nodes;
    for k := 0 to |Alphabet|
      invariant g.nodes == WithTagNodes(members, Alphabet[..k])
      invariant g.edges == old(g.edges)
    {
      assert Alphabet[..k + 1][..k] == Alphabet[..k];
      g.AddNode(TagNode(Alphabet[k]), GeniusNode);
    }
    assert Alphabet[..|Alphabet|] == Alphabet;
  }

  /** Builds the whole map: member nodes, tag nodes, then every member's edges. */
  method BuildGraph(r: Roster) returns (g: RelationshipGraph)
    ensures fresh(g)
    ensures g.nodes == Nodes(r)
    ensures g.edges == Edges(r)
  {
    g := new RelationshipGraph();
    AddAllNodes(g, r);
    for i := 0 to |r|
      invariant g.nodes == Nodes(r)
      invariant g.edges == Edges(r[..i])
    {
      assert r[..i + 1][..i] == r[..i];
      var member, profile := r[i].name, r[i].profile;
      EndpointsAreNodes(r, i);
      g.AddRelations(member, profile.genius, Genius);
      g.AddRelations(member, profile.competency, Competency);
      g.AddRelations(member, profile.frustration, Frustration);
    }
    assert r[..|r|] == r;
  }
}
