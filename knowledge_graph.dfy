/** The knowledge-graph page: nodes filtered by type and by a
    case-insensitive search, edges kept only between kept nodes, the
    neighbourhood of a node, label truncation, and the page's selection,
    filter and zoom controls. */
module KnowledgeGraph {
  import opened Shared
  import opened Text
  import opened Seqs
  import opened SampleData

  const AllTypes: set<NodeType> := {Person, Property, DocumentNode, Organization, Location}

  // ---------------------------------------------------------------------------
  // Queries
  // ---------------------------------------------------------------------------

  /** The type's checkbox is on and the lowercased label contains the
      lowercased search term. */
  predicate NodeMatches(n: GraphNode, enabled: set<NodeType>, search: string)
  {
    n.kind in enabled && Contains(Lower(n.caption), Lower(search))
  }

  /** filteredNodes: the matching nodes, in list order. */
  function FilteredNodes(nodes: seq<GraphNode>, enabled: set<NodeType>, search: string): (r: seq<GraphNode>)
    ensures forall n :: n in r <==> n in nodes && NodeMatches(n, enabled, search)
    ensures IsSubsequence(r, nodes)
  {
    Filter(nodes, (n: GraphNode) => NodeMatches(n, enabled, search))
  }

  function IdSet(nodes: seq<GraphNode>): set<string>
  {
    set n | n in nodes :: n.id
  }

  /** filteredEdges: the edges whose two ends are both kept nodes. */
  function FilteredEdges(kept: seq<GraphNode>, edges: seq<GraphEdge>): (r: seq<GraphEdge>)
    ensures forall e :: e in r <==> e in edges && e.fromId in IdSet(kept) && e.toId in IdSet(kept)
    ensures IsSubsequence(r, edges)
  {
    var ids := IdSet(kept);
    Filter(edges, (e: GraphEdge) => e.fromId in ids && e.toId in ids)
  }

  /** getRelatedEdges: the edges with the node at either end. */
  function RelatedEdges(edges: seq<GraphEdge>, id: string): (r: seq<GraphEdge>)
    ensures forall e :: e in r <==> e in edges && (e.fromId == id || e.toId == id)
    ensures IsSubsequence(r, edges)
  {
    Filter(edges, (e: GraphEdge) => e.fromId == id || e.toId == id)
  }

  /** The end of an edge that is not the given node. */
  function OtherEnd(e: GraphEdge, id: string): string
  {
    if e.fromId == id then e.toId else e.fromId
  }

  function RelatedIds(edges: seq<GraphEdge>, id: string): (r: seq<string>)
    ensures forall x :: x in r <==> exists e :: e in RelatedEdges(edges, id) && OtherEnd(e, id) == x
  {
    var related := RelatedEdges(edges, id);
    var r := seq(|related|, i requires 0 <= i < |related| => OtherEnd(related[i], id));
    assert forall e :: e in related ==> OtherEnd(e, id) in r by {
      forall e | e in related ensures OtherEnd(e, id) in r {
        var i :| 0 <= i < |related| && related[i] == e;
        assert r[i] == OtherEnd(e, id);
      }
    }
    r
  }

  /** getRelatedNodes: the nodes at the other end of a related edge, in
      node-list order. */
  function RelatedNodes(nodes: seq<GraphNode>, edges: seq<GraphEdge>, id: string): (r: seq<GraphNode>)
    ensures forall n :: n in r <==>
      n in nodes && exists e :: e in edges && (e.fromId == id || e.toId == id) && OtherEnd(e, id) == n.id
    ensures IsSubsequence(r, nodes)
  {
    var ids := RelatedIds(edges, id);
    Filter(nodes, (n: GraphNode) => n.id in ids)
  }

  /** A label longer than 15 characters is cut to 15 and marked with "...". */
  function TruncateLabel(s: string): (r: string)
    ensures |s| <= 15 ==> r == s
    ensures |s| > 15 ==> |r| == 18 && r[..15] == s[..15] && r[15..] == "..."
  {
    if |s| > 15 then s[..15] + "..." else s
  }

  // ---------------------------------------------------------------------------
  // Properties of the queries
  // ---------------------------------------------------------------------------

  /** On mount every type is enabled and the search is empty, and every node
      is shown. */
  lemma InitialShowsAll(nodes: seq<GraphNode>)
    ensures FilteredNodes(nodes, AllTypes, "") == nodes
  {
    assert Lower("") == "";
    forall n | n in nodes ensures NodeMatches(n, AllTypes, "") {
      assert n.kind in AllTypes by {
        match n.kind
        case Person =>
        case Property =>
        case DocumentNode =>
        case Organization =>
        case Location =>
      }
      assert OccursAt(Lower(n.caption), "", 0);
    }
    FilterAll(nodes, (n: GraphNode) => NodeMatches(n, AllTypes, ""));
  }

  /** No kept edge dangles: both its ends are kept nodes. */
  lemma FilteredEdgesClosed(nodes: seq<GraphNode>, edges: seq<GraphEdge>, enabled: set<NodeType>, search: string)
    ensures var kept := FilteredNodes(nodes, enabled, search);
      EdgesClosed(kept, FilteredEdges(kept, edges))
  {
    var kept := FilteredNodes(nodes, enabled, search);
    forall e | e in FilteredEdges(kept, edges) ensures e.fromId in NodeIds(kept) && e.toId in NodeIds(kept) {
      var a :| a in kept && a.id == e.fromId;
      var b :| b in kept && b.id == e.toId;
      var i :| 0 <= i < |kept| && kept[i] == a;
      var j :| 0 <= j < |kept| && kept[j] == b;
      assert NodeIds(kept)[i] == e.fromId && NodeIds(kept)[j] == e.toId;
    }
  }

  /** With distinct node ids, an edge touching a dropped node is dropped. */
  lemma DroppedNodeDropsEdges(nodes: seq<GraphNode>, edges: seq<GraphEdge>, enabled: set<NodeType>, search: string,
                              n: GraphNode, e: GraphEdge)
    requires Distinct(NodeIds(nodes))
    requires n in nodes && !NodeMatches(n, enabled, search)
    requires e.fromId == n.id || e.toId == n.id
    ensures e !in FilteredEdges(FilteredNodes(nodes, enabled, search), edges)
  {
    var kept := FilteredNodes(nodes, enabled, search);
    forall m | m in kept ensures m.id != n.id {
      var i :| 0 <= i < |nodes| && nodes[i] == n;
      var j :| 0 <= j < |nodes| && nodes[j] == m;
      assert m != n;
      assert NodeIds(nodes)[i] == n.id && NodeIds(nodes)[j] == m.id;
    }
  }

  /** With distinct node ids, the related nodes have distinct ids: each
      neighbour appears once however many edges lead to it. */
  lemma RelatedNodesOnce(nodes: seq<GraphNode>, edges: seq<GraphEdge>, id: string)
    requires Distinct(NodeIds(nodes))
    ensures Distinct(NodeIds(RelatedNodes(nodes, edges, id)))
  {
    var ids := RelatedIds(edges, id);
    var key := (n: GraphNode) => n.id;
    assert DistinctBy(nodes, key) by {
      forall i, j | 0 <= i < j < |nodes| ensures key(nodes[i]) != key(nodes[j]) {
        assert NodeIds(nodes)[i] != NodeIds(nodes)[j];
      }
    }
    FilterDistinctBy(nodes, (n: GraphNode) => n.id in ids, key);
    var r := RelatedNodes(nodes, edges, id);
    forall i, j | 0 <= i < j < |r| ensures NodeIds(r)[i] != NodeIds(r)[j] {
      assert key(r[i]) != key(r[j]);
    }
  }

  /** Truncation is stable: a truncated label is shown as it is. */
  lemma TruncateIdempotent(s: string)
    ensures TruncateLabel(TruncateLabel(s)) == TruncateLabel(s)
    ensures |TruncateLabel(s)| <= 18
  {
    var r := TruncateLabel(s);
    if |s| > 15 {
      assert r[..15] + "..." == r;
    }
  }

  // ---------------------------------------------------------------------------
  // Layout
  // ---------------------------------------------------------------------------

  /** The hard-coded position of each node id. */
  const Positions: map<string, (int, int)> := map[
    "1" := (200, 150), "2" := (450, 150), "3" := (325, 280), "4" := (150, 350),
    "5" := (500, 350), "6" := (100, 250), "7" := (50, 150), "8" := (550, 250)]

  lemma IdSetIds(nodes: seq<GraphNode>)
    ensures forall x :: x in IdSet(nodes) <==> x in NodeIds(nodes)
  {
    forall x | x in NodeIds(nodes) ensures x in IdSet(nodes) {
      var i :| 0 <= i < |nodes| && NodeIds(nodes)[i] == x;
      assert nodes[i] in nodes;
    }
    forall x | x in IdSet(nodes) ensures x in NodeIds(nodes) {
      var n :| n in nodes && n.id == x;
      var i :| 0 <= i < |nodes| && nodes[i] == n;
      assert NodeIds(nodes)[i] == x;
    }
  }

  /** The positioned ids are exactly the fixture's node ids, so no fixture
      node or edge is skipped for want of a position. */
  lemma PositionsCoverFixture()
    ensures Positions.Keys == IdSet(SampleGraphNodes)
    ensures forall e :: e in SampleGraphEdges ==> e.fromId in Positions && e.toId in Positions
  {
    FixtureEdgesClosed();
    FixtureNodeIds();
    IdSetIds(SampleGraphNodes);
    assert forall x :: x in Positions <==> x in ["1", "2", "3", "4", "5", "6", "7", "8"];
  }

  // ---------------------------------------------------------------------------
  // Controls
  // ---------------------------------------------------------------------------

  /** Clicking a node deselects it when it is the selected one and selects
      it otherwise. */
  function ClickSelection(selected: Option<GraphNode>, n: GraphNode): Option<GraphNode>
  {
    if selected.Some? && selected.value.id == n.id then None else Some(n)
  }

  /** A filter checkbox sets its own type's flag. */
  function SetFilter(enabled: set<NodeType>, t: NodeType, checked: bool): set<NodeType>
  {
    if checked then enabled + {t} else enabled - {t}
  }

  /** Zoom in integer tenths: a step of 2 up to at most 20, down to at
      least 5. */
  function ZoomIn(z: int): int { if z + 2 < 20 then z + 2 else 20 }

  function ZoomOut(z: int): int { if z - 2 > 5 then z - 2 else 5 }

  /** A click selects a node that was not selected, and a second click on it
      clears the selection. */
  lemma ClickToggles(selected: Option<GraphNode>, n: GraphNode)
    ensures ClickSelection(selected, n) == None <==> selected.Some? && selected.value.id == n.id
    ensures selected == None ==> ClickSelection(ClickSelection(selected, n), n) == None
    ensures ClickSelection(None, n) == Some(n)
  {
  }

  /** A checkbox changes only its own type, and its type is enabled exactly
      when it is checked. */
  lemma SetFilterOnly(enabled: set<NodeType>, t: NodeType, checked: bool, u: NodeType)
    ensures t in SetFilter(enabled, t, checked) <==> checked
    ensures u != t ==> (u in SetFilter(enabled, t, checked) <==> u in enabled)
  {
  }

  /** Zoom stays between 0.5 and 2 and moves in the direction pressed. */
  lemma ZoomBounds(z: int)
    requires 5 <= z <= 20
    ensures 5 <= ZoomIn(z) <= 20 && z <= ZoomIn(z)
    ensures 5 <= ZoomOut(z) <= 20 && ZoomOut(z) <= z
    ensures z < 20 ==> z < ZoomIn(z)
    ensures z > 5 ==> ZoomOut(z) < z
  {
  }

  /** sampleGraphNodes.find by id: the first node with the id, if any. */
  function FindNode(nodes: seq<GraphNode>, id: string): (r: Option<GraphNode>)
    ensures r.Some? ==> r.value in nodes && r.value.id == id
    ensures r.None? <==> forall n :: n in nodes ==> n.id != id
    ensures r.Some? ==> exists i :: 0 <= i < |nodes| && nodes[i] == r.value && forall j :: 0 <= j < i ==> nodes[j].id != id
  {
    if nodes == [] then None
    else if nodes[0].id == id then Some(nodes[0])
    else
      var r := FindNode(nodes[1..], id);
      assert forall n :: n in nodes[1..] ==> n in nodes;
      assert r.Some? ==> exists i :: 0 <= i < |nodes| && nodes[i] == r.value && forall j :: 0 <= j < i ==> nodes[j].id != id by {
        if r.Some? {
          var k :| 0 <= k < |nodes[1..]| && nodes[1..][k] == r.value && forall j :: 0 <= j < k ==> nodes[1..][j].id != id;
          assert nodes[k + 1] == r.value;
          assert forall j :: 0 <= j < k + 1 ==> nodes[j].id != id by {
            forall j | 0 <= j < k + 1 ensures nodes[j].id != id {
              if j > 0 { assert nodes[j] == nodes[1..][j - 1]; }
            }
          }
        }
      }
      r
  }

  /** A relationship row of the details panel leads to a neighbour of the
      selected node. */
  lemma RelatedRowNeighbour(nodes: seq<GraphNode>, edges: seq<GraphEdge>, id: string, e: GraphEdge)
    requires e in RelatedEdges(edges, id) && FindNode(nodes, OtherEnd(e, id)).Some?
    ensures FindNode(nodes, OtherEnd(e, id)).value in RelatedNodes(nodes, edges, id)
  {
    var n := FindNode(nodes, OtherEnd(e, id)).value;
    assert e in edges && (e.fromId == id || e.toId == id) && OtherEnd(e, id) == n.id;
  }

  /** The page's state. */
  datatype GraphState = GraphState(
    selected: Option<GraphNode>,
    searchTerm: string,
    zoom: int,
    showFilters: bool,
    enabled: set<NodeType>)

  const InitialGraphState: GraphState := GraphState(None, "", 10, false, AllTypes)

  class GraphView {
    var selected: Option<GraphNode>
    var searchTerm: string
    var zoom: int
    var showFilters: bool
    var enabled: set<NodeType>

    function State(): GraphState
      reads this
    {
      GraphState(selected, searchTerm, zoom, showFilters, enabled)
    }

    constructor()
      ensures State() == InitialGraphState
    {
      selected, searchTerm, zoom, showFilters, enabled := None, "", 10, false, AllTypes;
    }

    /** The nodes currently drawn. */
    function Shown(): seq<GraphNode>
      reads this
    {
      FilteredNodes(SampleGraphNodes, enabled, searchTerm)
    }

    method ClickNode(n: GraphNode)
      modifies this
      ensures State() == old(State()).(selected := ClickSelection(old(selected), n))
    {
      var isSelected := selected.Some? && selected.value.id == n.id;
      selected := if isSelected then None else Some(n);
    }

    /** A relationship row in the details panel: the node at the edge's other
        end is looked up and selected, with no toggling. A row is drawn only
        when the lookup finds a node. */
    method ClickRelated(e: GraphEdge)
      requires selected.Some? && e in RelatedEdges(SampleGraphEdges, selected.value.id)
      requires FindNode(SampleGraphNodes, OtherEnd(e, selected.value.id)).Some?
      modifies this
      ensures State() == old(State()).(selected := FindNode(SampleGraphNodes, OtherEnd(e, old(selected).value.id)))
    {
      selected := FindNode(SampleGraphNodes, OtherEnd(e, selected.value.id));
    }

    /** The details panel's close button. */
    method CloseDetails()
      modifies this
      ensures State() == old(State()).(selected := None)
    {
      selected := None;
    }

    method CheckFilter(t: NodeType, checked: bool)
      modifies this
      ensures State() == old(State()).(enabled := SetFilter(old(enabled), t, checked))
    {
      enabled := if checked then enabled + {t} else enabled - {t};
    }

    method SetSearch(term: string)
      modifies this
      ensures State() == old(State()).(searchTerm := term)
    {
      searchTerm := term;
    }

    method ToggleFilters()
      modifies this
      ensures State() == old(State()).(showFilters := !old(showFilters))
    {
      showFilters := !showFilters;
    }

    method ZoomInClick()
      modifies this
      ensures State() == old(State()).(zoom := ZoomIn(old(zoom)))
    {
      zoom := if zoom + 2 < 20 then zoom + 2 else 20;
    }

    method ZoomOutClick()
      modifies this
      ensures State() == old(State()).(zoom := ZoomOut(old(zoom)))
    {
      zoom := if zoom - 2 > 5 then zoom - 2 else 5;
    }
  }
}
