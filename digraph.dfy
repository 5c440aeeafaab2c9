/** The part of a networkx `DiGraph` the graph builder uses: nodes and edges kept in insertion
    order, where adding a node or an edge that is already present changes nothing. Nodes are
    compared by object identity, as networkx hashes `Node` objects by identity. */
module DiGraph {

  import opened Nodes

  datatype Graph = Graph(nodes: seq<Node>, edges: seq<(Node, Node)>)

  /** The empty graph, `nx.DiGraph()`. */
  const Empty := Graph([], [])

  /** No node and no edge is held twice, and every edge joins two nodes of the graph. */
  predicate Valid(g: Graph) {
    && (forall i, j :: 0 <= i < j < |g.nodes| ==> g.nodes[i] != g.nodes[j])
    && (forall i, j :: 0 <= i < j < |g.edges| ==> g.edges[i] != g.edges[j])
    && (forall e :: e in g.edges ==> e.0 in g.nodes && e.1 in g.nodes)
  }

  /** `G.add_node(v)`. */
  function AddNode(g: Graph, v: Node): (r: Graph)
    ensures r.edges == g.edges
  {
    if v in g.nodes then g else g.(nodes := g.nodes + [v])
  }

  /** Adding a node makes it a node, keeps the others, adds no other one, and keeps the graph
      well formed; re-adding a node changes nothing. */
  lemma AddNodeShape(g: Graph, v: Node)
    ensures var r := AddNode(g, v);
      && (forall u :: u in r.nodes <==> u in g.nodes || u == v)
      && (v in g.nodes ==> r == g)
      && (v !in g.nodes ==> r.nodes == g.nodes + [v])
      && (Valid(g) ==> Valid(r))
  {
  }

  /** `G.add_edge(u, v)`: adds the endpoints that are missing, then the edge if it is missing. */
  function AddEdge(g: Graph, u: Node, v: Node): (r: Graph)
  {
    var h := AddNode(AddNode(g, u), v);
    if (u, v) in h.edges then h else h.(edges := h.edges + [(u, v)])
  }

  /** Adding an edge makes its endpoints nodes and adds exactly that edge, keeping the graph
      well formed; re-adding an edge changes nothing. */
  lemma AddEdgeShape(g: Graph, u: Node, v: Node)
    ensures var r := AddEdge(g, u, v);
      && (forall w :: w in r.nodes <==> w in g.nodes || w == u || w == v)
      && (forall e :: e in r.edges <==> e in g.edges || e == (u, v))
      && ((u, v) in g.edges ==> r.edges == g.edges)
      && ((u, v) !in g.edges ==> r.edges == g.edges + [(u, v)])
      && (u in g.nodes && v in g.nodes ==> r.nodes == g.nodes)
      && (Valid(g) ==> Valid(r))
  {
    AddNodeShape(g, u);
    AddNodeShape(AddNode(g, u), v);
  }

  /** `list(G.successors(u))`: the targets of `u`'s out-edges, in the order the edges were
      first added. */
  function Successors(g: Graph, u: Node): seq<Node>
    decreases |g.edges|
  {
    if g.edges == [] then []
    else
      var e := g.edges[|g.edges| - 1];
      var rest := Successors(g.(edges := g.edges[..|g.edges| - 1]), u);
      if e.0 == u then rest + [e.1] else rest
  }

  /** `v` is an out-neighbour of `u` exactly when it is listed among its successors. */
  lemma {:induction false} SuccessorsAreOutEdges(g: Graph, u: Node, v: Node)
    ensures v in Successors(g, u) <==> (u, v) in g.edges
    decreases |g.edges|
  {
    if g.edges != [] {
      var front := g.(edges := g.edges[..|g.edges| - 1]);
      SuccessorsAreOutEdges(front, u, v);
      assert g.edges == front.edges + [g.edges[|g.edges| - 1]];
    }
  }

  /** Appending one edge appends its target to its source's successors, if it is the source. */
  lemma SuccessorsAppend(g: Graph, x: Node, y: Node, u: Node)
    ensures Successors(g.(edges := g.edges + [(x, y)]), u)
         == (if x == u then Successors(g, u) + [y] else Successors(g, u))
  {
    var h := g.(edges := g.edges + [(x, y)]);
    assert h.edges[..|h.edges| - 1] == g.edges;
    assert h.(edges := h.edges[..|h.edges| - 1]) == g;
  }

  /** `v` can be reached from `base` by following at most `k` edges. */
  ghost predicate Within(edges: seq<(Node, Node)>, base: Node, v: Node, k: nat)
    decreases k
  {
    v == base || (k > 0 && exists e :: e in edges && e.1 == v && Within(edges, base, e.0, k - 1))
  }

  /** Reachability survives adding edges and allowing longer paths. */
  lemma {:induction false} WithinMonotone(edges: seq<(Node, Node)>, more: seq<(Node, Node)>,
                                          base: Node, v: Node, k: nat, k': nat)
    requires forall e :: e in edges ==> e in more
    requires k <= k' && Within(edges, base, v, k)
    ensures Within(more, base, v, k')
    decreases k
  {
    if v != base {
      var e :| e in edges && e.1 == v && Within(edges, base, e.0, k - 1);
      WithinMonotone(edges, more, base, e.0, k - 1, k' - 1);
      assert e in more;
    }
  }
}
