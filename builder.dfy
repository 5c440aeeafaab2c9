/** `build_graph`: the breadth-first taxonomy builder. Each round expands every node of the
    frontier: its superclasses are looked up, resolved to the registered nodes, joined to it by
    edges, and its top-level flag is set; the next frontier is the resolved superclasses of the
    whole round, concatenated in order with duplicates kept.

    The graph the builder produces is described by replaying a log of expansions (`Step`s) on
    the graph holding only the base node; the lemmas below characterise that replay. */
module Builder {

  import opened Json
  import opened Nodes
  import opened Cache
  import opened DiGraph
  import opened Core

  /** One expansion of a frontier node: the node and the `get_node` results of its superclasses. */
  datatype Step = Step(node: Node, succs: seq<Node>)

  /** Every node of `ws` is the node registered under its id in `cache`. */
  ghost predicate Registered(ws: seq<Node>, cache: map<string, Node>) {
    forall w {:trigger w in ws} :: w in ws ==> w.id in cache && cache[w.id] == w
  }

  /** A prefix one element longer is the shorter prefix and that element. */
  lemma PrefixSnoc<T>(s: seq<T>, j: nat)
    requires j < |s|
    ensures s[..j + 1] == s[..j] + [s[j]]
  {
    assert s[..j + 1][..j] == s[..j];
  }

  /** What the superclass lookups have built up so far: the query cache and the requests sent. */
  datatype Point = Point(queries: map<string, Json>, sent: seq<string>)

  /** Expansion `i` of the log is one `get_superclasses` of its node from state `states[i]`: the
      lookup returned records, the expansion's superclasses are nodes with the records' ids in
      their order, and the lookup left state `states[i + 1]`. */
  ghost predicate LookedUp(respond: (string, nat) -> Reply, log: seq<Step>, states: seq<Point>, i: nat)
    requires i < |log| && i + 1 < |states|
  {
    var l := Superclasses(states[i].queries, respond, |states[i].sent|, log[i].node.id);
    && l.result.Ok? && Matches(log[i].succs, l.result.value)
    && states[i + 1] == Point(l.cache, states[i].sent + l.requests)
  }

  /** Every expansion of the log is a lookup of its node, each one from the state the one before
      it left; `states` are the states between them. */
  ghost predicate Traced(respond: (string, nat) -> Reply, log: seq<Step>, states: seq<Point>) {
    && |states| == |log| + 1
    && forall i {:trigger LookedUp(respond, log, states, i)} :: 0 <= i < |log| ==> LookedUp(respond, log, states, i)
  }

  /** Two traces that meet make one. */
  lemma TracedConcat(respond: (string, nat) -> Reply, a: seq<Step>, sa: seq<Point>, b: seq<Step>, sb: seq<Point>)
    requires Traced(respond, a, sa) && Traced(respond, b, sb) && sa[|a|] == sb[0]
    ensures Traced(respond, a + b, sa + sb[1..])
  {
    var log, st := a + b, sa + sb[1..];
    forall i | 0 <= i < |log|
      ensures LookedUp(respond, log, st, i)
    {
      if i < |a| {
        assert LookedUp(respond, a, sa, i);
        assert log[i] == a[i] && st[i] == sa[i] && st[i + 1] == sa[i + 1];
      } else {
        assert LookedUp(respond, b, sb, i - |a|);
        assert log[i] == b[i - |a|] && st[i] == sb[i - |a|] && st[i + 1] == sb[i - |a| + 1];
      }
    }
  }

  /** The graph before the first round: `G.add_node(base_node)` on an empty `DiGraph`. */
  function Start(base: Node): (g: Graph)
    ensures g == Graph([base], [])
  {
    AddNode(Empty, base)
  }

  /** The loop `for cls in sclss: G.add_node(cls); G.add_edge(node, cls)`. */
  function Link(g: Graph, u: Node, s: seq<Node>): Graph
    decreases |s|
  {
    if s == [] then g
    else
      var w := s[|s| - 1];
      AddEdge(AddNode(Link(g, u, s[..|s| - 1]), w), u, w)
  }

  /** Linking keeps a graph well formed. */
  lemma {:induction false} LinkValid(g: Graph, u: Node, s: seq<Node>)
    requires Valid(g)
    ensures Valid(Link(g, u, s))
    decreases |s|
  {
    if s != [] {
      LinkValid(g, u, s[..|s| - 1]);
    }
  }

  /** Linking a node to its superclasses adds them, and `u` when there is one, as nodes. */
  lemma {:induction false} LinkNodes(g: Graph, u: Node, s: seq<Node>)
    ensures forall w :: w in Link(g, u, s).nodes <==> w in g.nodes || w in s || (s != [] && w == u)
    decreases |s|
  {
    if s != [] {
      var front := s[..|s| - 1];
      LinkNodes(g, u, front);
      assert s == front + [s[|s| - 1]];
    }
  }

  /** Linking a node to its superclasses adds exactly the edges from `u` to them. */
  lemma {:induction false} LinkEdges(g: Graph, u: Node, s: seq<Node>)
    ensures forall e :: e in Link(g, u, s).edges <==> e in g.edges || (e.0 == u && e.1 in s)
    decreases |s|
  {
    if s != [] {
      var front := s[..|s| - 1];
      LinkEdges(g, u, front);
      assert s == front + [s[|s| - 1]];
    }
  }

  /** The expanded nodes of a log, in order. */
  function Sources(log: seq<Step>): (r: seq<Node>)
    ensures |r| == |log|
    decreases |log|
  {
    if log == [] then [] else Sources(log[..|log| - 1]) + [log[|log| - 1].node]
  }

  /** A node is among the expanded nodes exactly when some expansion of the log is of it. */
  lemma {:induction false} SourcesMembers(log: seq<Step>)
    ensures forall v :: v in Sources(log) <==> exists x :: x in log && x.node == v
    decreases |log|
  {
    if log != [] {
      var front := log[..|log| - 1];
      SourcesMembers(front);
      assert log == front + [log[|log| - 1]];
    }
  }

  /** The superclass lists of a log, concatenated in order: `res_entities.extend(sclss)`. */
  function Targets(log: seq<Step>): seq<Node>
    decreases |log|
  {
    if log == [] then [] else Targets(log[..|log| - 1]) + log[|log| - 1].succs
  }

  /** A node is among the targets exactly when some expansion of the log lists it. */
  lemma {:induction false} TargetsMembers(log: seq<Step>)
    ensures forall w :: w in Targets(log) <==> exists x :: x in log && w in x.succs
    decreases |log|
  {
    if log != [] {
      var front := log[..|log| - 1];
      TargetsMembers(front);
      assert log == front + [log[|log| - 1]];
    }
  }

  /** Appending one expansion appends its superclasses to the targets. */
  lemma TargetsAppend(log: seq<Step>, x: Step)
    ensures Targets(log + [x]) == Targets(log) + x.succs
  {
    assert (log + [x])[..|log|] == log;
  }

  /** Edge `e` is one an expansion of the log adds. */
  predicate Emits(log: seq<Step>, e: (Node, Node)) {
    exists x :: x in log && x.node == e.0 && e.1 in x.succs
  }

  /** Replaying a log of expansions on a graph, one `Link` per expansion. */
  function Replay(g: Graph, log: seq<Step>): Graph
    decreases |log|
  {
    if log == [] then g
    else
      var x := log[|log| - 1];
      Link(Replay(g, log[..|log| - 1]), x.node, x.succs)
  }

  /** Replaying a log on a well-formed graph gives a well-formed graph. */
  lemma {:induction false} ReplayValid(g: Graph, log: seq<Step>)
    requires Valid(g)
    ensures Valid(Replay(g, log))
    decreases |log|
  {
    if log != [] {
      var x := log[|log| - 1];
      ReplayValid(g, log[..|log| - 1]);
      LinkValid(Replay(g, log[..|log| - 1]), x.node, x.succs);
    }
  }

  /** The replay keeps the nodes of `g` and adds every listed superclass. */
  lemma {:induction false} ReplayKeepsNodes(g: Graph, log: seq<Step>)
    ensures forall w :: w in g.nodes ==> w in Replay(g, log).nodes
    ensures forall w :: w in Targets(log) ==> w in Replay(g, log).nodes
    decreases |log|
  {
    if log != [] {
      var front := log[..|log| - 1];
      var x := log[|log| - 1];
      ReplayKeepsNodes(g, front);
      LinkNodes(Replay(g, front), x.node, x.succs);
      assert log == front + [x];
      TargetsAppend(front, x);
      assert Replay(g, log) == Link(Replay(g, front), x.node, x.succs);
    }
  }

  /** Besides the nodes of `g` and the listed superclasses, the replay adds at most expanded
      nodes. */
  lemma {:induction false} ReplayNodes(g: Graph, log: seq<Step>)
    ensures forall w :: w in Replay(g, log).nodes ==> w in g.nodes || w in Targets(log) || w in Sources(log)
    decreases |log|
  {
    if log != [] {
      var front := log[..|log| - 1];
      var x := log[|log| - 1];
      ReplayNodes(g, front);
      var h := Replay(g, front);
      LinkNodes(h, x.node, x.succs);
      assert log == front + [x];
      TargetsAppend(front, x);
      NodesStep(h, Link(h, x.node, x.succs), g, Targets(front), Sources(front), x);
    }
  }

  /** One expansion's step of `ReplayNodes`. */
  lemma NodesStep(h: Graph, r: Graph, g: Graph, targets: seq<Node>, sources: seq<Node>, x: Step)
    requires forall w :: w in r.nodes <==> w in h.nodes || w in x.succs || (x.succs != [] && w == x.node)
    requires forall w :: w in h.nodes ==> w in g.nodes || w in targets || w in sources
    ensures forall w :: w in r.nodes ==> w in g.nodes || w in targets + x.succs || w in sources + [x.node]
  {
  }

  /** The replay holds exactly the edges of `g` and those the expansions add. */
  lemma {:induction false} ReplayEdges(g: Graph, log: seq<Step>)
    ensures forall e :: e in Replay(g, log).edges <==> e in g.edges || Emits(log, e)
    decreases |log|
  {
    if log != [] {
      var front := log[..|log| - 1];
      var x := log[|log| - 1];
      ReplayEdges(g, front);
      LinkEdges(Replay(g, front), x.node, x.succs);
      assert log == front + [x];
      forall e | Emits(log, e)
        ensures Emits(front, e) || (e.0 == x.node && e.1 in x.succs)
      {
        var y :| y in log && y.node == e.0 && e.1 in y.succs;
        if y != x {
          assert y in front;
        }
      }
      forall e | Emits(front, e)
        ensures Emits(log, e)
      {
        var y :| y in front && y.node == e.0 && e.1 in y.succs;
        assert y in log;
      }
      forall e: (Node, Node) | e.0 == x.node && e.1 in x.succs
        ensures Emits(log, e)
      {
        assert x in log;
      }
    }
  }

  /** Replaying two logs one after the other is replaying their concatenation. */
  lemma {:induction false} ReplayAppend(g: Graph, a: seq<Step>, b: seq<Step>)
    ensures Replay(g, a + b) == Replay(Replay(g, a), b)
    decreases |b|
  {
    if b == [] {
      assert a + b == a;
    } else {
      var front := b[..|b| - 1];
      ReplayAppend(g, a, front);
      assert (a + b)[..|a + b| - 1] == a + front;
      assert (a + b)[|a + b| - 1] == b[|b| - 1];
    }
  }

  /** The rounds of a run, one after the other. */
  function Flatten(rounds: seq<seq<Step>>): seq<Step>
    decreases |rounds|
  {
    if rounds == [] then [] else Flatten(rounds[..|rounds| - 1]) + rounds[|rounds| - 1]
  }

  /** An expansion belongs to the run exactly when it belongs to one of its rounds. */
  lemma {:induction false} FlattenMembers(rounds: seq<seq<Step>>)
    ensures forall x :: x in Flatten(rounds) <==> exists r :: 0 <= r < |rounds| && x in rounds[r]
    decreases |rounds|
  {
    if rounds != [] {
      var front := rounds[..|rounds| - 1];
      FlattenMembers(front);
      assert rounds == front + [rounds[|rounds| - 1]];
    }
  }

  /** `active_nodes` at the start of round `r`: the base node, then the targets of the
      previous round. */
  function Frontier(base: Node, rounds: seq<seq<Step>>, r: nat): seq<Node>
    requires r <= |rounds|
  {
    if r == 0 then [base] else Targets(rounds[r - 1])
  }

  /** Each round expands its frontier, node by node in frontier order. */
  ghost predicate Chained(base: Node, rounds: seq<seq<Step>>) {
    forall r {:trigger Sources(rounds[r])} :: 0 <= r < |rounds| ==> Sources(rounds[r]) == Frontier(base, rounds, r)
  }

  /** A prefix of a chained run is chained. */
  lemma ChainedPrefix(base: Node, rounds: seq<seq<Step>>, m: nat)
    requires Chained(base, rounds) && m <= |rounds|
    ensures Chained(base, rounds[..m])
  {
    forall r | 0 <= r < m
      ensures Sources(rounds[..m][r]) == Frontier(base, rounds[..m], r)
    {
      assert Frontier(base, rounds[..m], r) == Frontier(base, rounds, r);
    }
  }

  /** The graph after a run is the graph after all rounds but the last, with the last replayed
      on it. */
  lemma ReplayRound(base: Node, rounds: seq<seq<Step>>)
    requires rounds != []
    ensures Replay(Start(base), Flatten(rounds))
         == Replay(Replay(Start(base), Flatten(rounds[..|rounds| - 1])), rounds[|rounds| - 1])
  {
    ReplayAppend(Start(base), Flatten(rounds[..|rounds| - 1]), rounds[|rounds| - 1]);
  }

  /** After the rounds of a chained run the next frontier lies in the graph. */
  lemma {:induction false} ChainedFrontier(base: Node, rounds: seq<seq<Step>>)
    ensures forall v :: v in Frontier(base, rounds, |rounds|) ==> v in Replay(Start(base), Flatten(rounds)).nodes
  {
    var m := |rounds|;
    if m == 0 {
      assert Replay(Start(base), Flatten(rounds)) == Start(base);
    } else {
      var last := rounds[m - 1];
      ReplayRound(base, rounds);
      var h := Replay(Start(base), Flatten(rounds[..m - 1]));
      ReplayKeepsNodes(h, last);
      assert Frontier(base, rounds, m) == Targets(last);
      assert Replay(Start(base), Flatten(rounds)) == Replay(h, last);
      forall v | v in Targets(last)
        ensures v in Replay(h, last).nodes
      {
        assert v in h.nodes || v in Targets(last);
      }
    }
  }

  /** After the rounds of a chained run, every node of the graph is reachable from the base node
      in at most as many edges as there were rounds. */
  lemma {:induction false} ChainedDepth(base: Node, rounds: seq<seq<Step>>)
    requires Chained(base, rounds)
    ensures var g := Replay(Start(base), Flatten(rounds));
      forall v :: v in g.nodes ==> Within(g.edges, base, v, |rounds|)
    decreases |rounds|
  {
    var m := |rounds|;
    if m > 0 {
      var front := rounds[..m - 1];
      var last := rounds[m - 1];
      ChainedPrefix(base, rounds, m - 1);
      ChainedDepth(base, front);
      ChainedFrontier(base, front);
      var h := Replay(Start(base), Flatten(front));
      ReplayRound(base, rounds);
      ReplayNodes(h, last);
      ReplayEdges(h, last);
      assert Sources(last) == Frontier(base, front, m - 1) by {
        assert Sources(last) == Frontier(base, rounds, m - 1);
      }
      DepthRound(h, Replay(h, last), last, base, m - 1);
    }
  }

  /** One round's step of `ChainedDepth`. */
  lemma DepthRound(h: Graph, g: Graph, last: seq<Step>, base: Node, k: nat)
    requires forall w :: w in h.nodes ==> Within(h.edges, base, w, k)
    requires forall w :: w in Sources(last) ==> w in h.nodes
    requires forall e :: e in g.edges <==> e in h.edges || Emits(last, e)
    requires forall w :: w in g.nodes ==> w in h.nodes || w in Targets(last) || w in Sources(last)
    ensures forall v :: v in g.nodes ==> Within(g.edges, base, v, k + 1)
  {
    forall v | v in g.nodes
      ensures Within(g.edges, base, v, k + 1)
    {
      DepthStep(h, g, last, base, v, k);
    }
  }

  /** One round's step of `ChainedDepth`, for one node. */
  lemma DepthStep(h: Graph, g: Graph, last: seq<Step>, base: Node, v: Node, k: nat)
    requires forall w :: w in h.nodes ==> Within(h.edges, base, w, k)
    requires forall w :: w in Sources(last) ==> w in h.nodes
    requires forall e :: e in g.edges <==> e in h.edges || Emits(last, e)
    requires v in h.nodes || v in Targets(last) || v in Sources(last)
    ensures Within(g.edges, base, v, k + 1)
  {
    if v in h.nodes || v in Sources(last) {
      WithinMonotone(h.edges, g.edges, base, v, k, k + 1);
    } else {
      TargetsMembers(last);
      var x :| x in last && v in x.succs;
      assert Emits(last, (x.node, v));
      SourcesMembers(last);
      assert x.node in Sources(last);
      WithinMonotone(h.edges, g.edges, base, x.node, k, k);
    }
  }

  /** Every node of the graph after a chained run is the base node or a listed superclass. */
  lemma ChainedCover(base: Node, rounds: seq<seq<Step>>)
    requires Chained(base, rounds)
    ensures forall v :: v in Replay(Start(base), Flatten(rounds)).nodes ==>
      v == base || v in Targets(Flatten(rounds))
  {
    var log := Flatten(rounds);
    ReplayNodes(Start(base), log);
    forall v | v in Sources(log)
      ensures v == base || v in Targets(log)
    {
      ExpandedIsListed(base, rounds, v);
    }
  }

  /** Every node a chained run expands is the base node or a listed superclass. */
  lemma ExpandedIsListed(base: Node, rounds: seq<seq<Step>>, v: Node)
    requires Chained(base, rounds) && v in Sources(Flatten(rounds))
    ensures v == base || v in Targets(Flatten(rounds))
  {
    var log := Flatten(rounds);
    SourcesMembers(log);
    var y :| y in log && y.node == v;
    FlattenMembers(rounds);
    var r :| 0 <= r < |rounds| && y in rounds[r];
    SourcesMembers(rounds[r]);
    assert v in Sources(rounds[r]) && Sources(rounds[r]) == Frontier(base, rounds, r);
    if r > 0 {
      assert v in Targets(rounds[r - 1]);
      TargetsMembers(rounds[r - 1]);
      var z :| z in rounds[r - 1] && v in z.succs;
      assert z in log;
      TargetsMembers(log);
    }
  }

  /** The superclass list of the last expansion of `v` in the log, if it was expanded. */
  function LastSuccs(log: seq<Step>, v: Node): (r: Option<seq<Node>>)
    decreases |log|
  {
    if log == [] then None
    else if log[|log| - 1].node == v then Some(log[|log| - 1].succs)
    else LastSuccs(log[..|log| - 1], v)
  }

  /** A node was expanded exactly when it is among the log's expanded nodes, and its last
      expansion is one of the log's. */
  lemma {:induction false} LastSuccsMeaning(log: seq<Step>, v: Node)
    ensures LastSuccs(log, v).Some? <==> v in Sources(log)
    ensures LastSuccs(log, v).Some? ==> Step(v, LastSuccs(log, v).value) in log
    decreases |log|
  {
    if log != [] {
      var front := log[..|log| - 1];
      LastSuccsMeaning(front, v);
      assert log == front + [log[|log| - 1]];
    }
  }

  /** `acc` extended by the elements of `s` it does not hold yet, in order: the successor list
      after adding edges from one node to `s` one at a time. */
  function AppendNew(acc: seq<Node>, s: seq<Node>): seq<Node>
    decreases |s|
  {
    if s == [] then acc
    else
      var a := AppendNew(acc, s[..|s| - 1]);
      if s[|s| - 1] in a then a else a + [s[|s| - 1]]
  }

  /** Adding the new elements of `b`, then those of `c`, adds the new elements of `b + c`. */
  lemma {:induction false} AppendNewConcat(a: seq<Node>, b: seq<Node>, c: seq<Node>)
    ensures AppendNew(AppendNew(a, b), c) == AppendNew(a, b + c)
    decreases |c|
  {
    if c == [] {
      assert b + c == b;
    } else {
      var front := c[..|c| - 1];
      AppendNewConcat(a, b, front);
      assert (b + c)[..|b + c| - 1] == b + front;
      assert (b + c)[|b + c| - 1] == c[|c| - 1];
    }
  }

  /** A list without repetitions is its own list of new elements. */
  lemma {:induction false} AppendNewDistinct(s: seq<Node>)
    requires forall i, j :: 0 <= i < j < |s| ==> s[i] != s[j]
    ensures AppendNew([], s) == s
    decreases |s|
  {
    if s != [] {
      var front := s[..|s| - 1];
      AppendNewDistinct(front);
      assert s[|s| - 1] !in front;
      assert s == front + [s[|s| - 1]];
    }
  }

  /** Successors depend on the edges only. */
  lemma {:induction false} SuccessorsOfEdges(g: Graph, h: Graph, u: Node)
    requires g.edges == h.edges
    ensures Successors(g, u) == Successors(h, u)
    decreases |g.edges|
  {
    if g.edges != [] {
      SuccessorsOfEdges(g.(edges := g.edges[..|g.edges| - 1]), h.(edges := h.edges[..|h.edges| - 1]), u);
    }
  }

  /** Linking `u` to `s` extends `u`'s successors by the new elements of `s` and leaves every
      other node's successors alone. */
  lemma {:induction false} LinkSuccessors(g: Graph, u: Node, s: seq<Node>, v: Node)
    ensures Successors(Link(g, u, s), v) == if u == v then AppendNew(Successors(g, v), s) else Successors(g, v)
    decreases |s|
  {
    if s != [] {
      var front := s[..|s| - 1];
      var w := s[|s| - 1];
      var h := Link(g, u, front);
      LinkSuccessors(g, u, front, v);
      var h3 := AddNode(AddNode(AddNode(h, w), u), w);
      SuccessorsOfEdges(h3, h, v);
      if (u, w) !in h3.edges {
        SuccessorsAppend(h3, u, w, v);
      }
      SuccessorsAreOutEdges(h, u, w);
    }
  }

  /** The superclass lists of the expansions of `u` in the log, concatenated in order. */
  function SuccsOf(log: seq<Step>, u: Node): seq<Node>
    decreases |log|
  {
    if log == [] then []
    else
      var x := log[|log| - 1];
      SuccsOf(log[..|log| - 1], u) + (if x.node == u then x.succs else [])
  }

  /** After a replay, a node's successors are its earlier successors extended by the new
      elements of every superclass list it was expanded with, in expansion order. */
  lemma {:induction false} ReplaySuccessors(g: Graph, log: seq<Step>, u: Node)
    ensures Successors(Replay(g, log), u) == AppendNew(Successors(g, u), SuccsOf(log, u))
    decreases |log|
  {
    if log != [] {
      var front := log[..|log| - 1];
      var x := log[|log| - 1];
      ReplaySuccessors(g, front, u);
      LinkSuccessors(Replay(g, front), x.node, x.succs, u);
      AppendNewConcat(Successors(g, u), SuccsOf(front, u), if x.node == u then x.succs else []);
    }
  }

  /** A node expanded exactly once has the distinct superclasses of that expansion as its
      successors, in order; exactly those superclasses when the list has no repetitions. */
  lemma SingleExpansionSuccessors(base: Node, log: seq<Step>, k: nat)
    requires k < |log|
    requires forall k' :: 0 <= k' < |log| && k' != k ==> log[k'].node != log[k].node
    ensures Successors(Replay(Start(base), log), log[k].node) == AppendNew([], log[k].succs)
    ensures (forall i, j :: 0 <= i < j < |log[k].succs| ==> log[k].succs[i] != log[k].succs[j]) ==>
      Successors(Replay(Start(base), log), log[k].node) == log[k].succs
  {
    var u := log[k].node;
    ReplaySuccessors(Start(base), log, u);
    SuccsOfSingle(log, k);
    if forall i, j :: 0 <= i < j < |log[k].succs| ==> log[k].succs[i] != log[k].succs[j] {
      AppendNewDistinct(log[k].succs);
    }
  }

  /** The superclasses listed for a node expanded once are those of its one expansion. */
  lemma {:induction false} SuccsOfSingle(log: seq<Step>, k: nat)
    requires k < |log|
    requires forall k' :: 0 <= k' < |log| && k' != k ==> log[k'].node != log[k].node
    ensures SuccsOf(log, log[k].node) == log[k].succs
    decreases |log|
  {
    var u := log[k].node;
    var front := log[..|log| - 1];
    if k < |log| - 1 {
      SuccsOfSingle(front, k);
    } else {
      SuccsOfAbsent(front, u);
    }
  }

  /** A node never expanded has no listed superclasses. */
  lemma {:induction false} SuccsOfAbsent(log: seq<Step>, u: Node)
    requires forall k :: 0 <= k < |log| ==> log[k].node != u
    ensures SuccsOf(log, u) == []
    decreases |log|
  {
    if log != [] {
      SuccsOfAbsent(log[..|log| - 1], u);
    }
  }

  /** Adding new elements keeps what was there and takes in every element of `s`. */
  lemma {:induction false} AppendNewKeeps(a: seq<Node>, s: seq<Node>)
    ensures forall w :: w in a || w in s ==> w in AppendNew(a, s)
    decreases |s|
  {
    if s != [] {
      var front := s[..|s| - 1];
      AppendNewKeeps(a, front);
      assert s == front + [s[|s| - 1]];
    }
  }

  /** Adding elements that are all there already changes nothing. */
  lemma {:induction false} AppendNewPresent(b: seq<Node>, s: seq<Node>)
    requires forall w :: w in s ==> w in b
    ensures AppendNew(b, s) == b
    decreases |s|
  {
    if s != [] {
      var front := s[..|s| - 1];
      assert forall w :: w in front ==> w in s;
      AppendNewPresent(b, front);
    }
  }

  /** Linking a node to the same list twice links it once. */
  lemma AppendNewAgain(a: seq<Node>, s: seq<Node>)
    ensures AppendNew(AppendNew(a, s), s) == AppendNew(a, s)
  {
    AppendNewKeeps(a, s);
    AppendNewPresent(AppendNew(a, s), s);
  }

  /** When every expansion of `u` lists nothing or the list `S`, its successors are none or
      the new elements of `S`, and the latter when its last expansion listed `S`. */
  lemma {:induction false} SuccsOfUniform(log: seq<Step>, u: Node, S: seq<Node>)
    requires forall k :: 0 <= k < |log| && log[k].node == u ==> log[k].succs == [] || log[k].succs == S
    ensures AppendNew([], SuccsOf(log, u)) == [] || AppendNew([], SuccsOf(log, u)) == AppendNew([], S)
    ensures LastSuccs(log, u) == Some(S) ==> AppendNew([], SuccsOf(log, u)) == AppendNew([], S)
    decreases |log|
  {
    if log != [] {
      var front := log[..|log| - 1];
      var x := log[|log| - 1];
      assert forall k :: 0 <= k < |front| ==> front[k] == log[k];
      SuccsOfUniform(front, u, S);
      var part := if x.node == u then x.succs else [];
      AppendNewConcat([], SuccsOf(front, u), part);
      if part == S {
        AppendNewAgain([], S);
      }
    }
  }

  /** The position of a node's last expansion. */
  lemma {:induction false} LastSuccsAt(log: seq<Step>, u: Node) returns (k: nat)
    requires LastSuccs(log, u).Some?
    ensures k < |log| && log[k].node == u && log[k].succs == LastSuccs(log, u).value
    ensures forall k' :: k < k' < |log| ==> log[k'].node != u
    decreases |log|
  {
    var front := log[..|log| - 1];
    if log[|log| - 1].node == u {
      k := |log| - 1;
    } else {
      k := LastSuccsAt(front, u);
      assert forall k' :: k < k' < |front| ==> front[k'] == log[k'];
    }
  }

  /** The superclasses of each expansion are among the registered targets. */
  lemma StepRegistered(log: seq<Step>, k: nat, registry: map<string, Node>)
    requires k < |log| && Registered(Targets(log), registry)
    ensures Registered(log[k].succs, registry)
  {
    TargetsMembers(log);
    forall w | w in log[k].succs
      ensures w.id in registry && registry[w.id] == w
    {
      assert log[k] in log;
      assert w in Targets(log);
    }
  }

  /** Two lists of registered nodes with the ids of the same records are the same list. */
  lemma MatchesSame(a: seq<Node>, b: seq<Node>, recs: seq<EntityRecord>, registry: map<string, Node>)
    requires Matches(a, recs) && Matches(b, recs) && Registered(a, registry) && Registered(b, registry)
    ensures a == b
  {
    forall k | 0 <= k < |a|
      ensures a[k] == b[k]
    {
      assert a[k] in a && b[k] in b;
    }
  }

  /** In query cache `q`, the expansions of nodes with id `e` agree with the cached entry of
      `e`: when it is settled each listed nothing or nodes with the ids of its records; when it
      is not, each listed nothing and the query is a miss; and once one listed something, every
      later one did. */
  ghost predicate Agrees(log: seq<Step>, q: map<string, Json>, e: string) {
    && (Settled(q, e) ==> forall k :: 0 <= k < |log| && log[k].node.id == e ==>
          log[k].succs == [] || Matches(log[k].succs, Standing(q, e)))
    && (!Settled(q, e) ==> forall k :: 0 <= k < |log| && log[k].node.id == e ==>
          log[k].succs == [] && CachedAnswer(q, SuperclassQuery(e)).None?)
    && (forall k, k' :: 0 <= k < k' < |log| && log[k].node.id == e && log[k'].node.id == e && log[k].succs != [] ==>
          log[k'].succs != [])
  }

  /** One more expansion, looked up from the state the log left, keeps the agreement. */
  lemma AgreesSnoc(respond: (string, nat) -> Reply, front: seq<Step>, x: Step, p: Point, e: string)
    requires Agrees(front, p.queries, e)
    requires var l := Superclasses(p.queries, respond, |p.sent|, x.node.id); l.result.Ok? && Matches(x.succs, l.result.value)
    ensures Agrees(front + [x], Superclasses(p.queries, respond, |p.sent|, x.node.id).cache, e)
  {
    var q0, sent := p.queries, |p.sent|;
    var l := Superclasses(q0, respond, sent, x.node.id);
    var log := front + [x];
    assert forall k :: 0 <= k < |front| ==> log[k] == front[k];
    assert log[|front|] == x;
    if x.node.id != e {
      OtherLookupKeepsEntry(q0, respond, sent, x.node.id, e);
    } else {
      LookupOutcome(q0, respond, sent, e);
      if WikidataQuery(q0, respond, sent, SuperclassQuery(e)).result.Answer? && Settled(q0, e) {
        SettledLookup(q0, respond, sent, e);
      }
    }
  }

  /** A prefix of a trace is a trace. */
  lemma TracedPrefix(respond: (string, nat) -> Reply, log: seq<Step>, states: seq<Point>, n: nat)
    requires Traced(respond, log, states) && n <= |log|
    ensures Traced(respond, log[..n], states[..n + 1])
  {
    var front, st := log[..n], states[..n + 1];
    forall i | 0 <= i < n
      ensures LookedUp(respond, front, st, i)
    {
      assert LookedUp(respond, log, states, i);
      assert front[i] == log[i] && st[i] == states[i] && st[i + 1] == states[i + 1];
    }
  }

  /** Along a trace, the expansions of every id agree with the query cache the trace ends in. */
  lemma {:induction false} LookupsAgree(respond: (string, nat) -> Reply, log: seq<Step>, states: seq<Point>, e: string)
    requires Traced(respond, log, states)
    ensures Agrees(log, states[|log|].queries, e)
    decreases |log|
  {
    if log != [] {
      var n := |log| - 1;
      TracedPrefix(respond, log, states, n);
      LookupsAgree(respond, log[..n], states[..n + 1], e);
      assert LookedUp(respond, log, states, n);
      AgreesSnoc(respond, log[..n], log[n], states[n], e);
      assert log[..n] + [log[n]] == log;
    }
  }

  /** The superclass list `S` of a node with id `e` is what the cached entry of `e` in `q`
      answers: nodes with the ids of its records once it is settled (or nothing, from a lookup
      that failed before), and nothing from a query that is still a miss otherwise. */
  ghost predicate ServedBy(S: seq<Node>, q: map<string, Json>, e: string) {
    && (Settled(q, e) ==> S == [] || Matches(S, Standing(q, e)))
    && (!Settled(q, e) ==> S == [] && CachedAnswer(q, SuperclassQuery(e)).None?)
  }

  /** After a traced log, a node's successors in the replayed graph are the new elements of its
      last superclass list, and that list is what the final query cache answers for its id,
      provided every listed superclass is registered under its id. */
  lemma ExpandedSuccessors(respond: (string, nat) -> Reply, base: Node, log: seq<Step>, states: seq<Point>,
                           registry: map<string, Node>, u: Node)
    requires Traced(respond, log, states) && Registered(Targets(log), registry)
    requires LastSuccs(log, u).Some?
    ensures Successors(Replay(Start(base), log), u) == AppendNew([], LastSuccs(log, u).value)
    ensures ServedBy(LastSuccs(log, u).value, states[|log|].queries, u.id)
  {
    var S := LastSuccs(log, u).value;
    var q := states[|log|].queries;
    LookupsAgree(respond, log, states, u.id);
    var last := LastSuccsAt(log, u);
    StepRegistered(log, last, registry);
    forall k | 0 <= k < |log| && log[k].node == u
      ensures log[k].succs == [] || log[k].succs == S
    {
      if log[k].succs != [] {
        StepRegistered(log, k, registry);
        MatchesSame(log[k].succs, S, Standing(q, u.id), registry);
      }
    }
    ReplaySuccessors(Start(base), log, u);
    SuccsOfUniform(log, u, S);
  }

  /** In a graph whose nodes are all registered under their ids, no two nodes share an id. */
  lemma RegisteredIdsDistinct(g: Graph, registry: map<string, Node>)
    requires Valid(g)
    requires Registered(g.nodes, registry)
    ensures forall i, j :: 0 <= i < j < |g.nodes| ==> g.nodes[i].id != g.nodes[j].id
  {
    forall i, j | 0 <= i < j < |g.nodes|
      ensures g.nodes[i].id != g.nodes[j].id
    {
      assert g.nodes[i] in g.nodes && g.nodes[j] in g.nodes;
    }
  }

  /** Appending one expansion: it is the last expanded node, its superclasses are appended to
      the targets, and it becomes the last expansion of its node. */
  lemma StepFacts(log: seq<Step>, x: Step)
    ensures Sources(log + [x]) == Sources(log) + [x.node]
    ensures Targets(log + [x]) == Targets(log) + x.succs
    ensures forall v :: LastSuccs(log + [x], v) == if v == x.node then Some(x.succs) else LastSuccs(log, v)
  {
    assert (log + [x])[..|log|] == log;
  }

  /** A chained run extended by one more round over its frontier stays chained, and the frontier
      after it is that round's targets. */
  lemma {:induction false} ChainedExtend(base: Node, rounds: seq<seq<Step>>, cur: seq<Step>)
    requires Chained(base, rounds) && Sources(cur) == Frontier(base, rounds, |rounds|)
    ensures Chained(base, rounds + [cur])
    ensures Frontier(base, rounds + [cur], |rounds| + 1) == Targets(cur)
    ensures Flatten(rounds + [cur]) == Flatten(rounds) + cur
  {
    var next := rounds + [cur];
    assert next[..|rounds|] == rounds;
    forall r | 0 <= r < |next|
      ensures Sources(next[r]) == Frontier(base, next, r)
    {
      FrontierPrefix(base, rounds, cur, r);
    }
  }

  /** Adding a round leaves the earlier frontiers as they were. */
  lemma FrontierPrefix(base: Node, rounds: seq<seq<Step>>, cur: seq<Step>, r: nat)
    requires r <= |rounds|
    ensures Frontier(base, rounds + [cur], r) == Frontier(base, rounds, r)
  {
    if r > 0 {
      assert (rounds + [cur])[r - 1] == rounds[r - 1];
    }
  }

  /** The edge loop `for cls in sclss: G.add_node(cls); G.add_edge(node, cls)`. */
  method AddSuperclassEdges(g: Graph, node: Node, sclss: seq<Node>) returns (h: Graph)
    ensures h == Link(g, node, sclss)
  {
    h := g;
    for k := 0 to |sclss|
      invariant h == Link(g, node, sclss[..k])
    {
      assert sclss[..k + 1][..k] == sclss[..k];
      h := AddNode(h, sclss[k]);
      h := AddEdge(h, node, sclss[k]);
    }
    assert sclss[..|sclss|] == sclss;
  }

  /** Each node of `nodes` that is not in `before` and stands for the first record of its id
      carries that record's label. */
  predicate NewLabels(nodes: seq<Node>, recs: seq<EntityRecord>, before: map<string, Node>) {
    forall k :: 0 <= k < |nodes| && k < |recs| && nodes[k].id !in before && FirstWithId(recs, k) ==>
      nodes[k].labelText == recs[k].labelText
  }

  /** The body of `for node in active_nodes` up to the edges: the superclasses of `node` are
      looked up and resolved with `get_node`, and `node.is_top_level` records whether there
      were none. A malformed response ends the build before the flag is written. */
  method ExpandNode(c: Caches, ep: Endpoint, node: Node) returns (r: Result<seq<Node>, Fault>)
    requires c.Valid()
    modifies c`queryCache, c`nodeCache, ep`log, node`isTopLevel
    ensures c.Valid() && Extends(old(c.nodeCache), c.nodeCache)
    ensures var l := Superclasses(old(c.queryCache), ep.respond, |old(ep.log)|, node.id);
      && c.queryCache == l.cache && ep.log == old(ep.log) + l.requests
      && (l.result.Err? ==> r == Err(l.result.error))
      && (l.result.Ok? ==> r.Ok? && Matches(r.value, l.result.value))
    ensures var l := Superclasses(old(c.queryCache), ep.respond, |old(ep.log)|, node.id);
      r.Ok? && l.result.Ok? ==> NewLabels(r.value, l.result.value, old(c.nodeCache))
    ensures r.Err? ==> c.nodeCache == old(c.nodeCache) && node.isTopLevel == old(node.isTopLevel)
    ensures r.Ok? ==> node.isTopLevel == (r.value == [])
    ensures r.Ok? ==> forall k :: 0 <= k < |r.value| ==>
      r.value[k].id in c.nodeCache && c.nodeCache[r.value[k].id] == r.value[k]
    ensures r.Ok? ==> forall k :: 0 <= k < |r.value| && r.value[k].id in old(c.nodeCache) ==>
      r.value[k] == old(c.nodeCache)[r.value[k].id]
    ensures r.Ok? ==> forall k :: 0 <= k < |r.value| && r.value[k].id !in old(c.nodeCache) ==>
      fresh(r.value[k]) && !r.value[k].isTopLevel && r.value[k].Valid()
    ensures forall id :: id in c.nodeCache && id !in old(c.nodeCache) ==>
      fresh(c.nodeCache[id]) && !c.nodeCache[id].isTopLevel && c.nodeCache[id].Valid()
  {
    var raw := GetSuperclasses(c, ep, node.id);
    if raw.Err? {
      return Err(raw.error);
    }
    var sclss := ResolveAll(c, raw.value);
    if sclss == [] {
      node.isTopLevel := true;
    } else {
      node.isTopLevel := false;
    }
    r := Ok(sclss);
  }

  /** Targets of concatenated logs are concatenated. */
  lemma {:induction false} TargetsConcat(a: seq<Step>, b: seq<Step>)
    ensures Targets(a + b) == Targets(a) + Targets(b)
    decreases |b|
  {
    if b == [] {
      assert a + b == a;
    } else {
      var front := b[..|b| - 1];
      TargetsConcat(a, front);
      assert (a + b)[..|a + b| - 1] == a + front;
      assert (a + b)[|a + b| - 1] == b[|b| - 1];
    }
  }

  /** The last expansion of a node in concatenated logs is its last in the second log, if it
      is expanded there. */
  lemma {:induction false} LastSuccsConcat(a: seq<Step>, b: seq<Step>, v: Node)
    ensures LastSuccs(a + b, v) == if LastSuccs(b, v).Some? then LastSuccs(b, v) else LastSuccs(a, v)
    decreases |b|
  {
    if b == [] {
      assert a + b == a;
    } else {
      var front := b[..|b| - 1];
      LastSuccsConcat(a, front, v);
      assert (a + b)[..|a + b| - 1] == a + front;
      assert (a + b)[|a + b| - 1] == b[|b| - 1];
    }
  }

  /** Every node of the frontier after a chained run is the base node or a listed superclass. */
  lemma FrontierListed(base: Node, rounds: seq<seq<Step>>)
    ensures forall v :: v in Frontier(base, rounds, |rounds|) ==> v == base || v in Targets(Flatten(rounds))
  {
    if rounds != [] {
      var front := rounds[..|rounds| - 1];
      TargetsConcat(Flatten(front), rounds[|rounds| - 1]);
    }
  }

  /** One pass of the body of `for node in active_nodes`: `node` is expanded, and on success
      linked in `h` to its resolved superclasses, which are returned for `res_entities`; the
      expansion is the lookup of its node from the query cache and requests before it. */
  method ExpandStep(c: Caches, ep: Endpoint, h: Graph, node: Node)
    returns (r: Result<(Graph, seq<Node>), Fault>)
    requires c.Valid()
    modifies c`queryCache, c`nodeCache, ep`log, node`isTopLevel
    ensures c.Valid() && Extends(old(c.nodeCache), c.nodeCache)
    ensures r.Ok? ==> r.value.0 == Link(h, node, r.value.1) && node.isTopLevel == (r.value.1 == [])
    ensures r.Ok? ==> Registered(r.value.1, c.nodeCache)
    ensures forall id :: id in c.nodeCache && id !in old(c.nodeCache) ==>
      fresh(c.nodeCache[id]) && !c.nodeCache[id].isTopLevel
    ensures r.Ok? ==> Traced(ep.respond, [Step(node, r.value.1)], [Point(old(c.queryCache), old(ep.log)), Point(c.queryCache, ep.log)])
  {
    var x := ExpandNode(c, ep, node);
    if x.Err? {
      return Err(x.error);
    }
    var h' := AddSuperclassEdges(h, node, x.value);
    ghost var states := [Point(old(c.queryCache), old(ep.log)), Point(c.queryCache, ep.log)];
    assert LookedUp(ep.respond, [Step(node, x.value)], states, 0);
    r := Ok((h', x.value));
  }

  /** `for node in active_nodes`: each node of the frontier is expanded and linked to its
      superclasses, which are collected in order into the next frontier `res_entities`. The
      ghost `cur` records the round's expansions, and `states` the query cache and requests
      between their lookups, from those the round started with to those it leaves. */
  method ExpandRound(c: Caches, ep: Endpoint, g: Graph, active: seq<Node>)
    returns (r: Result<(Graph, seq<Node>), Fault>, ghost cur: seq<Step>, ghost states: seq<Point>)
    requires c.Valid()
    modifies c`queryCache, c`nodeCache, ep`log, active
    ensures c.Valid() && Extends(old(c.nodeCache), c.nodeCache)
    ensures r.Ok? ==> Sources(cur) == active && r.value.1 == Targets(cur) && r.value.0 == Replay(g, cur)
    ensures r.Ok? ==> Registered(Targets(cur), c.nodeCache)
    ensures forall id :: id in c.nodeCache && id !in old(c.nodeCache) ==> fresh(c.nodeCache[id])
    ensures r.Ok? ==> forall id :: id in c.nodeCache && id !in old(c.nodeCache) && LastSuccs(cur, c.nodeCache[id]).None? ==>
      !c.nodeCache[id].isTopLevel
    ensures r.Ok? ==> forall v {:trigger LastSuccs(cur, v)} :: LastSuccs(cur, v).Some? ==> v.isTopLevel == (LastSuccs(cur, v).value == [])
    ensures r.Ok? ==> && Traced(ep.respond, cur, states) && states[0] == Point(old(c.queryCache), old(ep.log))
                      && states[|cur|] == Point(c.queryCache, ep.log)
  {
    var h := g;
    var res: seq<Node> := [];
    cur := [];
    states := [Point(c.queryCache, ep.log)];
    for j := 0 to |active|
      invariant Sources(cur) == active[..j] && res == Targets(cur) && h == Replay(g, cur)
      invariant c.Valid() && Extends(old(c.nodeCache), c.nodeCache)
      invariant Registered(Targets(cur), c.nodeCache)
      invariant forall id :: id in c.nodeCache && id !in old(c.nodeCache) ==> fresh(c.nodeCache[id])
      invariant forall id :: id in c.nodeCache && id !in old(c.nodeCache) && LastSuccs(cur, c.nodeCache[id]).None? ==>
        !c.nodeCache[id].isTopLevel
      invariant forall k :: 0 <= k < j ==> LastSuccs(cur, active[k]).Some?
      invariant forall k :: 0 <= k < j ==> active[k].isTopLevel == (LastSuccs(cur, active[k]).value == [])
      invariant Traced(ep.respond, cur, states) && states[0] == Point(old(c.queryCache), old(ep.log))
      invariant states[|cur|] == Point(c.queryCache, ep.log)
    {
      var node := active[j];
      label before:
      var x := ExpandStep(c, ep, h, node);
      if x.Err? {
        return Err(x.error), cur, states;
      }
      var sclss := x.value.1;
      h := x.value.0;
      res := res + sclss;
      ghost var step := Step(node, sclss);
      StepFacts(cur, step);
      forall k | 0 <= k < j + 1
        ensures LastSuccs(cur + [step], active[k]).Some?
        ensures active[k].isTopLevel == (LastSuccs(cur + [step], active[k]).value == [])
      {
        if active[k] != node {
          assert active[k].isTopLevel == old@before(active[k].isTopLevel);
        }
      }
      PrefixSnoc(active, j);
      assert (cur + [step])[..|cur|] == cur;
      TracedConcat(ep.respond, cur, states, [step], [states[|cur|], Point(c.queryCache, ep.log)]);
      cur, states := cur + [step], states + [Point(c.queryCache, ep.log)];
    }
    assert active[..|active|] == active;
    forall v {:trigger LastSuccs(cur, v)} | LastSuccs(cur, v).Some?
      ensures v.isTopLevel == (LastSuccs(cur, v).value == [])
    {
      LastSuccsMeaning(cur, v);
      var k :| 0 <= k < |active| && active[k] == v;
    }
    r := Ok((h, res));
  }

  /** What `n` chained rounds from `base_node` build: a graph holding the base node, every node
      reachable from it in at most `n` edges, the edges exactly those the expansions emitted,
      and every node other than the base a listed superclass. When the registry maps each
      listed superclass's id to it (and the base node's id to the base node), no two nodes of
      the graph share an id. */
  lemma RunFacts(base: Node, rounds: seq<seq<Step>>, registry: map<string, Node>)
    requires Chained(base, rounds)
    requires Registered(Targets(Flatten(rounds)), registry)
    ensures var g := Replay(Start(base), Flatten(rounds));
      && Valid(g) && base in g.nodes
      && (forall v :: v in g.nodes ==> Within(g.edges, base, v, |rounds|))
      && (forall e :: e in g.edges <==> Emits(Flatten(rounds), e))
      && (forall v :: v in g.nodes ==> v == base || v in Targets(Flatten(rounds)))
      && (forall v {:trigger v in g.nodes} :: v in g.nodes && v != base ==> v.id in registry && registry[v.id] == v)
    ensures var g := Replay(Start(base), Flatten(rounds));
      base.id in registry && registry[base.id] == base ==>
        forall i, j :: 0 <= i < j < |g.nodes| ==> g.nodes[i].id != g.nodes[j].id
  {
    var log := Flatten(rounds);
    var g := Replay(Start(base), log);
    ReplayValid(Start(base), log);
    ChainedDepth(base, rounds);
    ReplayEdges(Start(base), log);
    ReplayKeepsNodes(Start(base), log);
    ChainedCover(base, rounds);
    if base.id in registry && registry[base.id] == base {
      RegisteredIdsDistinct(g, registry);
    }
  }

  /** The expansion part of one iteration of `for i in range(n)`: the frontier `active` of a
      chained run is expanded into the next round, and its superclasses are registered. A node
      registered during the build (its id is not in `cache0`) that is still unexpanded is not
      marked top-level. */
  method RoundCore(c: Caches, ep: Endpoint, g: Graph, active: seq<Node>, ghost base: Node, ghost rounds: seq<seq<Step>>,
                   ghost log: seq<Step>, ghost cache0: map<string, Node>)
    returns (x: Result<(Graph, seq<Node>), Fault>, ghost cur: seq<Step>, ghost states: seq<Point>)
    requires c.Valid() && Extends(cache0, c.nodeCache)
    requires Chained(base, rounds) && active == Frontier(base, rounds, |rounds|) && log == Flatten(rounds)
    requires g == Replay(Start(base), log)
    requires Registered(Targets(log), c.nodeCache)
    requires forall id :: id in c.nodeCache && id !in cache0 && LastSuccs(log, c.nodeCache[id]).None? ==>
      !c.nodeCache[id].isTopLevel
    modifies c`queryCache, c`nodeCache, ep`log, active
    ensures c.Valid() && Extends(old(c.nodeCache), c.nodeCache)
    ensures forall id :: id in c.nodeCache && id !in old(c.nodeCache) ==> fresh(c.nodeCache[id])
    ensures x.Ok? ==>
      && Chained(base, rounds + [cur]) && x.value.1 == Frontier(base, rounds + [cur], |rounds| + 1)
      && Flatten(rounds + [cur]) == log + cur && x.value.0 == Replay(Start(base), log + cur)
      && Sources(cur) == active
    ensures x.Ok? ==> Registered(Targets(log + cur), c.nodeCache)
    ensures x.Ok? ==> forall id :: id in c.nodeCache && id !in cache0 && LastSuccs(log + cur, c.nodeCache[id]).None? ==>
      !c.nodeCache[id].isTopLevel
    ensures x.Ok? ==> forall v {:trigger LastSuccs(cur, v)} :: LastSuccs(cur, v).Some? ==> v.isTopLevel == (LastSuccs(cur, v).value == [])
    ensures x.Ok? ==> && Traced(ep.respond, cur, states) && states[0] == Point(old(c.queryCache), old(ep.log))
                      && states[|cur|] == Point(c.queryCache, ep.log)
  {
    x, cur, states := ExpandRound(c, ep, g, active);
    if x.Err? {
      return;
    }
    TargetsConcat(log, cur);
    ReplayAppend(Start(base), log, cur);
    ChainedExtend(base, rounds, cur);
    forall id | id in c.nodeCache && id !in cache0 && LastSuccs(log + cur, c.nodeCache[id]).None?
      ensures !c.nodeCache[id].isTopLevel
    {
      var v := c.nodeCache[id];
      LastSuccsConcat(log, cur, v);
      if id in old(c.nodeCache) {
        LastSuccsMeaning(cur, v);
        assert v.isTopLevel == old(v.isTopLevel);
      }
    }
  }

  /** The expansion part of one iteration, with the flags of expanded nodes: every node
      expanded so far carries the flag of its last expansion. */
  method RoundExpanded(c: Caches, ep: Endpoint, g: Graph, active: seq<Node>, ghost base: Node, ghost rounds: seq<seq<Step>>,
                       ghost log: seq<Step>, ghost cache0: map<string, Node>)
    returns (x: Result<(Graph, seq<Node>), Fault>, ghost cur: seq<Step>, ghost states: seq<Point>)
    requires c.Valid() && Extends(cache0, c.nodeCache)
    requires Chained(base, rounds) && active == Frontier(base, rounds, |rounds|) && log == Flatten(rounds)
    requires g == Replay(Start(base), log)
    requires Registered(Targets(log), c.nodeCache)
    requires forall id :: id in c.nodeCache && id !in cache0 && LastSuccs(log, c.nodeCache[id]).None? ==>
      !c.nodeCache[id].isTopLevel
    requires forall v {:trigger LastSuccs(log, v)} :: LastSuccs(log, v).Some? ==> v.isTopLevel == (LastSuccs(log, v).value == [])
    modifies c`queryCache, c`nodeCache, ep`log, active
    ensures c.Valid() && Extends(old(c.nodeCache), c.nodeCache)
    ensures forall id :: id in c.nodeCache && id !in old(c.nodeCache) ==> fresh(c.nodeCache[id])
    ensures x.Ok? ==>
      && Chained(base, rounds + [cur]) && x.value.1 == Frontier(base, rounds + [cur], |rounds| + 1)
      && Flatten(rounds + [cur]) == log + cur && x.value.0 == Replay(Start(base), log + cur)
      && Sources(cur) == active
    ensures x.Ok? ==> Registered(Targets(log + cur), c.nodeCache)
    ensures x.Ok? ==> forall id :: id in c.nodeCache && id !in cache0 && LastSuccs(log + cur, c.nodeCache[id]).None? ==>
      !c.nodeCache[id].isTopLevel
    ensures x.Ok? ==> forall v {:trigger LastSuccs(log + cur, v)} :: LastSuccs(log + cur, v).Some? ==> v.isTopLevel == (LastSuccs(log + cur, v).value == [])
    ensures x.Ok? ==> && Traced(ep.respond, cur, states) && states[0] == Point(old(c.queryCache), old(ep.log))
                      && states[|cur|] == Point(c.queryCache, ep.log)
  {
    x, cur, states := RoundCore(c, ep, g, active, base, rounds, log, cache0);
    if x.Err? {
      return;
    }
    forall v {:trigger LastSuccs(log + cur, v)} | LastSuccs(log + cur, v).Some?
      ensures v.isTopLevel == (LastSuccs(log + cur, v).value == [])
    {
      LastSuccsConcat(log, cur, v);
      if LastSuccs(cur, v).None? {
        LastSuccsMeaning(cur, v);
        LastSuccsMeaning(log, v);
        ExpandedIsListed(base, rounds, v);
        assert v == base || old(c.nodeCache)[v.id] == v;
        assert v.isTopLevel == old(v.isTopLevel);
      }
    }
  }

  /** One iteration of `for i in range(n)`. The top-level flags are tracked against the flags
      `flags0` of the nodes `pool` from before the build: a node carries the flag of its last
      expansion, and a node of `pool` never expanded keeps its flag from `flags0`. */
  method BuildRound(c: Caches, ep: Endpoint, g: Graph, active: seq<Node>, ghost base: Node, ghost rounds: seq<seq<Step>>,
                    ghost log: seq<Step>, ghost pool: set<Node>, ghost flags0: map<Node, bool>, ghost cache0: map<string, Node>)
    returns (x: Result<(Graph, seq<Node>), Fault>, ghost cur: seq<Step>, ghost states: seq<Point>)
    requires c.Valid() && Extends(cache0, c.nodeCache)
    requires Chained(base, rounds) && active == Frontier(base, rounds, |rounds|) && log == Flatten(rounds)
    requires g == Replay(Start(base), log)
    requires forall v :: v in pool ==> v in flags0
    requires Registered(Targets(log), c.nodeCache)
    requires forall id :: id in c.nodeCache && id !in cache0 && LastSuccs(log, c.nodeCache[id]).None? ==>
      !c.nodeCache[id].isTopLevel
    requires forall v {:trigger LastSuccs(log, v)} :: LastSuccs(log, v).Some? ==> v.isTopLevel == (LastSuccs(log, v).value == [])
    requires forall v {:trigger LastSuccs(log, v)} :: v in pool && LastSuccs(log, v).None? ==> v.isTopLevel == flags0[v]
    modifies c`queryCache, c`nodeCache, ep`log, active
    ensures c.Valid() && Extends(cache0, c.nodeCache) && c.wdqCachePath == old(c.wdqCachePath)
    ensures forall id :: id in c.nodeCache && id !in cache0 && id !in old(c.nodeCache) ==> fresh(c.nodeCache[id])
    ensures forall id :: id in c.nodeCache && id !in cache0 && id in old(c.nodeCache) ==> c.nodeCache[id] == old(c.nodeCache)[id]
    ensures x.Ok? ==>
      && Chained(base, rounds + [cur]) && x.value.1 == Frontier(base, rounds + [cur], |rounds| + 1)
      && Flatten(rounds + [cur]) == log + cur && x.value.0 == Replay(Start(base), log + cur)
    ensures x.Ok? ==> Registered(Targets(log + cur), c.nodeCache)
    ensures x.Ok? ==> forall id :: id in c.nodeCache && id !in cache0 && LastSuccs(log + cur, c.nodeCache[id]).None? ==>
      !c.nodeCache[id].isTopLevel
    ensures x.Ok? ==> forall v {:trigger LastSuccs(log + cur, v)} :: LastSuccs(log + cur, v).Some? ==> v.isTopLevel == (LastSuccs(log + cur, v).value == [])
    ensures x.Ok? ==> forall v {:trigger LastSuccs(log + cur, v)} :: v in pool && LastSuccs(log + cur, v).None? ==> v.isTopLevel == flags0[v]
    ensures x.Ok? ==> && Traced(ep.respond, cur, states) && states[0] == Point(old(c.queryCache), old(ep.log))
                      && states[|cur|] == Point(c.queryCache, ep.log)
  {
    x, cur, states := RoundExpanded(c, ep, g, active, base, rounds, log, cache0);
    assert Extends(cache0, c.nodeCache) by {
      forall id | id in cache0
        ensures id in c.nodeCache && c.nodeCache[id] == cache0[id]
      {
        assert old(c.nodeCache)[id] == cache0[id];
      }
    }
    if x.Err? {
      return;
    }
    forall v {:trigger LastSuccs(log + cur, v)} | v in pool && LastSuccs(log + cur, v).None?
      ensures v.isTopLevel == flags0[v]
    {
      LastSuccsConcat(log, cur, v);
      LastSuccsMeaning(cur, v);
      assert v.isTopLevel == old(v.isTopLevel);
    }
  }

  /** The loop `for i in range(n)` of `build_graph`, from the graph holding only the base node.
      `pool` holds the base node and the registered nodes and `flags0` their flags, both from
      before the loop. */
  method RunRounds(c: Caches, ep: Endpoint, base: Node, n: nat, ghost pool: set<Node>, ghost flags0: map<Node, bool>)
    returns (r: Result<Graph, Fault>, ghost rounds: seq<seq<Step>>, ghost log: seq<Step>, ghost states: seq<Point>)
    requires c.Valid() && pool == {base} + c.nodeCache.Values
    requires forall v :: v in pool ==> v in flags0 && flags0[v] == v.isTopLevel
    modifies c, ep, base, c.nodeCache.Values
    ensures c.Valid() && Extends(old(c.nodeCache), c.nodeCache) && c.wdqCachePath == old(c.wdqCachePath)
    ensures forall id :: id in c.nodeCache && id !in old(c.nodeCache) ==> fresh(c.nodeCache[id])
    ensures r.Err? ==> |rounds| < n
    ensures r.Ok? ==>
      && |rounds| == n && Chained(base, rounds) && log == Flatten(rounds)
      && r.value == Replay(Start(base), log) && Registered(Targets(log), c.nodeCache)
    ensures r.Ok? ==> forall id :: id in c.nodeCache && id !in old(c.nodeCache) && LastSuccs(log, c.nodeCache[id]).None? ==>
      !c.nodeCache[id].isTopLevel
    ensures r.Ok? ==> forall v {:trigger LastSuccs(log, v)} :: LastSuccs(log, v).Some? ==>
      v.isTopLevel == (LastSuccs(log, v).value == [])
    ensures r.Ok? ==> forall v {:trigger LastSuccs(log, v)} :: v in pool && LastSuccs(log, v).None? ==>
      v.isTopLevel == flags0[v]
    ensures r.Ok? ==> && Traced(ep.respond, log, states) && states[0] == Point(old(c.queryCache), old(ep.log))
                      && states[|log|] == Point(c.queryCache, ep.log)
  {
    ghost var cache0 := c.nodeCache;
    var g := Empty;
    var active := [base];
    g := AddNode(g, base);
    rounds := [];
    log := [];
    states := [Point(c.queryCache, ep.log)];
    for i := 0 to n
      invariant |rounds| == i && Chained(base, rounds) && active == Frontier(base, rounds, i) && log == Flatten(rounds)
      invariant g == Replay(Start(base), log)
      invariant c.Valid() && Extends(cache0, c.nodeCache) && c.wdqCachePath == old(c.wdqCachePath)
      invariant Registered(Targets(log), c.nodeCache)
      invariant forall id :: id in c.nodeCache && id !in cache0 ==> fresh(c.nodeCache[id])
      invariant forall id :: id in c.nodeCache && id !in cache0 && LastSuccs(log, c.nodeCache[id]).None? ==>
        !c.nodeCache[id].isTopLevel
      invariant forall v {:trigger LastSuccs(log, v)} :: LastSuccs(log, v).Some? ==>
        v.isTopLevel == (LastSuccs(log, v).value == [])
      invariant forall v {:trigger LastSuccs(log, v)} :: v in pool && LastSuccs(log, v).None? ==>
        v.isTopLevel == flags0[v]
      invariant Traced(ep.respond, log, states) && states[0] == Point(old(c.queryCache), old(ep.log))
      invariant states[|log|] == Point(c.queryCache, ep.log)
    {
      FrontierListed(base, rounds);
      forall v | v in active
        ensures v == base || v in old(c.nodeCache.Values) || !old(allocated(v))
      {
        if v != base {
          assert v in Targets(log);
          if v.id in cache0 {
            assert cache0[v.id] in cache0.Values;
          }
        }
      }
      var x, cur, more := BuildRound(c, ep, g, active, base, rounds, log, pool, flags0, cache0);
      if x.Err? {
        return Err(x.error), rounds, log, states;
      }
      TracedConcat(ep.respond, log, states, cur, more);
      rounds := rounds + [cur];
      log := log + cur;
      states := states + more[1..];
      g := x.value.0;
      active := x.value.1;
    }
    r := Ok(g);
  }

  /** `build_graph(base_node, n)`: `n` rounds over the frontier, starting from `[base_node]`
      (`range(n)` is empty for `n <= 0`). The ghost `rounds` records each round's expansions;
      the graph is their replay, and `states` are the query cache and requests between their
      lookups. */
  method BuildGraph(c: Caches, ep: Endpoint, base: Node, n: int)
    returns (r: Result<Graph, Fault>, ghost rounds: seq<seq<Step>>, ghost states: seq<Point>)
    requires c.Valid()
    modifies c, ep, base, c.nodeCache.Values
    ensures c.Valid() && Extends(old(c.nodeCache), c.nodeCache) && c.wdqCachePath == old(c.wdqCachePath)
    ensures r.Ok? ==> |rounds| == (if n < 0 then 0 else n) && Chained(base, rounds) && r.value == Replay(Start(base), Flatten(rounds))
    ensures n <= 0 ==> r == Ok(Graph([base], []))
    ensures r.Ok? ==> Valid(r.value) && base in r.value.nodes
    ensures r.Ok? ==> forall v :: v in r.value.nodes ==> Within(r.value.edges, base, v, |rounds|)
    ensures r.Ok? ==> forall e :: e in r.value.edges <==> Emits(Flatten(rounds), e)
    ensures r.Ok? ==> forall v {:trigger v in r.value.nodes} :: v in r.value.nodes && v != base ==>
      v.id in c.nodeCache && c.nodeCache[v.id] == v
    ensures r.Ok? && base.id in old(c.nodeCache) && old(c.nodeCache)[base.id] == base ==>
      forall i, j :: 0 <= i < j < |r.value.nodes| ==> r.value.nodes[i].id != r.value.nodes[j].id
    ensures r.Ok? ==> forall v {:trigger LastSuccs(Flatten(rounds), v)} :: LastSuccs(Flatten(rounds), v).Some? ==>
      v.isTopLevel == (LastSuccs(Flatten(rounds), v).value == [])
    ensures r.Ok? ==> forall v {:trigger LastSuccs(Flatten(rounds), v)} ::
      v in old({base} + c.nodeCache.Values) && LastSuccs(Flatten(rounds), v).None? ==> v.isTopLevel == old(v.isTopLevel)
    ensures r.Ok? ==> forall v {:trigger v in r.value.nodes} :: v in r.value.nodes && v !in old({base} + c.nodeCache.Values) ==>
      fresh(v) && (LastSuccs(Flatten(rounds), v).None? ==> !v.isTopLevel)
    ensures r.Ok? ==> && Traced(ep.respond, Flatten(rounds), states) && states[0] == Point(old(c.queryCache), old(ep.log))
                      && states[|Flatten(rounds)|] == Point(c.queryCache, ep.log)
    ensures r.Ok? ==> forall u {:trigger LastSuccs(Flatten(rounds), u)} :: LastSuccs(Flatten(rounds), u).Some? ==>
      && Successors(r.value, u) == AppendNew([], LastSuccs(Flatten(rounds), u).value)
      && ServedBy(LastSuccs(Flatten(rounds), u).value, c.queryCache, u.id)
  {
    ghost var pool: set<Node> := {base} + c.nodeCache.Values;
    ghost var flags0: map<Node, bool> := map v | v in pool :: v.isTopLevel;
    ghost var cache0 := c.nodeCache;
    ghost var log;
    r, rounds, log, states := RunRounds(c, ep, base, if n < 0 then 0 else n, pool, flags0);
    if r.Err? {
      return;
    }
    RunFacts(base, rounds, c.nodeCache);
    assert forall v {:trigger v in r.value.nodes} :: v in r.value.nodes && v !in pool ==> v.id !in cache0;
    forall u {:trigger LastSuccs(log, u)} | LastSuccs(log, u).Some?
      ensures Successors(r.value, u) == AppendNew([], LastSuccs(log, u).value)
      ensures ServedBy(LastSuccs(log, u).value, c.queryCache, u.id)
    {
      ExpandedSuccessors(ep.respond, base, log, states, c.nodeCache, u);
    }
  }
}
