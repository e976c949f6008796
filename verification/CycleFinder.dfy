/** find_cycles: the three-colour depth-first search over an include graph. */
module CycleFinder {
  import opened Common

  type Node = string

  /** Nodes map to the nodes they include; an included name need not be a node. */
  type Graph = map<Node, seq<Node>>

  /** Nodes without a colour have not been reached. Grey is 1 in the source, black 2. */
  datatype Colour = Grey | Black

  predicate Edge(g: Graph, u: Node, v: Node) {
    u in g && v in g[u] && v in g
  }

  predicate Walk(g: Graph, w: seq<Node>) {
    forall i | 0 <= i < |w| - 1 :: Edge(g, w[i], w[i + 1])
  }

  predicate ClosedWalk(g: Graph, w: seq<Node>) {
    |w| >= 2 && w[0] == w[|w| - 1] && Walk(g, w)
  }

  ghost predicate Acyclic(g: Graph) {
    forall w: seq<Node> :: !ClosedWalk(g, w)
  }

  /** A closed walk that visits no node twice before it closes. */
  predicate Cycle(g: Graph, c: seq<Node>) {
    ClosedWalk(g, c) && Distinct(c[..|c| - 1])
  }

  predicate ReachedBefore(finished: seq<Node>, n: nat, v: Node) {
    v in finished[..Bound(n, |finished|)]
  }

  function Bound(n: nat, most: nat): nat { if n < most then n else most }

  /** Some cycle closes with the edge from u to v. */
  ghost predicate ClosedBy(cycles: seq<seq<Node>>, u: Node, v: Node) {
    exists c | c in cycles :: |c| >= 2 && c[|c| - 2] == u && c[|c| - 1] == v
  }

  /** Some edge of the walk closes one of the cycles. */
  ghost predicate Broken(cycles: seq<seq<Node>>, w: seq<Node>) {
    exists i :: 0 <= i < |w| - 1 && ClosedBy(cycles, w[i], w[i + 1])
  }

  /** Every edge out of a finished node closes a cycle, or leads to a node that finished earlier. */
  ghost predicate FinishOrder(g: Graph, finished: seq<Node>, cycles: seq<seq<Node>>) {
    forall i, v | 0 <= i < |finished| && Edge(g, finished[i], v) ::
      ReachedBefore(finished, i, v) || ClosedBy(cycles, finished[i], v)
  }

  class Search {
    const graph: Graph
    var state: map<Node, Colour>
    var stack: seq<Node>
    var cycles: seq<seq<Node>>
    ghost var finished: seq<Node>

    constructor (graph: Graph)
      ensures this.graph == graph && Valid() && state == map[] && stack == [] && cycles == []
    {
      this.graph := graph;
      state, stack, cycles, finished := map[], [], [], [];
    }

    /** The grey nodes are exactly the stack, and the stack is a walk; the black nodes are exactly the
        finished ones; and but for the edges that closed a cycle they finished in topological order. */
    ghost predicate Valid()
      reads this
    {
      && state.Keys <= graph.Keys
      && Distinct(stack) && Walk(graph, stack)
      && (forall n :: n in stack <==> n in state && state[n] == Grey)
      && (forall n :: n in finished <==> n in state && state[n] == Black)
      && FinishOrder(graph, finished, cycles)
      && (forall c | c in cycles :: Cycle(graph, c))
      && (forall i, j | 0 <= i < j < |cycles| :: cycles[i] != cycles[j])
    }

    /** list.index, or None for its ValueError. */
    method IndexOf(node: Node) returns (r: Option<nat>)
      ensures r.None? <==> node !in stack
      ensures r.Some? ==> r.value < |stack| && stack[r.value] == node
    {
      for i := 0 to |stack|
        invariant node !in stack[..i]
      {
        if stack[i] == node { return Some(i); }
      }
      r := None;
    }

    /** A grey successor of the node on top of the stack closes a cycle. The except branch of the
        source is never taken: a grey node is on the stack. */
    method CloseCycle(node: Node, next: Node)
      requires Valid() && stack != [] && stack[|stack| - 1] == node && Edge(graph, node, next)
      requires next in state && state[next] == Grey
      modifies this`cycles
      ensures Valid() && ClosedBy(cycles, node, next) && Adds(old(cycles), cycles)
    {
      var i := IndexOf(next);
      var cycle := [next, node, next];
      if i.Some? {
        cycle := stack[i.value..] + [next];
      } else {
        assert false;
      }
      ClosesAWalk(graph, stack, i.value, next);
      if cycle !in cycles {
        cycles := cycles + [cycle];
      }
      assert cycle in cycles && cycle[|cycle| - 2] == node && cycle[|cycle| - 1] == next;
      FinishOrderLasts(graph, finished, old(cycles), cycles);
    }

    /** The node turns grey and goes on the stack. */
    method Enter(node: Node)
      requires Valid() && node in graph && node !in state
      requires stack != [] ==> Edge(graph, stack[|stack| - 1], node)
      modifies this`state, this`stack
      ensures Valid() && stack == old(stack) + [node] && state == old(state)[node := Grey]
    {
      state := state[node := Grey];
      stack := stack + [node];
    }

    /** The node leaves the stack and turns black. */
    method Leave(node: Node)
      requires Valid() && stack != [] && stack[|stack| - 1] == node
      requires node in graph && AllSettled(graph, state, cycles, node, |graph[node]|)
      modifies this`state, this`stack, this`finished
      ensures Valid() && stack == old(stack)[..|old(stack)| - 1] && state == old(state)[node := Black]
    {
      Finishes(graph, finished, node, cycles);
      stack := stack[..|stack| - 1];
      state := state[node := Black];
      finished := finished + [node];
    }

    method Dfs(node: Node)
      requires Valid() && node in graph && node !in state
      requires stack != [] ==> Edge(graph, stack[|stack| - 1], node)
      modifies this
      ensures Valid() && stack == old(stack) && Adds(old(cycles), cycles)
      ensures Grown(old(state)[node := Black], state)
      decreases Unreached(graph, state)
    {
      hide Valid; hide Grown; hide AllSettled; hide Unreached; hide Adds;
      Enter(node);
      ghost var entered := state;
      EnteringReaches(graph, old(state), node);
      GrownRefl(entered);
      NoneSettled(graph, state, cycles, node);
      AddsTrans(cycles, cycles, cycles);
      var successors, k := graph[node], 0;
      while k < |successors|
        invariant 0 <= k <= |successors|
        invariant Valid() && stack == old(stack) + [node]
        invariant Grown(entered, state) && Adds(old(cycles), cycles)
        invariant AllSettled(graph, state, cycles, node, k)
      {
        var next := successors[k];
        ghost var before, found := state, cycles;
        GrownReaches(graph, entered, state);
        GrownRefl(before);
        AddsTrans(found, found, found);
        if next in graph {
          if next !in state {
            Dfs(next);
            GrownFrom(before, next, state);
          } else if state[next] == Grey {
            CloseCycle(node, next);
          }
        }
        GrownTrans(entered, before, state);
        AddsTrans(old(cycles), found, cycles);
        GrownSettles(graph, before, state, found, cycles, node, k);
        k := k + 1;
      }
      ghost var leaving := state;
      Leave(node);
      GrownLeaves(old(state), node, leaving, state);
    }

    /** Every list in the result is a cycle of the graph, none is listed twice, and every closed walk
        contains an edge that closes a listed cycle. So the result is empty exactly when the graph, on its
        own nodes, is acyclic. */
    method FindCycles() returns (found: seq<seq<Node>>)
      requires Valid() && state == map[] && stack == [] && cycles == []
      modifies this
      ensures forall c | c in found :: Cycle(graph, c)
      ensures forall i, j | 0 <= i < j < |found| :: found[i] != found[j]
      ensures forall w | ClosedWalk(graph, w) :: Broken(found, w)
      ensures found == [] <==> Acyclic(graph)
    {
      var rest := graph.Keys;
      while rest != {}
        invariant Valid() && stack == [] && rest <= graph.Keys
        invariant forall n | n in graph && n !in rest :: n in state
        decreases |rest|
      {
        var node :| node in rest;
        if node !in state {
          Dfs(node);
        }
        rest := rest - {node};
      }
      found := cycles;
      FinishOrderBreaksWalks(graph, finished, cycles);
      if found != [] {
        assert found[0] in found;
      }
    }
  }

  /** Colours once given stay, and nodes reached since are black. */
  ghost predicate Grown(before: map<Node, Colour>, after: map<Node, Colour>) {
    && (forall n | n in before :: n in after && after[n] == before[n])
    && (forall n | n in after && n !in before :: after[n] == Black)
  }

  /** Nothing found is forgotten. */
  predicate Adds(before: seq<seq<Node>>, after: seq<seq<Node>>) {
    before <= after
  }

  lemma AddsTrans(a: seq<seq<Node>>, b: seq<seq<Node>>, c: seq<seq<Node>>)
    ensures Adds(a, a) && (Adds(a, b) && Adds(b, c) ==> Adds(a, c))
    ensures Adds(b, c) && c == [] ==> b == []
  {
  }

  ghost predicate Settled(g: Graph, state: map<Node, Colour>, n: Node) {
    n in g ==> n in state && state[n] == Black
  }

  lemma GrownRefl(a: map<Node, Colour>)
    ensures Grown(a, a)
  {
  }

  lemma GrownTrans(a: map<Node, Colour>, b: map<Node, Colour>, c: map<Node, Colour>)
    requires Grown(a, b) && Grown(b, c)
    ensures Grown(a, c)
  {
  }

  lemma GrownFrom(a: map<Node, Colour>, node: Node, b: map<Node, Colour>)
    requires node !in a && Grown(a[node := Black], b)
    ensures Grown(a, b) && node in b && b[node] == Black
  {
  }

  lemma GrownReaches(g: Graph, a: map<Node, Colour>, b: map<Node, Colour>)
    requires Grown(a, b)
    ensures Unreached(g, b) <= Unreached(g, a)
  {
    SubsetCount(g.Keys - b.Keys, g.Keys - a.Keys);
  }

  lemma GrownLeaves(before: map<Node, Colour>, node: Node, grown: map<Node, Colour>, after: map<Node, Colour>)
    requires Grown(before[node := Grey], grown) && after == grown[node := Black]
    ensures Grown(before[node := Black], after)
  {
  }

  /** The first k successors of the node are settled, or close a cycle with it. */
  ghost predicate AllSettled(g: Graph, state: map<Node, Colour>, cycles: seq<seq<Node>>, node: Node, k: nat)
    requires node in g && k <= |g[node]|
  {
    forall j | 0 <= j < k :: Settled(g, state, g[node][j]) || ClosedBy(cycles, node, g[node][j])
  }

  lemma NoneSettled(g: Graph, state: map<Node, Colour>, cycles: seq<seq<Node>>, node: Node)
    requires node in g
    ensures AllSettled(g, state, cycles, node, 0)
  {
  }

  lemma ClosedByLasts(before: seq<seq<Node>>, after: seq<seq<Node>>, u: Node, v: Node)
    requires Adds(before, after) && ClosedBy(before, u, v)
    ensures ClosedBy(after, u, v)
  {
    var c :| c in before && |c| >= 2 && c[|c| - 2] == u && c[|c| - 1] == v;
    assert c in after;
  }

  lemma FinishOrderLasts(g: Graph, finished: seq<Node>, before: seq<seq<Node>>, after: seq<seq<Node>>)
    requires FinishOrder(g, finished, before) && Adds(before, after)
    ensures FinishOrder(g, finished, after)
  {
    hide Edge; hide ReachedBefore; hide Adds; hide ClosedBy;
    forall i, v | 0 <= i < |finished| && Edge(g, finished[i], v)
      ensures ReachedBefore(finished, i, v) || ClosedBy(after, finished[i], v) {
      if !ReachedBefore(finished, i, v) {
        ClosedByLasts(before, after, finished[i], v);
      }
    }
  }

  lemma GrownSettles(g: Graph, a: map<Node, Colour>, b: map<Node, Colour>, before: seq<seq<Node>>,
                     after: seq<seq<Node>>, node: Node, k: nat)
    requires node in g && k < |g[node]| && Grown(a, b) && Adds(before, after) && AllSettled(g, a, before, node, k)
    requires Settled(g, b, g[node][k]) || ClosedBy(after, node, g[node][k])
    ensures AllSettled(g, b, after, node, k + 1)
  {
    hide Adds; hide ClosedBy;
    forall j | 0 <= j < k ensures Settled(g, b, g[node][j]) || ClosedBy(after, node, g[node][j]) {
      if !Settled(g, a, g[node][j]) {
        ClosedByLasts(before, after, node, g[node][j]);
      }
    }
  }

  lemma ClosesAWalk(g: Graph, stack: seq<Node>, i: nat, next: Node)
    requires i < |stack| && stack[i] == next && Distinct(stack) && Walk(g, stack) && Edge(g, stack[|stack| - 1], next)
    ensures Cycle(g, stack[i..] + [next])
  {
    var c := stack[i..] + [next];
    assert c[..|c| - 1] == stack[i..];
    forall j | 0 <= j < |c| - 1 ensures Edge(g, c[j], c[j + 1]) {
      if j < |c| - 2 {
        assert Edge(g, stack[i + j], stack[i + j + 1]);
      }
    }
  }

  ghost function Unreached(g: Graph, state: map<Node, Colour>): nat {
    |g.Keys - state.Keys|
  }

  lemma EnteringReaches(g: Graph, state: map<Node, Colour>, node: Node)
    requires node in g && node !in state
    ensures Unreached(g, state[node := Grey]) < Unreached(g, state)
  {
    assert g.Keys - state[node := Grey].Keys == g.Keys - state.Keys - {node};
  }

  /** A node whose successors have all finished, or close a cycle with it, may finish next. */
  lemma Finishes(g: Graph, finished: seq<Node>, node: Node, cycles: seq<seq<Node>>)
    requires node in g && FinishOrder(g, finished, cycles)
    requires forall j | 0 <= j < |g[node]| && g[node][j] in g ::
               g[node][j] in finished || ClosedBy(cycles, node, g[node][j])
    ensures FinishOrder(g, finished + [node], cycles)
  {
    hide ClosedBy;
    var all := finished + [node];
    forall i, v | 0 <= i < |all| && Edge(g, all[i], v) ensures ReachedBefore(all, i, v) || ClosedBy(cycles, all[i], v) {
      if i < |finished| {
        assert ReachedBefore(finished, i, v) || ClosedBy(cycles, finished[i], v);
        assert all[..i] == finished[..i];
      } else {
        assert all[..i] == finished;
      }
    }
  }

  lemma {:induction false} WalkGoesBack(g: Graph, finished: seq<Node>, cycles: seq<seq<Node>>, w: seq<Node>, n: nat,
                                        i: nat)
    returns (j: nat)
    requires FinishOrder(g, finished, cycles) && Walk(g, w) && !Broken(cycles, w) && n < |w| && i < |finished|
             && finished[i] == w[0]
    ensures j < |finished| && finished[j] == w[n] && j <= i && (n > 0 ==> j < i)
    decreases n
  {
    hide ClosedBy;
    if n == 0 {
      j := i;
    } else {
      var before := WalkGoesBack(g, finished, cycles, w, n - 1, i);
      assert Edge(g, finished[before], w[n]) && !ClosedBy(cycles, w[n - 1], w[n - 1 + 1]);
      assert ReachedBefore(finished, before, w[n]);
      j :| 0 <= j < before && finished[j] == w[n];
    }
  }

  /** Once all nodes have finished, no closed walk does without the edges that closed a cycle: without
      them each one, repeated, would reach ever earlier positions. */
  lemma FinishOrderBreaksWalks(g: Graph, finished: seq<Node>, cycles: seq<seq<Node>>)
    requires FinishOrder(g, finished, cycles) && forall n | n in g :: n in finished
    ensures forall w | ClosedWalk(g, w) :: Broken(cycles, w)
    ensures cycles == [] ==> Acyclic(g)
  {
    forall w: seq<Node> | ClosedWalk(g, w) ensures Broken(cycles, w) {
      if !Broken(cycles, w) {
        assert Edge(g, w[0], w[1]);
        var k :| 0 <= k < |finished| && finished[k] == w[0];
        NoClosedWalk(g, finished, cycles, w, k);
      }
    }
    if cycles == [] {
      forall w: seq<Node> ensures !Broken(cycles, w) {
      }
    }
  }

  /** No closed walk without such an edge can start at any position of the finishing order. */
  lemma {:induction false} NoClosedWalk(g: Graph, finished: seq<Node>, cycles: seq<seq<Node>>, w: seq<Node>, k: nat)
    requires FinishOrder(g, finished, cycles) && ClosedWalk(g, w) && !Broken(cycles, w) && k < |finished|
             && finished[k] == w[0]
    ensures false
    decreases k
  {
    var j := WalkGoesBack(g, finished, cycles, w, |w| - 1, k);
    NoClosedWalk(g, finished, cycles, w, j);
  }
}
