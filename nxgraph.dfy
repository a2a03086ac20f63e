/**
 * The part of networkx's undirected `Graph` that the modelled code relies on: nodes
 * keyed by id in insertion order, a `symbol` attribute per node, `symbol` and `type`
 * attributes per edge, an optional `name`, and `add_node` / `add_edge`.
 */
module NxGraph {
  /**
   * A node id as Python sees it: the library patterns number their nodes with ints,
   * the custom and molecule graphs with digit strings.
   */
  datatype NodeKey = IntKey(n: int) | StrKey(s: string)

  /** The attributes the modelled code puts on an edge: `symbol` and `type`. */
  datatype EdgeAttr = EdgeAttr(symbol: string, kind: int)

  /**
   * A graph as a value. `order` lists the nodes in insertion order, `symbol` holds the
   * `symbol` attribute of the nodes that have one, and `edges` holds the attributes of
   * each edge under the set of its end points, so that `{u, v}` and `{v, u}` are the same
   * edge and `{u}` is a self-loop. `name` is `G.graph['name']`, empty when unset.
   */
  datatype GraphValue<K> = GraphValue(order: seq<K>, symbol: map<K, string>,
                                      edges: map<set<K>, EdgeAttr>, name: string)
  {
    predicate Valid() {
      (forall i, j :: 0 <= i < j < |order| ==> order[i] != order[j])
      && (forall k :: k in symbol ==> k in order)
      && (forall e :: e in edges ==> 1 <= |e| <= 2 && forall k :: k in e ==> k in order)
    }

    predicate HasNode(k: K) { k in order }

    predicate HasEdge(u: K, v: K) { {u, v} in edges }
  }

  function Empty<K(==)>(): (g: GraphValue<K>)
    ensures g.Valid() && g.order == [] && g.edges == map[]
  {
    GraphValue([], map[], map[], "")
  }

  /** `order` with `k` added at the end unless it is already present. */
  function Insert<K(==)>(order: seq<K>, k: K): (r: seq<K>)
    ensures k in r && (forall x :: x in order ==> x in r) && (forall x :: x in r ==> x == k || x in order)
    ensures (forall i, j :: 0 <= i < j < |order| ==> order[i] != order[j]) ==>
              (forall i, j :: 0 <= i < j < |r| ==> r[i] != r[j])
  {
    if k in order then order else order + [k]
  }

  /** `G.add_node(k, symbol=s)`: a new node goes last; an existing node gets the new symbol. */
  function WithNode<K(==)>(g: GraphValue<K>, k: K, s: string): (r: GraphValue<K>)
    ensures r.HasNode(k) && k in r.symbol && r.symbol[k] == s && r.edges == g.edges
  {
    g.(order := Insert(g.order, k), symbol := g.symbol[k := s])
  }

  /**
   * `G.add_edge(u, v, symbol=s, type=t)`: missing end points are added without a symbol,
   * in the order u, v; the edge's attributes are replaced.
   */
  function WithEdge<K(==)>(g: GraphValue<K>, u: K, v: K, a: EdgeAttr): (r: GraphValue<K>)
    ensures r.HasNode(u) && r.HasNode(v) && r.HasEdge(u, v) && r.edges[{u, v}] == a && r.symbol == g.symbol
  {
    g.(order := Insert(Insert(g.order, u), v), edges := g.edges[{u, v} := a])
  }

  /** `add_node` keeps the graph well formed. */
  lemma WithNodeValid<K>(g: GraphValue<K>, k: K, s: string)
    requires g.Valid()
    ensures WithNode(g, k, s).Valid()
  {
  }

  /** `add_edge` keeps the graph well formed. */
  lemma WithEdgeValid<K>(g: GraphValue<K>, u: K, v: K, a: EdgeAttr)
    requires g.Valid()
    ensures WithEdge(g, u, v, a).Valid()
  {
    if u == v { assert {u, v} == {u}; }
  }

  /** Adding a node keeps every edge, adds exactly that node and sets exactly its symbol. */
  lemma AddNodeEffect<K>(g: GraphValue<K>, k: K, s: string)
    ensures var r := WithNode(g, k, s);
      r.edges == g.edges && r.name == g.name
      && (forall x :: r.HasNode(x) <==> x == k || g.HasNode(x))
      && k in r.symbol && r.symbol[k] == s
      && (forall x :: x != k ==> (x in r.symbol <==> x in g.symbol))
      && (forall x :: x != k && x in g.symbol ==> r.symbol[x] == g.symbol[x])
      && (g.HasNode(k) ==> r.order == g.order)
  {
  }

  /** Re-adding a node overwrites its symbol: only the last `add_node` counts. */
  lemma AddNodeTwice<K>(g: GraphValue<K>, k: K, s1: string, s2: string)
    ensures WithNode(WithNode(g, k, s1), k, s2) == WithNode(g, k, s2)
  {
    var g1 := WithNode(g, k, s1);
    assert Insert(g1.order, k) == g1.order;
    assert g1.symbol[k := s2] == g.symbol[k := s2];
  }

  /** An edge is undirected: `add_edge(u, v)` and `add_edge(v, u)` give the same edges. */
  lemma AddEdgeUndirected<K>(g: GraphValue<K>, u: K, v: K, a: EdgeAttr)
    ensures WithEdge(g, u, v, a).edges == WithEdge(g, v, u, a).edges
    ensures WithEdge(g, u, v, a).HasEdge(v, u)
    ensures forall x :: WithEdge(g, u, v, a).HasNode(x) <==> WithEdge(g, v, u, a).HasNode(x)
  {
    assert {u, v} == {v, u};
  }

  /** Re-adding an edge, in either direction, overwrites its attributes. */
  lemma AddEdgeTwice<K>(g: GraphValue<K>, u: K, v: K, a1: EdgeAttr, a2: EdgeAttr)
    ensures WithEdge(WithEdge(g, u, v, a1), v, u, a2).edges == WithEdge(g, u, v, a2).edges
    ensures WithEdge(WithEdge(g, u, v, a1), v, u, a2).edges[{u, v}] == a2
  {
    var g1 := WithEdge(g, u, v, a1);
    assert {v, u} == {u, v};
    Overwrite(g.edges, {u, v}, a1, a2);
  }

  lemma Overwrite<X, Y>(m: map<X, Y>, x: X, y1: Y, y2: Y)
    ensures m[x := y1][x := y2] == m[x := y2]
  {
  }

  /** A self-loop is an edge whose key holds a single node; it adds that one node. */
  lemma AddSelfLoop<K>(g: GraphValue<K>, u: K, a: EdgeAttr)
    requires !g.HasNode(u)
    ensures WithEdge(g, u, u, a).HasEdge(u, u) && |{u, u}| == 1
    ensures WithEdge(g, u, u, a).edges[{u, u}] == a
    ensures WithEdge(g, u, u, a).order == g.order + [u]
  {
    assert {u, u} == {u};
  }

  /** A networkx `Graph` object, updated in place by `add_node` and `add_edge`. */
  class Graph<K(==)> {
    var order: seq<K>
    var symbol: map<K, string>
    var edges: map<set<K>, EdgeAttr>
    var name: string

    function Value(): GraphValue<K>
      reads this
    {
      GraphValue(order, symbol, edges, name)
    }

    predicate Valid()
      reads this
    {
      Value().Valid()
    }

    /** `nx.Graph()`. */
    constructor ()
      ensures Valid() && Value() == Empty()
    {
      order, symbol, edges, name := [], map[], map[], "";
    }

    method AddNode(k: K, s: string)
      requires Valid()
      modifies this
      ensures Valid() && Value() == WithNode(old(Value()), k, s)
    {
      WithNodeValid(Value(), k, s);
      var g := WithNode(Value(), k, s);
      order, symbol := g.order, g.symbol;
    }

    method AddEdge(u: K, v: K, a: EdgeAttr)
      requires Valid()
      modifies this
      ensures Valid() && Value() == WithEdge(old(Value()), u, v, a)
    {
      WithEdgeValid(Value(), u, v, a);
      var g := WithEdge(Value(), u, v, a);
      order, edges := g.order, g.edges;
    }

    /** `G.graph['name'] = n`. */
    method SetName(n: string)
      requires Valid()
      modifies this
      ensures Valid() && Value() == old(Value()).(name := n)
    {
      name := n;
    }
  }
}
