/**
 * The functional-group pattern graphs. Every `graph_*` constructor starts from a fresh
 * `nx.Graph()`, adds nodes 1..n with a `symbol`, then adds its edges with a `symbol` and
 * a `type`. A `Pattern` lists those calls and `Build` replays them on the networkx model;
 * `BuildShape` says what the replay yields, in terms of the pattern alone.
 */
module PatternGraphs {
  import opened Wrappers
  import opened NxGraph

  /** `G.add_edge(u, v, symbol=symbol, type=kind)`. */
  datatype Bond = Bond(u: int, v: int, symbol: string, kind: int)

  /** `symbols[i]` is the symbol of node `i + 1`; `bonds` are added in sequence order. */
  datatype Pattern = Pattern(symbols: seq<string>, bonds: seq<Bond>)

  function Attr(b: Bond): EdgeAttr { EdgeAttr(b.symbol, b.kind) }

  function Ends(b: Bond): set<NodeKey> { {IntKey(b.u), IntKey(b.v)} }

  /** The node ids 1..n in order. */
  function Ids(n: nat): seq<NodeKey> {
    seq(n, i => IntKey(i + 1))
  }

  /** `G.add_node(i, symbol=symbols[i - 1])` for `i` = 1..n in order, on a fresh graph. */
  function AddNodes(symbols: seq<string>): (r: GraphValue<NodeKey>)
    ensures r.edges == map[] && r.name == ""
    ensures forall k :: k in r.symbol ==> k in r.order
  {
    if symbols == [] then Empty()
    else WithNode(AddNodes(symbols[..|symbols| - 1]), IntKey(|symbols|), symbols[|symbols| - 1])
  }

  /** `G.add_edge(...)` for each bond in order. */
  function AddBonds(g: GraphValue<NodeKey>, bonds: seq<Bond>): (r: GraphValue<NodeKey>)
    ensures r.symbol == g.symbol && r.name == g.name
    decreases |bonds|
  {
    if bonds == [] then g else AddBonds(WithEdge(g, IntKey(bonds[0].u), IntKey(bonds[0].v), Attr(bonds[0])), bonds[1..])
  }

  /** The graph a `graph_*` constructor returns. */
  function Build(p: Pattern): (r: GraphValue<NodeKey>)
    ensures r.name == "" && r.symbol == AddNodes(p.symbols).symbol
  {
    AddBonds(AddNodes(p.symbols), p.bonds)
  }

  /** The attributes of the last bond whose end points are `e`, if there is one. */
  function EdgeOf(bonds: seq<Bond>, e: set<NodeKey>): Option<EdgeAttr> {
    if bonds == [] then None
    else
      var later := EdgeOf(bonds[1..], e);
      if later.Some? then later else if Ends(bonds[0]) == e then Some(Attr(bonds[0])) else None
  }

  /** The end-point sets of all bonds. */
  function EdgeKeys(bonds: seq<Bond>): set<set<NodeKey>> {
    if bonds == [] then {} else {Ends(bonds[0])} + EdgeKeys(bonds[1..])
  }

  /** Every bond joins two distinct existing nodes and has type 1, 2 or 3. */
  predicate WellFormed(p: Pattern) {
    forall b :: b in p.bonds ==> 1 <= b.u <= |p.symbols| && 1 <= b.v <= |p.symbols| && b.u != b.v && 1 <= b.kind <= 3
  }

  /** `s.startswith("XX")`: the matcher treats such a node as a wildcard. */
  predicate IsWildcard(s: string) {
    |s| >= 2 && s[..2] == "XX"
  }

  /** No node of `p` is a wildcard. */
  predicate NoWildcard(p: Pattern) {
    forall s :: s in p.symbols ==> !IsWildcard(s)
  }

  /** Node `i` exists and carries symbol `s`. */
  predicate Atom(g: GraphValue<NodeKey>, i: int, s: string) {
    IntKey(i) in g.symbol && g.symbol[IntKey(i)] == s
  }


  lemma {:induction false} EdgeKeysOf(bonds: seq<Bond>, e: set<NodeKey>)
    ensures EdgeOf(bonds, e).Some? <==> e in EdgeKeys(bonds)
    decreases |bonds|
  {
    if bonds != [] {
      EdgeKeysOf(bonds[1..], e);
    }
  }

  /** The symbol node `k` gets from the `i`-th `add_node` call, if any. */
  function SymbolOf(symbols: seq<string>, k: NodeKey): Option<string> {
    if k.IntKey? && 1 <= k.n <= |symbols| then Some(symbols[k.n - 1]) else None
  }

  /** Adding nodes 1..n gives exactly those nodes, in order. */
  lemma {:induction false} AddNodesOrder(symbols: seq<string>)
    ensures AddNodes(symbols).order == Ids(|symbols|)
    decreases |symbols|
  {
    if symbols != [] {
      var n := |symbols|;
      var g := AddNodes(symbols[..n - 1]);
      AddNodesOrder(symbols[..n - 1]);
      assert IntKey(n) !in Ids(n - 1);
      assert Ids(n - 1) + [IntKey(n)] == Ids(n);
    }
  }

  /** After adding nodes 1..n, node `k` has a symbol exactly when it is one of them, namely its own. */
  lemma {:induction false} AddNodesSymbol(symbols: seq<string>, k: NodeKey)
    ensures var g := AddNodes(symbols);
      (k in g.symbol <==> SymbolOf(symbols, k).Some?) && (k in g.symbol ==> g.symbol[k] == SymbolOf(symbols, k).value)
    decreases |symbols|
  {
    if symbols != [] {
      AddNodesSymbol(symbols[..|symbols| - 1], k);
    }
  }

  /** Adding bonds between existing nodes changes neither the nodes nor their symbols. */
  lemma {:induction false} AddBondsKeep(g: GraphValue<NodeKey>, bonds: seq<Bond>)
    requires forall b :: b in bonds ==> IntKey(b.u) in g.order && IntKey(b.v) in g.order
    ensures var r := AddBonds(g, bonds); r.order == g.order && r.symbol == g.symbol && r.name == g.name
    decreases |bonds|
  {
    if bonds != [] {
      var b := bonds[0];
      assert b in bonds;
      var g1 := WithEdge(g, IntKey(b.u), IntKey(b.v), Attr(b));
      assert g1.order == g.order;
      forall c | c in bonds[1..] ensures IntKey(c.u) in g1.order && IntKey(c.v) in g1.order {
        assert c in bonds;
      }
      AddBondsKeep(g1, bonds[1..]);
    }
  }

  /** Adding bonds adds one edge per pair of end points, carrying the last bond's attributes. */
  lemma {:induction false} AddBondsEdges(g: GraphValue<NodeKey>, bonds: seq<Bond>, e: set<NodeKey>)
    ensures var r := AddBonds(g, bonds);
      (e in r.edges <==> e in g.edges || EdgeOf(bonds, e).Some?)
      && (e in r.edges ==> r.edges[e] == if EdgeOf(bonds, e).Some? then EdgeOf(bonds, e).value else g.edges[e])
    decreases |bonds|
  {
    if bonds != [] {
      var b := bonds[0];
      AddBondsEdges(WithEdge(g, IntKey(b.u), IntKey(b.v), Attr(b)), bonds[1..], e);
    }
  }

  /** Adding the nodes gives a well-formed graph. */
  lemma {:induction false} AddNodesValid(symbols: seq<string>)
    ensures AddNodes(symbols).Valid()
    decreases |symbols|
  {
    if symbols != [] {
      AddNodesValid(symbols[..|symbols| - 1]);
      WithNodeValid(AddNodes(symbols[..|symbols| - 1]), IntKey(|symbols|), symbols[|symbols| - 1]);
    }
  }

  /** Adding the bonds keeps the graph well-formed. */
  lemma {:induction false} AddBondsValid(g: GraphValue<NodeKey>, bonds: seq<Bond>)
    requires g.Valid()
    ensures AddBonds(g, bonds).Valid()
    decreases |bonds|
  {
    if bonds != [] {
      var b := bonds[0];
      WithEdgeValid(g, IntKey(b.u), IntKey(b.v), Attr(b));
      AddBondsValid(WithEdge(g, IntKey(b.u), IntKey(b.v), Attr(b)), bonds[1..]);
    }
  }

  /** Every pattern builds a well-formed graph, so the matcher can take it. */
  lemma BuildValid(p: Pattern)
    ensures Build(p).Valid()
  {
    AddNodesValid(p.symbols);
    AddBondsValid(AddNodes(p.symbols), p.bonds);
  }

  /** Ids 1..n are exactly the ids that get a symbol from `n` symbols. */
  lemma IdsHold(symbols: seq<string>, k: NodeKey)
    ensures k in Ids(|symbols|) <==> SymbolOf(symbols, k).Some?
  {
    if SymbolOf(symbols, k).Some? {
      assert Ids(|symbols|)[k.n - 1] == k;
    }
  }

  /** A well-formed pattern builds a graph whose nodes are exactly 1..n, in order. */
  lemma BuildOrder(p: Pattern)
    requires WellFormed(p)
    ensures Build(p).order == Ids(|p.symbols|) && Build(p).name == ""
  {
    var g0 := AddNodes(p.symbols);
    AddNodesOrder(p.symbols);
    forall b | b in p.bonds ensures IntKey(b.u) in g0.order && IntKey(b.v) in g0.order {
      assert g0.order[b.u - 1] == IntKey(b.u) && g0.order[b.v - 1] == IntKey(b.v);
    }
    AddBondsKeep(g0, p.bonds);
  }

  /**
   * A well-formed pattern builds a graph whose nodes are exactly 1..n in order, node
   * `i` carrying the `i`-th symbol, and no node without a symbol.
   */
  lemma BuildNodes(p: Pattern)
    requires WellFormed(p)
    ensures var g := Build(p);
      g.order == Ids(|p.symbols|) && g.name == ""
      && (forall j :: 0 <= j < |p.symbols| ==> Atom(g, j + 1, p.symbols[j]))
      && (forall k :: k in g.symbol <==> k in g.order)
  {
    var g0 := AddNodes(p.symbols);
    AddNodesOrder(p.symbols);
    forall b | b in p.bonds ensures IntKey(b.u) in g0.order && IntKey(b.v) in g0.order {
      assert g0.order[b.u - 1] == IntKey(b.u) && g0.order[b.v - 1] == IntKey(b.v);
    }
    AddBondsKeep(g0, p.bonds);
    forall j | 0 <= j < |p.symbols| ensures Atom(Build(p), j + 1, p.symbols[j]) {
      AddNodesSymbol(p.symbols, IntKey(j + 1));
    }
    forall k ensures k in Build(p).symbol <==> k in Build(p).order {
      AddNodesSymbol(p.symbols, k);
      IdsHold(p.symbols, k);
    }
  }

  /**
   * A pattern builds one edge per distinct pair of end points among its bonds, carrying
   * the attributes of the last bond added between them.
   */
  lemma BuildEdges(p: Pattern, e: set<NodeKey>)
    ensures var g := Build(p);
      (e in g.edges <==> e in EdgeKeys(p.bonds))
      && (e in g.edges ==> EdgeOf(p.bonds, e).Some? && g.edges[e] == EdgeOf(p.bonds, e).value)
  {
    AddNodesOrder(p.symbols);
    AddBondsEdges(AddNodes(p.symbols), p.bonds, e);
    EdgeKeysOf(p.bonds, e);
  }

  /** The edges of a pattern's graph are exactly the end-point pairs of its bonds. */
  lemma BuildEdgeKeys(p: Pattern)
    ensures Build(p).edges.Keys == EdgeKeys(p.bonds)
  {
    forall e ensures e in Build(p).edges <==> e in EdgeKeys(p.bonds) {
      BuildEdges(p, e);
    }
  }

  /** Node `i` of a pattern's graph carries the pattern's `i`-th symbol, whatever the bonds. */
  lemma BuildAtom(p: Pattern, i: int)
    requires 1 <= i <= |p.symbols|
    ensures Atom(Build(p), i, p.symbols[i - 1])
  {
    AddNodesSymbol(p.symbols, IntKey(i));
  }

  /** Bond `b` joins nodes `i` and `j`, in either direction. */
  predicate Links(b: Bond, i: int, j: int) {
    (b.u == i && b.v == j) || (b.u == j && b.v == i)
  }

  /** The last bond joining `i` and `j`, if there is one. */
  function BondBetween(bonds: seq<Bond>, i: int, j: int): Option<Bond> {
    if bonds == [] then None
    else
      var later := BondBetween(bonds[1..], i, j);
      if later.Some? then later else if Links(bonds[0], i, j) then Some(bonds[0]) else None
  }

  /** Nodes `i` and `j` are joined by an edge. */
  predicate Linked(g: GraphValue<NodeKey>, i: int, j: int) {
    {IntKey(i), IntKey(j)} in g.edges
  }

  /** Nodes `i` and `j` are joined by an edge of type `kind`. */
  predicate Joined(g: GraphValue<NodeKey>, i: int, j: int, kind: int) {
    Linked(g, i, j) && g.edges[{IntKey(i), IntKey(j)}].kind == kind
  }

  lemma EndsLinks(b: Bond, i: int, j: int)
    ensures Ends(b) == {IntKey(i), IntKey(j)} <==> Links(b, i, j)
  {
    if Ends(b) == {IntKey(i), IntKey(j)} {
      assert IntKey(i) in Ends(b) && IntKey(j) in Ends(b);
      assert IntKey(b.u) in {IntKey(i), IntKey(j)} && IntKey(b.v) in {IntKey(i), IntKey(j)};
    }
  }

  lemma {:induction false} EdgeOfBetween(bonds: seq<Bond>, i: int, j: int)
    ensures var b := BondBetween(bonds, i, j);
      EdgeOf(bonds, {IntKey(i), IntKey(j)}) == if b.Some? then Some(Attr(b.value)) else None
    decreases |bonds|
  {
    if bonds != [] {
      EdgeOfBetween(bonds[1..], i, j);
      EndsLinks(bonds[0], i, j);
    }
  }

  lemma {:induction false} BetweenExists(bonds: seq<Bond>, i: int, j: int)
    ensures BondBetween(bonds, i, j).Some? <==> exists b :: b in bonds && Links(b, i, j)
    decreases |bonds|
  {
    if bonds != [] {
      BetweenExists(bonds[1..], i, j);
      if exists b :: b in bonds && Links(b, i, j) {
        var b :| b in bonds && Links(b, i, j);
        if b != bonds[0] {
          assert b in bonds[1..];
        }
      }
    }
  }

  /** When the last bond joins `i` and `j`, it is the one that sets the edge's attributes. */
  lemma {:induction false} BetweenLast(bonds: seq<Bond>, i: int, j: int)
    requires bonds != [] && Links(bonds[|bonds| - 1], i, j)
    ensures BondBetween(bonds, i, j) == Some(bonds[|bonds| - 1])
    decreases |bonds|
  {
    if |bonds| > 1 {
      BetweenLast(bonds[1..], i, j);
    }
  }

  /**
   * Nodes `i` and `j` of a pattern's graph are joined exactly when some bond joins them,
   * and the edge carries the attributes of the last such bond.
   */
  lemma BuildLinked(p: Pattern, i: int, j: int)
    ensures var g := Build(p);
      (Linked(g, i, j) <==> exists b :: b in p.bonds && Links(b, i, j))
      && (Linked(g, i, j) ==> BondBetween(p.bonds, i, j).Some? && g.edges[{IntKey(i), IntKey(j)}] == Attr(BondBetween(p.bonds, i, j).value))
  {
    BuildEdges(p, {IntKey(i), IntKey(j)});
    EdgeKeysOf(p.bonds, {IntKey(i), IntKey(j)});
    EdgeOfBetween(p.bonds, i, j);
    BetweenExists(p.bonds, i, j);
  }

  /** Every edge of a pattern's graph joins the two end points of some bond. */
  lemma BuildEdgeEnds(p: Pattern, e: set<NodeKey>)
    requires e in Build(p).edges
    ensures exists b :: b in p.bonds && e == Ends(b)
  {
    BuildEdges(p, e);
    EdgeKeysFrom(p.bonds, e);
  }

  lemma {:induction false} EdgeKeysFrom(bonds: seq<Bond>, e: set<NodeKey>)
    requires e in EdgeKeys(bonds)
    ensures exists b :: b in bonds && e == Ends(b)
    decreases |bonds|
  {
    if e != Ends(bonds[0]) {
      EdgeKeysFrom(bonds[1..], e);
      var b :| b in bonds[1..] && e == Ends(b);
      assert b in bonds;
    }
  }

  lemma {:induction false} BetweenIn(bonds: seq<Bond>, i: int, j: int)
    requires BondBetween(bonds, i, j).Some?
    ensures BondBetween(bonds, i, j).value in bonds && Links(BondBetween(bonds, i, j).value, i, j)
    decreases |bonds|
  {
    if BondBetween(bonds[1..], i, j).Some? {
      BetweenIn(bonds[1..], i, j);
    }
  }

  /** When every bond of a pattern has type `kind`, so does every edge of its graph. */
  lemma BuildKinds(p: Pattern, kind: int)
    requires forall b :: b in p.bonds ==> b.kind == kind
    ensures forall i, j :: Linked(Build(p), i, j) ==> Joined(Build(p), i, j, kind)
  {
    forall i, j | Linked(Build(p), i, j) ensures Joined(Build(p), i, j, kind) {
      BuildLinked(p, i, j);
      BetweenIn(p.bonds, i, j);
    }
  }

  /** Two bond lists that add the same edges, in the same order, with the same types. */
  predicate SameEnds(ps: seq<Bond>, qs: seq<Bond>) {
    |ps| == |qs| && forall k :: 0 <= k < |ps| ==> ps[k].u == qs[k].u && ps[k].v == qs[k].v && ps[k].kind == qs[k].kind
  }

  lemma {:induction false} BetweenSame(ps: seq<Bond>, qs: seq<Bond>, i: int, j: int)
    requires SameEnds(ps, qs)
    ensures BondBetween(ps, i, j).Some? == BondBetween(qs, i, j).Some?
    ensures BondBetween(ps, i, j).Some? ==> BondBetween(ps, i, j).value.kind == BondBetween(qs, i, j).value.kind
    decreases |ps|
  {
    if ps != [] {
      BetweenSame(ps[1..], qs[1..], i, j);
    }
  }

  /**
   * Patterns whose bonds join the same nodes with the same types give graphs with the
   * same edges and the same edge types, whatever the bond and node symbols.
   */
  lemma SameLinks(p: Pattern, q: Pattern, i: int, j: int)
    requires SameEnds(p.bonds, q.bonds)
    ensures Linked(Build(p), i, j) <==> Linked(Build(q), i, j)
    ensures forall kind :: Joined(Build(p), i, j, kind) <==> Joined(Build(q), i, j, kind)
  {
    BuildLinked(p, i, j);
    BuildLinked(q, i, j);
    BetweenExists(p.bonds, i, j);
    BetweenExists(q.bonds, i, j);
    BetweenSame(p.bonds, q.bonds, i, j);
  }
}
