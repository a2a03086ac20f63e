/**
 * The matching logic shared by both `Network` classes: the compound graph built from
 * the atoms and the flat bond list, the functional-group library as an ordered table of
 * names and pattern variants, the presence check where the first matching variant wins,
 * the count of distinct target-atom sets, the running-count search, and the walk over a
 * request list that reports one entry per group and registers custom graphs.
 */
module FunctionalGroups {
  import opened Wrappers
  import opened NxGraph
  import opened PyText
  import opened PatternGraphs
  import opened SubgraphMatch
  import Compound
  import CustomChemGraph

  type Target = GraphValue<NodeKey>

  /** A `node_match` on the `symbol` attributes of a target node and a pattern node. */
  type NodeTest = (string, string) -> bool

  /** `function_group_list`: group names with their pattern variants, in dict order. */
  type Library = seq<(string, seq<Pattern>)>

  /** pyMolinfo's `node_match`: a symbol starting with `XX` on either side matches anything. */
  predicate NodeMatch(a: string, b: string)
    ensures a == b ==> NodeMatch(a, b)
    ensures !IsWildcard(a) && !IsWildcard(b) && a != b ==> !NodeMatch(a, b)
    ensures IsWildcard(a) || IsWildcard(b) ==> NodeMatch(a, b)
  {
    IsWildcard(a) || IsWildcard(b) || a == b
  }

  /** molinfo's `node_match`: plain symbol equality. */
  predicate SameSymbol(a: string, b: string)
    ensures SameSymbol(a, b) ==> NodeMatch(a, b)
    ensures NodeMatch(a, b) && !IsWildcard(a) && !IsWildcard(b) ==> SameSymbol(a, b)
  {
    a == b
  }

  /** `edge_match`: the `type` attributes agree; the `symbol` attribute is ignored. */
  predicate EdgeMatch(e1: EdgeAttr, e2: EdgeAttr)
    ensures e1 == e2 ==> EdgeMatch(e1, e2)
    ensures e1.kind == e2.kind && e1.symbol != e2.symbol ==> EdgeMatch(e1, e2)
    ensures e1.kind != e2.kind ==> !EdgeMatch(e1, e2)
  {
    e1.kind == e2.kind
  }

  // ---------------------------------------------------------------- compound graph

  /** The stripped symbols of atoms 1..n. */
  function Symbols(elements: seq<string>, n: nat): (r: seq<string>)
    requires n <= |elements|
    ensures |r| == n && forall i :: 0 <= i < n ==> r[i] == Strip(elements[i])
  {
    seq(n, i requires 0 <= i < n => Strip(elements[i]))
  }

  /** The edges `create_graph` adds: one per flat bond, with its `symbol` and `type`. */
  function CompoundBonds(bonds: seq<Compound.FlatBond>): (r: seq<Bond>)
    ensures |r| == |bonds|
    ensures forall i :: 0 <= i < |bonds| ==>
      r[i] == Bond(bonds[i].id1, bonds[i].id2, bonds[i].bondSymbol, bonds[i].bondType)
  {
    seq(|bonds|, i requires 0 <= i < |bonds| => Bond(bonds[i].id1, bonds[i].id2, bonds[i].bondSymbol, bonds[i].bondType))
  }

  /**
   * `create_graph`: nodes 1..n (n = `len(xyzList)`) with the stripped element symbols,
   * then one edge per flat bond. Fewer element symbols than coordinate rows raise.
   */
  function CompoundGraph(elements: seq<string>, n: nat, bonds: seq<Compound.FlatBond>): (r: Result<Target>)
    ensures r.Ok? <==> n <= |elements|
    ensures r.Ok? ==> r.value.Valid()
  {
    if |elements| < n then Err("IndexError: list index out of range")
    else
      BuildValid(Pattern(Symbols(elements, n), CompoundBonds(bonds)));
      Ok(Build(Pattern(Symbols(elements, n), CompoundBonds(bonds))))
  }

  lemma BuildAtomAt(symbols: seq<string>, bonds: seq<Bond>, i: int)
    requires 0 <= i < |symbols|
    ensures Atom(Build(Pattern(symbols, bonds)), i + 1, symbols[i])
  {
    BuildAtom(Pattern(symbols, bonds), i + 1);
  }

  /** Atom `i + 1` of the compound graph carries the stripped symbol of element `i`. */
  lemma CompoundAtom(elements: seq<string>, n: nat, bonds: seq<Compound.FlatBond>, i: int)
    requires n <= |elements| && 0 <= i < n
    ensures Atom(CompoundGraph(elements, n, bonds).value, i + 1, Strip(elements[i]))
  {
    BuildAtomAt(Symbols(elements, n), CompoundBonds(bonds), i);
  }

  /**
   * Atoms `i` and `j` of the compound graph are bonded exactly when some flat bond joins
   * them, and the edge carries the symbol and type of the last such bond.
   */
  lemma CompoundBond(elements: seq<string>, n: nat, bonds: seq<Compound.FlatBond>, i: int, j: int)
    requires n <= |elements|
    ensures var g := CompoundGraph(elements, n, bonds).value;
      (Linked(g, i, j) <==> exists k :: 0 <= k < |bonds| && Links(CompoundBonds(bonds)[k], i, j))
      && (Linked(g, i, j) ==>
            BondBetween(CompoundBonds(bonds), i, j).Some?
            && g.edges[{IntKey(i), IntKey(j)}] == Attr(BondBetween(CompoundBonds(bonds), i, j).value))
  {
    var p := Pattern(Symbols(elements, n), CompoundBonds(bonds));
    BuildLinked(p, i, j);
    if Linked(Build(p), i, j) {
      var b :| b in p.bonds && Links(b, i, j);
      var k :| 0 <= k < |p.bonds| && p.bonds[k] == b;
    }
  }

  /** `create_graph`'s two loops on a fresh networkx graph. */
  method CreateGraph(elements: seq<string>, n: nat, bonds: seq<Compound.FlatBond>) returns (r: Result<Target>)
    ensures r == CompoundGraph(elements, n, bonds)
  {
    var G := new Graph<NodeKey>();
    for i := 0 to n
      invariant i <= |elements| && G.Valid() && G.Value() == AddNodes(Symbols(elements, i))
    {
      if i >= |elements| {
        return Err("IndexError: list index out of range");
      }
      assert Symbols(elements, i + 1)[..i] == Symbols(elements, i);
      G.AddNode(IntKey(i + 1), Strip(elements[i]));
    }
    var edges := CompoundBonds(bonds);
    ghost var g0 := G.Value();
    for j := 0 to |bonds|
      invariant G.Valid() && AddBonds(G.Value(), edges[j..]) == AddBonds(g0, edges)
    {
      assert edges[j..][1..] == edges[j + 1..];
      G.AddEdge(IntKey(bonds[j].id1), IntKey(bonds[j].id2), EdgeAttr(bonds[j].bondSymbol, bonds[j].bondType));
    }
    assert edges[|bonds|..] == [];
    r := Ok(G.Value());
  }

  // ---------------------------------------------------------------- library

  /** `list(function_group_list.keys())`. */
  function Keys(lib: Library): (r: seq<string>)
    ensures |r| == |lib| && forall k :: 0 <= k < |lib| ==> r[k] == lib[k].0
  {
    seq(|lib|, k requires 0 <= k < |lib| => lib[k].0)
  }

  /** The first position from `i` on whose name is `name`. */
  function FindKey(lib: Library, name: string, i: nat): (r: Option<nat>)
    requires i <= |lib|
    ensures r.Some? ==>
      && i <= r.value < |lib| && lib[r.value].0 == name
      && forall j :: i <= j < r.value ==> lib[j].0 != name
    ensures r.None? ==> forall j :: i <= j < |lib| ==> lib[j].0 != name
    decreases |lib| - i
  {
    if i == |lib| then None
    else if lib[i].0 == name then Some(i)
    else FindKey(lib, name, i + 1)
  }

  /** `function_group_list[name]` when `name` is a key. */
  function Lookup(lib: Library, name: string): (r: Option<seq<Pattern>>)
    ensures r.Some? <==> name in Keys(lib)
    ensures r.Some? ==> exists k :: 0 <= k < |lib| && lib[k] == (name, r.value)
  {
    var r := FindKey(lib, name, 0);
    if r.None? then None else Some(lib[r.value].1)
  }

  /** The variants of an entry as graphs. */
  function Graphs(ps: seq<Pattern>): (r: seq<Target>)
    ensures |r| == |ps| && forall k :: 0 <= k < |ps| ==> r[k] == Build(ps[k]) && r[k].Valid()
  {
    forall p: Pattern ensures Build(p).Valid() {
      BuildValid(p);
    }
    seq(|ps|, k requires 0 <= k < |ps| => Build(ps[k]))
  }

  // ---------------------------------------------------------------- presence

  /** Some variant occurs in the target: `subgraph_is_isomorphic()` holds for it. */
  predicate Present(G: Target, vs: seq<Target>, nodeOk: NodeTest) {
    exists k :: 0 <= k < |vs| && SubgraphIsIsomorphic(G, vs[k], nodeOk)
  }

  /** The variant loop of `check_functional_group`: stop at the first variant found. */
  method AnyVariant(G: Target, vs: seq<Target>, nodeOk: NodeTest) returns (found: bool)
    ensures found == Present(G, vs, nodeOk)
  {
    found := false;
    for k := 0 to |vs|
      invariant forall j :: 0 <= j < k ==> !SubgraphIsIsomorphic(G, vs[j], nodeOk)
    {
      if SubgraphIsIsomorphic(G, vs[k], nodeOk) {
        found := true;
        break;
      }
    }
  }

  /** A group is reported present exactly when some variant embeds in the target. */
  lemma PresentIff(G: Target, vs: seq<Target>, nodeOk: NodeTest)
    requires forall k :: 0 <= k < |vs| ==> vs[k].Valid()
    ensures Present(G, vs, nodeOk) <==> exists k, m :: 0 <= k < |vs| && IsEmbedding(G, vs[k], nodeOk, m)
  {
    forall k | 0 <= k < |vs| ensures SubgraphIsIsomorphic(G, vs[k], nodeOk) <==> exists m :: IsEmbedding(G, vs[k], nodeOk, m) {
      SubgraphIsIsomorphicIff(G, vs[k], nodeOk);
    }
  }

  // ---------------------------------------------------------------- counting

  /** The target node sets of the mappings: `tuple(sorted(subgraph.keys()))` up to order. */
  function KeySets(ms: seq<map<NodeKey, NodeKey>>): set<set<NodeKey>> {
    set m | m in ms :: m.Keys
  }

  /** The distinct target node sets covered by some embedding of some variant. */
  function Footprints(G: Target, vs: seq<Target>, nodeOk: NodeTest): (r: set<set<NodeKey>>)
    ensures forall k :: 0 <= k < |vs| ==> KeySets(Embeddings(G, vs[k], nodeOk)) <= r
    decreases |vs|
  {
    if vs == [] then {} else KeySets(Embeddings(G, vs[0], nodeOk)) + Footprints(G, vs[1..], nodeOk)
  }

  lemma KeySetsStep(ms: seq<map<NodeKey, NodeKey>>, e: int)
    requires 0 <= e < |ms|
    ensures KeySets(ms[e..]) == {ms[e].Keys} + KeySets(ms[e + 1..])
  {
    assert ms[e..] == [ms[e]] + ms[e + 1..];
  }

  lemma FootprintsStep(G: Target, vs: seq<Target>, nodeOk: NodeTest, k: int)
    requires 0 <= k < |vs|
    ensures Footprints(G, vs[k..], nodeOk) == KeySets(Embeddings(G, vs[k], nodeOk)) + Footprints(G, vs[k + 1..], nodeOk)
  {
    assert vs[k..][0] == vs[k] && vs[k..][1..] == vs[k + 1..];
  }

  /** The loop over one variant's mappings: a node set is counted the first time it is seen. */
  method CountMappings(ms: seq<map<NodeKey, NodeKey>>, seen0: set<set<NodeKey>>) returns (seen: set<set<NodeKey>>, added: int)
    ensures seen == seen0 + KeySets(ms) && |seen| == |seen0| + added
  {
    seen, added := seen0, 0;
    for e := 0 to |ms|
      invariant seen + KeySets(ms[e..]) == seen0 + KeySets(ms) && |seen| == |seen0| + added
    {
      KeySetsStep(ms, e);
      var canonical := ms[e].Keys;
      if canonical !in seen {
        seen := seen + {canonical};
        added := added + 1;
      }
    }
    assert ms[|ms|..] == [];
  }

  /**
   * The counting loops of `count_functional_group`: every mapping of every variant, with
   * `fg_found_any` set whenever the count grows.
   */
  method CountVariants(G: Target, vs: seq<Target>, nodeOk: NodeTest) returns (found: bool, count: int)
    ensures count == |Footprints(G, vs, nodeOk)| && found == (count > 0)
  {
    var seen: set<set<NodeKey>> := {};
    found, count := false, 0;
    assert vs[0..] == vs;
    for k := 0 to |vs|
      invariant seen + Footprints(G, vs[k..], nodeOk) == Footprints(G, vs, nodeOk)
      invariant count == |seen| && found == (count > 0)
    {
      FootprintsStep(G, vs, nodeOk, k);
      var added;
      seen, added := CountMappings(Embeddings(G, vs[k], nodeOk), seen);
      if added > 0 {
        found := true;
      }
      count := count + added;
    }
    assert vs[|vs|..] == [];
  }

  /** A node set is counted exactly when some variant embeds onto exactly those atoms. */
  lemma {:induction false} FootprintsIff(G: Target, vs: seq<Target>, nodeOk: NodeTest, s: set<NodeKey>)
    requires forall k :: 0 <= k < |vs| ==> vs[k].Valid()
    ensures s in Footprints(G, vs, nodeOk) <==>
      exists k, m :: 0 <= k < |vs| && IsEmbedding(G, vs[k], nodeOk, m) && m.Keys == s
    decreases |vs|
  {
    if vs != [] {
      FootprintsIff(G, vs[1..], nodeOk, s);
      if exists k, m :: 0 <= k < |vs| && IsEmbedding(G, vs[k], nodeOk, m) && m.Keys == s {
        var k, m :| 0 <= k < |vs| && IsEmbedding(G, vs[k], nodeOk, m) && m.Keys == s;
        if k == 0 {
          EmbeddingsComplete(G, vs[0], nodeOk, m);
        } else {
          assert vs[1..][k - 1] == vs[k];
        }
      }
      if s in KeySets(Embeddings(G, vs[0], nodeOk)) {
        var m :| m in Embeddings(G, vs[0], nodeOk) && m.Keys == s;
        assert IsEmbedding(G, vs[0], nodeOk, m);
      }
      if s in Footprints(G, vs[1..], nodeOk) {
        var k, m :| 0 <= k < |vs[1..]| && IsEmbedding(G, vs[1..][k], nodeOk, m) && m.Keys == s;
        assert vs[1..][k] == vs[k + 1];
      }
    }
  }

  /** The count is positive exactly when the presence check reports the group. */
  lemma {:induction false} CountedIffPresent(G: Target, vs: seq<Target>, nodeOk: NodeTest)
    ensures |Footprints(G, vs, nodeOk)| > 0 <==> Present(G, vs, nodeOk)
    decreases |vs|
  {
    if vs != [] {
      CountedIffPresent(G, vs[1..], nodeOk);
      var ms := Embeddings(G, vs[0], nodeOk);
      if ms != [] {
        assert ms[0].Keys in KeySets(ms);
      }
      if Present(G, vs[1..], nodeOk) {
        var k :| 0 <= k < |vs[1..]| && SubgraphIsIsomorphic(G, vs[1..][k], nodeOk);
        assert vs[1..][k] == vs[k + 1];
      }
      if Present(G, vs, nodeOk) && !SubgraphIsIsomorphic(G, vs[0], nodeOk) {
        var k :| 0 <= k < |vs| && SubgraphIsIsomorphic(G, vs[k], nodeOk);
        assert vs[1..][k - 1] == vs[k];
      }
    }
  }
}
