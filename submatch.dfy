/**
 * The contract of networkx's `GraphMatcher(target, pattern, node_match, edge_match)`
 * with `edge_match` comparing the `type` attribute: node-induced subgraph isomorphism
 * from a set of target nodes onto all pattern nodes, and a brute-force enumeration of
 * those mappings proved sound and complete.
 */
module SubgraphMatch {
  import opened NxGraph

  /** `node_match` holds on the symbols of target node `a` and pattern node `q`. */
  predicate NodesMatch<TK, PK>(t: GraphValue<TK>, p: GraphValue<PK>, nodeOk: (string, string) -> bool, a: TK, q: PK) {
    a in t.symbol && q in p.symbol && nodeOk(t.symbol[a], p.symbol[q])
  }

  /** The target pair `a, b` is an edge exactly when `q, r` is, with equal `type`. */
  predicate EdgesMatch<TK, PK>(t: GraphValue<TK>, p: GraphValue<PK>, a: TK, b: TK, q: PK, r: PK) {
    ({a, b} in t.edges <==> {q, r} in p.edges)
    && ({a, b} in t.edges && {q, r} in p.edges ==> t.edges[{a, b}].kind == p.edges[{q, r}].kind)
  }

  /**
   * `m`, keyed by target node as networkx reports it, is a node-induced subgraph
   * isomorphism: a bijection from a set of target nodes onto the pattern nodes, on
   * which `node_match` holds pairwise, and under which every two mapped target nodes
   * (the same node twice included, for self-loops) are joined exactly when their
   * images are, by an edge of the same type.
   */
  predicate IsEmbedding<TK, PK>(t: GraphValue<TK>, p: GraphValue<PK>, nodeOk: (string, string) -> bool, m: map<TK, PK>) {
    (forall a :: a in m ==> t.HasNode(a) && p.HasNode(m[a]))
    && (forall a, b :: a in m && b in m && a != b ==> m[a] != m[b])
    && (forall q :: q in p.order ==> exists a :: a in m && m[a] == q)
    && (forall a :: a in m ==> NodesMatch(t, p, nodeOk, a, m[a]))
    && (forall a, b :: a in m && b in m ==> EdgesMatch(t, p, a, b, m[a], m[b]))
  }

  /** Every way to extend `m0` by sending `ps`, in order, to distinct unused nodes of `ts`. */
  function Extensions<TK, PK>(ps: seq<PK>, ts: seq<TK>, m0: map<TK, PK>): seq<map<TK, PK>>
    decreases |ps|, |ts| + 1
  {
    if ps == [] then [m0] else Choices(ps, ts, m0, 0)
  }

  /** The extensions that send `ps[0]` to one of `ts[i..]`. */
  function Choices<TK, PK>(ps: seq<PK>, ts: seq<TK>, m0: map<TK, PK>, i: nat): seq<map<TK, PK>>
    requires ps != [] && i <= |ts|
    decreases |ps|, |ts| - i
  {
    if i == |ts| then []
    else
      (if ts[i] in m0 then [] else Extensions(ps[1..], ts, m0[ts[i] := ps[0]]))
      + Choices(ps, ts, m0, i + 1)
  }

  /** The members of `ms` that are embeddings. */
  function KeepEmbeddings<TK, PK>(t: GraphValue<TK>, p: GraphValue<PK>, nodeOk: (string, string) -> bool,
                                 ms: seq<map<TK, PK>>): (r: seq<map<TK, PK>>)
    ensures forall k :: 0 <= k < |r| ==> r[k] in ms && IsEmbedding(t, p, nodeOk, r[k])
    ensures forall k :: 0 <= k < |ms| && IsEmbedding(t, p, nodeOk, ms[k]) ==> ms[k] in r
  {
    if ms == [] then []
    else
      var rest := KeepEmbeddings(t, p, nodeOk, ms[1..]);
      if IsEmbedding(t, p, nodeOk, ms[0]) then [ms[0]] + rest else rest
  }

  /** `subgraph_isomorphisms_iter()`, in the order of this enumeration. */
  function Embeddings<TK, PK>(t: GraphValue<TK>, p: GraphValue<PK>, nodeOk: (string, string) -> bool): (r: seq<map<TK, PK>>)
    ensures forall k :: 0 <= k < |r| ==> IsEmbedding(t, p, nodeOk, r[k])
  {
    KeepEmbeddings(t, p, nodeOk, Extensions(p.order, t.order, map[]))
  }

  /** `subgraph_is_isomorphic()`. */
  predicate SubgraphIsIsomorphic<TK, PK>(t: GraphValue<TK>, p: GraphValue<PK>, nodeOk: (string, string) -> bool) {
    Embeddings(t, p, nodeOk) != []
  }

  lemma ChoicesContain<TK, PK>(ps: seq<PK>, ts: seq<TK>, m0: map<TK, PK>, j: nat, i: nat, m: map<TK, PK>)
    requires ps != [] && j <= i < |ts| && ts[i] !in m0
    requires m in Extensions(ps[1..], ts, m0[ts[i] := ps[0]])
    ensures m in Choices(ps, ts, m0, j)
    decreases i - j
  {
    if j < i {
      ChoicesContain(ps, ts, m0, j + 1, i, m);
    }
  }

  /**
   * Every injective `m` that agrees with `m0` and sends exactly the nodes it adds,
   * all drawn from `ts`, onto `ps` is produced by `Extensions(ps, ts, m0)`.
   */
  lemma {:induction false} ExtensionsComplete<TK, PK>(ps: seq<PK>, ts: seq<TK>, m0: map<TK, PK>, m: map<TK, PK>)
    requires forall i, j :: 0 <= i < j < |ps| ==> ps[i] != ps[j]
    requires forall a :: a in m0 ==> a in m && m[a] == m0[a]
    requires forall a :: a in m && a !in m0 ==> a in ts && m[a] in ps
    requires forall q :: q in ps ==> exists a :: a in m && a !in m0 && m[a] == q
    requires forall a, b :: a in m && b in m && a != b ==> m[a] != m[b]
    ensures m in Extensions(ps, ts, m0)
    decreases |ps|
  {
    if ps == [] {
      assert m.Keys == m0.Keys;
      assert m == m0;
    } else {
      var q := ps[0];
      assert q in ps;
      var a :| a in m && a !in m0 && m[a] == q;
      var i :| 0 <= i < |ts| && ts[i] == a;
      var m1 := m0[a := q];
      forall x | x in m && x !in m1 ensures x in ts && m[x] in ps[1..] {
        assert m[x] in ps && m[x] != q;
        var k :| 0 <= k < |ps| && ps[k] == m[x];
        assert k != 0;
        assert ps[1..][k - 1] == m[x];
      }
      forall r | r in ps[1..] ensures exists x :: x in m && x !in m1 && m[x] == r {
        var k :| 1 <= k < |ps| && ps[k] == r;
        assert r != q && r in ps;
        var x :| x in m && x !in m0 && m[x] == r;
        assert x != a;
      }
      forall i', j' | 0 <= i' < j' < |ps[1..]| ensures ps[1..][i'] != ps[1..][j'] {
        assert ps[1..][i'] == ps[i' + 1] && ps[1..][j'] == ps[j' + 1];
      }
      ExtensionsComplete(ps[1..], ts, m1, m);
      ChoicesContain(ps, ts, m0, 0, i, m);
    }
  }

  /** The enumeration is complete: every embedding of `p` into `t` appears in it. */
  lemma EmbeddingsComplete<TK, PK>(t: GraphValue<TK>, p: GraphValue<PK>, nodeOk: (string, string) -> bool, m: map<TK, PK>)
    requires p.Valid() && IsEmbedding(t, p, nodeOk, m)
    ensures m in Embeddings(t, p, nodeOk)
  {
    forall a | a in m ensures a in t.order && m[a] in p.order {
    }
    ExtensionsComplete(p.order, t.order, map[], m);
  }

  /** `subgraph_is_isomorphic()` holds exactly when some embedding exists. */
  lemma SubgraphIsIsomorphicIff<TK, PK>(t: GraphValue<TK>, p: GraphValue<PK>, nodeOk: (string, string) -> bool)
    requires p.Valid()
    ensures SubgraphIsIsomorphic(t, p, nodeOk) <==> exists m :: IsEmbedding(t, p, nodeOk, m)
  {
    if exists m :: IsEmbedding(t, p, nodeOk, m) {
      var m :| IsEmbedding(t, p, nodeOk, m);
      EmbeddingsComplete(t, p, nodeOk, m);
    }
    if SubgraphIsIsomorphic(t, p, nodeOk) {
      assert IsEmbedding(t, p, nodeOk, Embeddings(t, p, nodeOk)[0]);
    }
  }
}
