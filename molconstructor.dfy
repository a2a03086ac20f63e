/**
 * `MoleculeConstructor` of `pyMolinfo/docs/molconstructor.py`: compiles a dict of chains
 * (one main chain holding references `A i *{name}` / `{name}* A i`, and side chains
 * carrying gates `A i op *…` / `*… op A i`) into one list of bond tokens.
 *
 * Each step of `construct` is a function on a `State` value; the class keeps the same
 * fields and its methods update them in place, each proved to end in the state the
 * step's function computes.
 */
module MolConstructor {
  import opened Wrappers
  import opened PyText
  import opened PyDict
  import opened ChainText
  import opened SeqFolds

  /** `chain_types`: one star makes a branch, two a ring, three a bridge. */
  datatype ChainType = Branch | Ring | Bridge

  function KindOf(stars: nat): (r: Option<ChainType>)
    ensures r.Some? <==> 1 <= stars <= 3
  {
    if stars == 1 then Some(Branch) else if stars == 2 then Some(Ring) else if stars == 3 then Some(Bridge) else None
  }

  /** An entry of `connection-port`. */
  datatype Port = Port(port: string, bond: string, bondType: string, bondGate: string)

  /** An entry of `chain_info`. */
  datatype ChainInfo = ChainInfo(receiver: seq<string>, bonds: seq<string>, gate: seq<string>, kind: ChainType, ports: Dict<string, Port>)

  function NewInfo(kind: ChainType): ChainInfo {
    ChainInfo([], [], [], kind, EmptyDict())
  }

  /** `s.count('*')`. */
  function StarsIn(s: string): (n: nat)
    ensures n == 0 <==> '*' !in s
  {
    if s == [] then 0
    else
      assert s == s[..|s| - 1] + [s[|s| - 1]];
      StarsIn(s[..|s| - 1]) + (if s[|s| - 1] == '*' then 1 else 0)
  }

  /** `sum(item.count('*') for item in chain)`. */
  function StarCount(chain: seq<string>): nat {
    if chain == [] then 0 else StarCount(chain[..|chain| - 1]) + StarsIn(chain[|chain| - 1])
  }

  /** The fields of a `MoleculeConstructor`. */
  datatype State = State(molecule: Dict<string, seq<string>>, mainChain: string, highestIndex: nat,
                         chainInfo: Dict<string, ChainInfo>, chainAnalysis: Dict<string, ChainType>,
                         constructed: seq<string>)
  {
    /** The main chain is a chain of the molecule, and every recorded gate is free of `*`. */
    predicate Valid() {
      molecule.Valid() && mainChain in molecule.items
      && chainInfo.Valid() && chainAnalysis.Valid()
      && EntriesValid(chainInfo.items)
    }

    function Main(): seq<string>
      requires Valid()
    {
      molecule.items[mainChain]
    }
  }

  predicate InfoValid(info: ChainInfo) {
    info.ports.Valid() && forall g :: g in info.gate ==> '*' !in g
  }

  /** Every `chain_info` entry is well formed. */
  predicate EntriesValid(ci: map<string, ChainInfo>) {
    forall k :: k in ci ==> InfoValid(ci[k])
  }

  // `_analyze_chain_types`.

  /** Every chain among the first `n` other than the main one has 1, 2 or 3 stars. */
  predicate Typed(m: Dict<string, seq<string>>, main: string, n: nat)
    requires m.Valid() && n <= |m.keys|
  {
    forall k :: 0 <= k < n && m.keys[k] != main ==> KindOf(StarCount(m.items[m.keys[k]])).Some?
  }

  /** The `chain_analysis` entries the first `n` chains produce, in order. */
  function Analysis(m: Dict<string, seq<string>>, main: string, n: nat): seq<(string, ChainType)>
    requires m.Valid() && n <= |m.keys| && Typed(m, main, n)
  {
    if n == 0 then []
    else
      var key := m.keys[n - 1];
      Analysis(m, main, n - 1) + if key == main then [] else [(key, KindOf(StarCount(m.items[key])).value)]
  }

  /** The `chain_info` entries for the same chains. */
  function Infos(pairs: seq<(string, ChainType)>): (r: seq<(string, ChainInfo)>)
    ensures |r| == |pairs| && forall i :: 0 <= i < |pairs| ==> r[i] == (pairs[i].0, NewInfo(pairs[i].1))
  {
    seq(|pairs|, i requires 0 <= i < |pairs| => (pairs[i].0, NewInfo(pairs[i].1)))
  }

  /** The step fails at a chain whose star count has no type (a `KeyError`). */
  function AnalyzeStep(st: State): (r: Result<State>)
    requires st.Valid()
    ensures r.Ok? ==> r.value.Valid() && r.value.molecule == st.molecule && r.value.mainChain == st.mainChain
  {
    var n := |st.molecule.keys|;
    if !Typed(st.molecule, st.mainChain, n) then Err("KeyError: chain type")
    else
      var pairs := Analysis(st.molecule, st.mainChain, n);
      var info := PutAll(st.chainInfo, Infos(pairs));
      InfosValid(st.chainInfo, Infos(pairs));
      Ok(st.(chainAnalysis := PutAll(st.chainAnalysis, pairs), chainInfo := info))
  }

  /** The state `AnalyzeStep` reaches, given the two dicts it builds. */
  lemma AnalyzeStepOk(st: State, ca: Dict<string, ChainType>, ci: Dict<string, ChainInfo>)
    requires st.Valid() && Typed(st.molecule, st.mainChain, |st.molecule.keys|)
    requires ca == PutAll(st.chainAnalysis, Analysis(st.molecule, st.mainChain, |st.molecule.keys|))
    requires ci == PutAll(st.chainInfo, Infos(Analysis(st.molecule, st.mainChain, |st.molecule.keys|)))
    ensures AnalyzeStep(st) == Ok(st.(chainAnalysis := ca, chainInfo := ci))
  {
  }

  /** One more chain of the loop: a side chain with a type adds its entries; the main chain adds none. */
  lemma AnalysisSnoc(m: Dict<string, seq<string>>, main: string, ca: Dict<string, ChainType>, ci: Dict<string, ChainInfo>, i: nat)
    requires m.Valid() && ca.Valid() && ci.Valid() && i < |m.keys| && Typed(m, main, i)
    ensures var key := m.keys[i];
      key in m.items
      && (key == main ==> Typed(m, main, i + 1) && Analysis(m, main, i + 1) == Analysis(m, main, i))
      && (key != main && KindOf(StarCount(m.items[key])).None? ==> !Typed(m, main, |m.keys|))
      && (key != main && KindOf(StarCount(m.items[key])).Some? ==>
            var kind := KindOf(StarCount(m.items[key])).value;
            Typed(m, main, i + 1)
            && PutAll(ca, Analysis(m, main, i + 1)) == Put(PutAll(ca, Analysis(m, main, i)), key, kind)
            && PutAll(ci, Infos(Analysis(m, main, i + 1))) == Put(PutAll(ci, Infos(Analysis(m, main, i))), key, NewInfo(kind)))
  {
    var key := m.keys[i];
    TypedSnoc(m, main, i);
    var pairs := Analysis(m, main, i);
    if key != main && KindOf(StarCount(m.items[key])).Some? {
      var kind := KindOf(StarCount(m.items[key])).value;
      PutAllSnoc(ca, pairs, key, kind);
      InfosSnoc(pairs, key, kind);
      PutAllSnoc(ci, Infos(pairs), key, NewInfo(kind));
    }
  }

  lemma TypedSnoc(m: Dict<string, seq<string>>, main: string, i: nat)
    requires m.Valid() && i < |m.keys| && Typed(m, main, i)
    ensures var key := m.keys[i];
      key in m.items
      && (key == main ==> Typed(m, main, i + 1) && Analysis(m, main, i + 1) == Analysis(m, main, i))
      && (key != main && KindOf(StarCount(m.items[key])).None? ==> !Typed(m, main, |m.keys|))
      && (key != main && KindOf(StarCount(m.items[key])).Some? ==>
            Typed(m, main, i + 1) && Analysis(m, main, i + 1) == Analysis(m, main, i) + [(key, KindOf(StarCount(m.items[key])).value)])
  {
    if m.keys[i] == main {
      JoinNone(Analysis(m, main, i));
    }
  }

  lemma InfosSnoc(pairs: seq<(string, ChainType)>, key: string, kind: ChainType)
    ensures Infos(pairs + [(key, kind)]) == Infos(pairs) + [(key, NewInfo(kind))]
  {
  }

  /** After the first `i` chains: all typed so far, and both dicts hold their entries. */
  predicate AnalyzedUpTo(m: Dict<string, seq<string>>, main: string, ca: Dict<string, ChainType>, ci: Dict<string, ChainInfo>,
                         i: nat, cas: Dict<string, ChainType>, cis: Dict<string, ChainInfo>)
    requires m.Valid() && ca.Valid() && ci.Valid()
  {
    i <= |m.keys| && Typed(m, main, i) && cas == PutAll(ca, Analysis(m, main, i)) && cis == PutAll(ci, Infos(Analysis(m, main, i)))
  }

  /** One turn of the loop of `_analyze_chain_types` on a chain with a type, or on the main chain. */
  lemma AnalyzedStep(m: Dict<string, seq<string>>, main: string, ca: Dict<string, ChainType>, ci: Dict<string, ChainInfo>,
                     i: nat, cas: Dict<string, ChainType>, cis: Dict<string, ChainInfo>,
                     cas': Dict<string, ChainType>, cis': Dict<string, ChainInfo>)
    requires m.Valid() && ca.Valid() && ci.Valid() && AnalyzedUpTo(m, main, ca, ci, i, cas, cis) && i < |m.keys|
    requires m.keys[i] == main ==> cas' == cas && cis' == cis
    requires m.keys[i] != main ==>
      (m.keys[i] in m.items && KindOf(StarCount(m.items[m.keys[i]])).Some?
       && cas' == Put(cas, m.keys[i], KindOf(StarCount(m.items[m.keys[i]])).value)
       && cis' == Put(cis, m.keys[i], NewInfo(KindOf(StarCount(m.items[m.keys[i]])).value)))
    ensures AnalyzedUpTo(m, main, ca, ci, i + 1, cas', cis')
  {
    AnalysisSnoc(m, main, ca, ci, i);
  }

  /** The loop of `_analyze_chain_types` stops at a side chain without a type: not all are typed. */
  lemma AnalyzedFails(m: Dict<string, seq<string>>, main: string, i: nat)
    requires m.Valid() && i < |m.keys| && Typed(m, main, i)
    requires m.keys[i] != main && m.keys[i] in m.items && KindOf(StarCount(m.items[m.keys[i]])).None?
    ensures !Typed(m, main, |m.keys|)
  {
  }

  /**
   * The loop of `_analyze_chain_types` on the dicts it reads and writes: it fails exactly
   * when some side chain has no type, and otherwise assigns the entries in key order.
   */
  method AnalyzeChains(m: Dict<string, seq<string>>, main: string, ca: Dict<string, ChainType>, ci: Dict<string, ChainInfo>)
    returns (r: Result<(Dict<string, ChainType>, Dict<string, ChainInfo>)>)
    requires m.Valid() && ca.Valid() && ci.Valid()
    ensures r.Ok? <==> Typed(m, main, |m.keys|)
    ensures r.Ok? ==> r.value == (PutAll(ca, Analysis(m, main, |m.keys|)), PutAll(ci, Infos(Analysis(m, main, |m.keys|))))
  {
    var cas, cis := ca, ci;
    var i: nat := 0;
    while i < |m.keys|
      invariant AnalyzedUpTo(m, main, ca, ci, i, cas, cis)
    {
      var key := m.keys[i];
      ghost var cas0, cis0 := cas, cis;
      assert cas.Valid() && cis.Valid();
      if key != main {
        var kind := KindOf(StarCount(m.items[key]));
        if kind.None? {
          AnalyzedFails(m, main, i);
          return Err("KeyError: chain type");
        }
        cas := Put(cas, key, kind.value);
        cis := Put(cis, key, NewInfo(kind.value));
      }
      AnalyzedStep(m, main, ca, ci, i, cas0, cis0, cas, cis);
      i := i + 1;
    }
    return Ok((cas, cis));
  }

  lemma {:induction false} InfosValid(d: Dict<string, ChainInfo>, pairs: seq<(string, ChainInfo)>)
    requires d.Valid() && forall k :: k in d.items ==> InfoValid(d.items[k])
    requires forall i :: 0 <= i < |pairs| ==> InfoValid(pairs[i].1)
    ensures forall k :: k in PutAll(d, pairs).items ==> InfoValid(PutAll(d, pairs).items[k])
  {
    if pairs != [] {
      InfosValid(d, pairs[..|pairs| - 1]);
    }
  }

  /** The first `n` keys without the main chain's. */
  function Without(keys: seq<string>, main: string): (r: seq<string>)
    ensures forall k :: k in r <==> k in keys && k != main
  {
    if keys == [] then []
    else Without(keys[..|keys| - 1], main) + if keys[|keys| - 1] == main then [] else [keys[|keys| - 1]]
  }

  /** The chains with a typed star count, and their types. */
  function Kinds(m: Dict<string, seq<string>>): map<string, ChainType> {
    map k | k in m.items && KindOf(StarCount(m.items[k])).Some? :: KindOf(StarCount(m.items[k])).value
  }

  /** The keys other than `main`, in order, each paired with its value in `val`. */
  function Tagged<V>(keys: seq<string>, main: string, val: map<string, V>): seq<(string, V)>
    requires forall i :: 0 <= i < |keys| && keys[i] != main ==> keys[i] in val
  {
    if keys == [] then []
    else
      var key := keys[|keys| - 1];
      Tagged(keys[..|keys| - 1], main, val) + if key == main then [] else [(key, val[key])]
  }

  lemma {:induction false} TaggedLast<V>(keys: seq<string>, main: string, val: map<string, V>, key: string)
    requires forall i :: 0 <= i < |keys| && keys[i] != main ==> keys[i] in val
    ensures LastValue(Tagged(keys, main, val), key).Some? <==> key != main && key in keys
    ensures LastValue(Tagged(keys, main, val), key).Some? ==> key in val && LastValue(Tagged(keys, main, val), key).value == val[key]
  {
    if keys != [] {
      var x, init := keys[|keys| - 1], keys[..|keys| - 1];
      var tail := if x == main then [] else [(x, val[x])];
      assert keys == init + [x];
      TaggedLast(init, main, val, key);
      LastValueAppend(Tagged(init, main, val), tail, key);
    }
  }

  lemma {:induction false} AnalysisTagged(m: Dict<string, seq<string>>, main: string, n: nat)
    requires m.Valid() && n <= |m.keys| && Typed(m, main, n)
    ensures forall i :: 0 <= i < |m.keys[..n]| && m.keys[..n][i] != main ==> m.keys[..n][i] in Kinds(m)
    ensures Analysis(m, main, n) == Tagged(m.keys[..n], main, Kinds(m))
  {
    if n > 0 {
      AnalysisTagged(m, main, n - 1);
      assert m.keys[..n][..n - 1] == m.keys[..n - 1];
    }
  }

  lemma AnalysisLast(m: Dict<string, seq<string>>, main: string, n: nat, key: string)
    requires m.Valid() && n <= |m.keys| && Typed(m, main, n)
    ensures LastValue(Analysis(m, main, n), key).Some? <==> key != main && key in m.keys[..n]
    ensures LastValue(Analysis(m, main, n), key).Some? ==>
      key in m.items && LastValue(Analysis(m, main, n), key).value == KindOf(StarCount(m.items[key])).value
  {
    AnalysisTagged(m, main, n);
    TaggedLast(m.keys[..n], main, Kinds(m), key);
  }

  lemma {:induction false} AnalysisKeys(m: Dict<string, seq<string>>, main: string, n: nat)
    requires m.Valid() && n <= |m.keys| && Typed(m, main, n)
    ensures PairKeys(Analysis(m, main, n)) == Without(m.keys[..n], main)
  {
    if n > 0 {
      AnalysisKeys(m, main, n - 1);
      var key := m.keys[n - 1];
      var pre := Analysis(m, main, n - 1);
      WithoutPrefix(m.keys, main, n);
      if key == main {
        assert Analysis(m, main, n) == pre + [];
        assert Analysis(m, main, n) == pre;
      } else {
        var last := [(key, KindOf(StarCount(m.items[key])).value)];
        assert Analysis(m, main, n) == pre + last;
        PairKeysAppend(pre, last);
        assert PairKeys(last) == [key];
      }
    }
  }

  /** `Without` over one more key of a prefix. */
  lemma WithoutPrefix(keys: seq<string>, main: string, n: nat)
    requires 0 < n <= |keys|
    ensures Without(keys[..n], main) == Without(keys[..n - 1], main) + if keys[n - 1] == main then [] else [keys[n - 1]]
  {
    assert keys[..n][..n - 1] == keys[..n - 1];
  }

  lemma {:induction false} InfosLast(pairs: seq<(string, ChainType)>, key: string)
    ensures LastValue(Infos(pairs), key) == if LastValue(pairs, key).Some? then Some(NewInfo(LastValue(pairs, key).value)) else None
  {
    if pairs != [] {
      assert Infos(pairs)[..|pairs| - 1] == Infos(pairs[..|pairs| - 1]);
      InfosLast(pairs[..|pairs| - 1], key);
    }
  }

  /**
   * `_analyze_chain_types` succeeds exactly when every chain other than the main one has
   * 1, 2 or 3 stars.
   */
  lemma AnalyzeTyped(st: State)
    requires st.Valid()
    ensures AnalyzeStep(st).Ok? <==>
      forall k :: k in st.molecule.items && k != st.mainChain ==> 1 <= StarCount(st.molecule.items[k]) <= 3
  {
    var m, n := st.molecule, |st.molecule.keys|;
    if forall k :: k in m.items && k != st.mainChain ==> 1 <= StarCount(m.items[k]) <= 3 {
      assert Typed(m, st.mainChain, n);
    }
    if Typed(m, st.mainChain, n) {
      forall k | k in m.items && k != st.mainChain ensures 1 <= StarCount(m.items[k]) <= 3 {
        var j :| 0 <= j < n && m.keys[j] == k;
      }
    }
  }

  /**
   * After the analysis each chain other than the main one has the type of its star count
   * and a fresh `chain_info` entry of that type.
   */
  lemma AnalyzeEntries(st: State, key: string)
    requires st.Valid() && AnalyzeStep(st).Ok? && key in st.molecule.items && key != st.mainChain
    ensures KindOf(StarCount(st.molecule.items[key])).Some?
    ensures AnalyzeStep(st).value.chainAnalysis.Get(key) == KindOf(StarCount(st.molecule.items[key]))
    ensures AnalyzeStep(st).value.chainInfo.Get(key) == Some(NewInfo(KindOf(StarCount(st.molecule.items[key])).value))
  {
    var m, n := st.molecule, |st.molecule.keys|;
    var pairs := Analysis(m, st.mainChain, n);
    var after := AnalyzeStep(st).value;
    assert after.chainAnalysis == PutAll(st.chainAnalysis, pairs) && after.chainInfo == PutAll(st.chainInfo, Infos(pairs));
    var j :| 0 <= j < |m.keys| && m.keys[j] == key;
    AnalysisLast(m, st.mainChain, n, key);
    InfosLast(pairs, key);
    PutAllGet(st.chainAnalysis, pairs, key);
    PutAllGet(st.chainInfo, Infos(pairs), key);
  }

  /** Every other entry of `chain_analysis` and `chain_info` is kept. */
  lemma AnalyzeKeeps(st: State, key: string)
    requires st.Valid() && AnalyzeStep(st).Ok? && !(key in st.molecule.items && key != st.mainChain)
    ensures AnalyzeStep(st).value.chainAnalysis.Get(key) == st.chainAnalysis.Get(key)
    ensures AnalyzeStep(st).value.chainInfo.Get(key) == st.chainInfo.Get(key)
  {
    var m, n := st.molecule, |st.molecule.keys|;
    var pairs := Analysis(m, st.mainChain, n);
    var after := AnalyzeStep(st).value;
    assert after.chainAnalysis == PutAll(st.chainAnalysis, pairs) && after.chainInfo == PutAll(st.chainInfo, Infos(pairs));
    AnalysisLast(m, st.mainChain, n, key);
    InfosLast(pairs, key);
    PutAllGet(st.chainAnalysis, pairs, key);
    PutAllGet(st.chainInfo, Infos(pairs), key);
  }

  /** Into an empty `chain_analysis`, the chains other than the main one are entered in insertion order. */
  lemma AnalyzeOrder(st: State)
    requires st.Valid() && st.chainAnalysis.keys == [] && AnalyzeStep(st).Ok?
    ensures AnalyzeStep(st).value.chainAnalysis.keys == Without(st.molecule.keys, st.mainChain)
  {
    var m, n := st.molecule, |st.molecule.keys|;
    var pairs := Analysis(m, st.mainChain, n);
    assert m.keys[..n] == m.keys;
    AnalysisKeys(m, st.mainChain, n);
    WithoutDistinct(m.keys, st.mainChain);
    FreshPairs(st.chainAnalysis, pairs, Without(m.keys, st.mainChain));
  }

  lemma FreshPairs<V>(d: Dict<string, V>, pairs: seq<(string, V)>, ks: seq<string>)
    requires d.Valid() && d.keys == []
    requires PairKeys(pairs) == ks
    requires forall i, j :: 0 <= i < j < |ks| ==> ks[i] != ks[j]
    ensures PutAll(d, pairs).keys == ks
  {
    forall i, j | 0 <= i < j < |pairs| ensures pairs[i].0 != pairs[j].0 {
      assert ks[i] == pairs[i].0 && ks[j] == pairs[j].0;
    }
    PutAllFreshKeys(d, pairs);
    assert [] + ks == ks;
  }

  lemma {:induction false} WithoutDistinct(keys: seq<string>, main: string)
    requires forall i, j :: 0 <= i < j < |keys| ==> keys[i] != keys[j]
    ensures forall i, j :: 0 <= i < j < |Without(keys, main)| ==> Without(keys, main)[i] != Without(keys, main)[j]
  {
    if keys != [] {
      var pre, x := keys[..|keys| - 1], keys[|keys| - 1];
      WithoutDistinct(pre, main);
      var w := Without(pre, main);
      assert x !in w by {
        forall i | 0 <= i < |pre| ensures pre[i] != x { assert pre[i] == keys[i]; }
      }
      var r := Without(keys, main);
      assert r == w + if x == main then [] else [x];
      forall i, j | 0 <= i < j < |r| ensures r[i] != r[j] {
        if j < |w| { assert r[i] == w[i] && r[j] == w[j]; } else { assert r[i] == w[i] && w[i] in w && r[j] == x; }
      }
    }
  }

  // `_process_main_chain_connections`.

  /** The chain a reference token names and its main atom `A i`. */
  function RefOf(token: string): Option<(string, string)> {
    match Scan(token)
    case RefAfterTok(a, idx, name) => Some((name, a + idx))
    case RefBeforeTok(name, a, idx) => Some((name, a + idx))
    case _ => None
  }

  /** The reference (chain name, main atom) of each main-chain token. */
  function Refs(main: seq<string>): (r: seq<Option<(string, string)>>)
    ensures |r| == |main| && forall k {:trigger RefOf(main[k])} :: 0 <= k < |main| ==> r[k] == RefOf(main[k])
  {
    seq(|main|, k requires 0 <= k < |main| => RefOf(main[k]))
  }

  /** Every reference among the first `n` names a chain of `ci`. */
  predicate Known(ci: map<string, ChainInfo>, refs: seq<Option<(string, string)>>, n: nat)
    requires n <= |refs|
  {
    forall k :: 0 <= k < n && refs[k].Some? ==> refs[k].value.0 in ci
  }

  /**
   * `chain_info` after the first `n` references appended their main atoms to the receivers
   * of the chains they name; no key is added, so the dict's order is the same.
   */
  function WithReceivers(ci: map<string, ChainInfo>, refs: seq<Option<(string, string)>>, n: nat): (r: map<string, ChainInfo>)
    requires n <= |refs| && Known(ci, refs, n)
    ensures r.Keys == ci.Keys
  {
    if n == 0 then ci
    else
      var d := WithReceivers(ci, refs, n - 1);
      match refs[n - 1]
      case None => d
      case Some((name, atom)) => d[name := d[name].(receiver := d[name].receiver + [atom])]
  }

  /** The main atoms of the first `n` references to `name`, in order. */
  function RefAtoms(refs: seq<Option<(string, string)>>, n: nat, name: string): seq<string>
    requires n <= |refs|
  {
    if n == 0 then []
    else RefAtoms(refs, n - 1, name) + if refs[n - 1].Some? && refs[n - 1].value.0 == name then [refs[n - 1].value.1] else []
  }

  /** The step fails at a reference to a chain `chain_info` does not hold (a `KeyError`). */
  function ConnectStep(st: State): (r: Result<State>)
    requires st.Valid()
    ensures r.Ok? ==> (r.value.Valid() && r.value.molecule == st.molecule && r.value.mainChain == st.mainChain
      && r.value.chainAnalysis == st.chainAnalysis && r.value.chainInfo.keys == st.chainInfo.keys)
  {
    var refs := Refs(st.Main());
    if !Known(st.chainInfo.items, refs, |refs|) then Err("KeyError: chain name")
    else
      ReceiversValid(st.chainInfo.items, refs, |refs|);
      Ok(st.(chainInfo := Dict(st.chainInfo.keys, WithReceivers(st.chainInfo.items, refs, |refs|))))
  }

  /** Only the receivers change. */
  lemma {:induction false} ReceiversOnly(ci: map<string, ChainInfo>, refs: seq<Option<(string, string)>>, n: nat, name: string)
    requires n <= |refs| && Known(ci, refs, n) && name in ci
    ensures WithReceivers(ci, refs, n)[name] == ci[name].(receiver := ci[name].receiver + RefAtoms(refs, n, name))
  {
    if n > 0 {
      ReceiversOnly(ci, refs, n - 1, name);
      if refs[n - 1].Some? && refs[n - 1].value.0 == name {
        var r0 := ci[name].receiver;
        assert r0 + RefAtoms(refs, n - 1, name) + [refs[n - 1].value.1] == r0 + RefAtoms(refs, n, name);
      }
    } else {
      assert ci[name].receiver + [] == ci[name].receiver;
    }
  }

  lemma ReceiversValid(ci: map<string, ChainInfo>, refs: seq<Option<(string, string)>>, n: nat)
    requires n <= |refs| && Known(ci, refs, n)
    requires forall k :: k in ci ==> InfoValid(ci[k])
    ensures forall k :: k in WithReceivers(ci, refs, n) ==> InfoValid(WithReceivers(ci, refs, n)[k])
  {
    forall k | k in WithReceivers(ci, refs, n) ensures InfoValid(WithReceivers(ci, refs, n)[k]) {
      ReceiversOnly(ci, refs, n, k);
    }
  }

  /**
   * Each reference token of the main chain, in either orientation, appends its main atom
   * `A i` to the receivers of the chain it names, in main-chain order; the step fails
   * exactly when some reference names a chain without a `chain_info` entry.
   */
  lemma ConnectReceivers(st: State, name: string)
    requires st.Valid()
    ensures ConnectStep(st).Ok? <==>
      forall k :: 0 <= k < |st.Main()| && RefOf(st.Main()[k]).Some? ==> RefOf(st.Main()[k]).value.0 in st.chainInfo.items
    ensures ConnectStep(st).Ok? && name in st.chainInfo.items ==>
      ConnectStep(st).value.chainInfo.items[name]
        == st.chainInfo.items[name].(receiver := st.chainInfo.items[name].receiver + RefAtoms(Refs(st.Main()), |st.Main()|, name))
  {
    if ConnectStep(st).Ok? && name in st.chainInfo.items {
      ReceiversOnly(st.chainInfo.items, Refs(st.Main()), |st.Main()|, name);
    }
  }

  /** After the first `i` tokens of the main chain: their references are known and attached. */
  predicate ReceivedUpTo(ci0: Dict<string, ChainInfo>, refs: seq<Option<(string, string)>>, i: nat, ci: Dict<string, ChainInfo>) {
    i <= |refs| && Known(ci0.items, refs, i) && ci == Dict(ci0.keys, WithReceivers(ci0.items, refs, i))
  }

  /** One token of the loop whose reference, if any, names a known chain. */
  lemma ReceivedStep(ci0: Dict<string, ChainInfo>, refs: seq<Option<(string, string)>>, i: nat,
                     ci: Dict<string, ChainInfo>, ci': Dict<string, ChainInfo>)
    requires ReceivedUpTo(ci0, refs, i, ci) && i < |refs|
    requires refs[i].None? ==> ci' == ci
    requires refs[i].Some? ==>
      (refs[i].value.0 in ci.items
       && ci' == Dict(ci.keys, ci.items[refs[i].value.0 := ci.items[refs[i].value.0].(receiver :=
            ci.items[refs[i].value.0].receiver + [refs[i].value.1])]))
    ensures ReceivedUpTo(ci0, refs, i + 1, ci')
  {
  }

  /** A reference to a chain without an entry makes the whole main chain fail. */
  lemma ReceivedFails(ci0: Dict<string, ChainInfo>, refs: seq<Option<(string, string)>>, i: nat, ci: Dict<string, ChainInfo>)
    requires ReceivedUpTo(ci0, refs, i, ci) && i < |refs|
    requires refs[i].Some? && refs[i].value.0 !in ci.items
    ensures !Known(ci0.items, refs, |refs|)
  {
  }

  /** One token of the `_process_main_chain_connections` loop: attach its reference, or fail on an unknown chain. */
  method AttachReceiver(main: seq<string>, ci0: Dict<string, ChainInfo>, i: nat, ci: Dict<string, ChainInfo>)
    returns (r: Result<Dict<string, ChainInfo>>)
    requires i < |main| && ReceivedUpTo(ci0, Refs(main), i, ci)
    ensures r.Err? ==> !Known(ci0.items, Refs(main), |main|)
    ensures r.Ok? ==> ReceivedUpTo(ci0, Refs(main), i + 1, r.value)
  {
    ghost var refs := Refs(main);
    match RefOf(main[i]) {
      case None =>
        ReceivedStep(ci0, refs, i, ci, ci);
        return Ok(ci);
      case Some((name, atom)) =>
        if name !in ci.items {
          ReceivedFails(ci0, refs, i, ci);
          return Err("KeyError: chain name");
        }
        var info := ci.items[name];
        var ci' := Dict(ci.keys, ci.items[name := info.(receiver := info.receiver + [atom])]);
        ReceivedStep(ci0, refs, i, ci, ci');
        return Ok(ci');
    }
  }

  /**
   * The loop of `_process_main_chain_connections` on the `chain_info` dict: each reference
   * appends its main atom to its chain's receivers; a reference to an unknown chain fails.
   */
  method AttachReceivers(main: seq<string>, ci0: Dict<string, ChainInfo>) returns (r: Result<Dict<string, ChainInfo>>)
    ensures r.Ok? <==> Known(ci0.items, Refs(main), |main|)
    ensures r.Ok? ==> r.value == Dict(ci0.keys, WithReceivers(ci0.items, Refs(main), |main|))
  {
    var ci := ci0;
    var i := 0;
    while i < |main|
      invariant ReceivedUpTo(ci0, Refs(main), i, ci)
    {
      var next := AttachReceiver(main, ci0, i, ci);
      if next.Err? {
        return next;
      }
      ci, i := next.value, i + 1;
    }
    return Ok(ci);
  }

  // `_update_chain_indices`.

  /** What re-indexing does to one token of a side chain. */
  datatype Shift =
    | ShiftBond(text: string, top: nat)                 // a bond, both indices moved up
    | ShiftGate(text: string, port: Port, top: nat)     // a gate, its stars split off into a port
    | Keep                                              // anything else stays as it is

  function Max(x: nat, y: nat): nat { if x < y then y else x }

  /** The gate `A i op` or `op A i` a gate token leaves after moving its index up by `h`. */
  function ShiftOf(token: string, h: nat): (r: Shift)
    ensures !r.Keep? ==> r.top >= h
    ensures r.ShiftBond? <==> Scan(token).BondTok?
  {
    match Scan(token)
    case BondTok(a, i, op, b, j) => ShiftBond(Text(BondTok(a, i + h, op, b, j + h)), Max(i + h, j + h))
    case GateAfterTok(a, i, op, port) =>
      var g := a + NatToString(i + h) + [op];
      ShiftGate(g, Port(port, a + NatToString(i + h), [op], g), i + h)
    case GateBeforeTok(port, op, a, i) =>
      var g := [op] + a + NatToString(i + h);
      ShiftGate(g, Port(port, a + NatToString(i + h), [op], g), i + h)
    case _ => Keep
  }

  /**
   * A bond comes back as the same bond with both indices moved up by `h`, and its top is
   * the larger of the two; a gate `A i op *…` becomes `A i+h op` and `*… op A i` becomes
   * `op A i+h`, with the stars kept as the port and `i + h` as the top; references and
   * unrecognised tokens are kept.
   */
  lemma ShiftMeaning(token: string, h: nat)
    ensures ShiftOf(token, h).Keep? <==> !(Scan(token).BondTok? || Scan(token).GateAfterTok? || Scan(token).GateBeforeTok?)
    ensures Scan(token).BondTok? ==>
      var t := Scan(token);
      ShiftOf(token, h).ShiftBond? && Scan(ShiftOf(token, h).text) == BondTok(t.a, t.i + h, t.op, t.b, t.j + h)
      && ShiftOf(token, h).top == Max(t.i + h, t.j + h)
    ensures Scan(token).GateAfterTok? ==>
      var t := Scan(token);
      ShiftOf(token, h) == ShiftGate(t.a + NatToString(t.i + h) + [t.op], Port(t.port, t.a + NatToString(t.i + h), [t.op], t.a + NatToString(t.i + h) + [t.op]), t.i + h)
      && Word(t.a) && IsOp(t.op) && Stars(t.port)
    ensures Scan(token).GateBeforeTok? ==>
      var t := Scan(token);
      ShiftOf(token, h) == ShiftGate([t.op] + t.a + NatToString(t.i + h), Port(t.port, t.a + NatToString(t.i + h), [t.op], [t.op] + t.a + NatToString(t.i + h)), t.i + h)
      && Word(t.a) && IsOp(t.op) && Stars(t.port)
  {
    ScanWellFormed(token);
    var t := Scan(token);
    if t.BondTok? {
      ScanBondText(t.a, t.i + h, t.op, t.b, t.j + h);
    }
  }

  /** Every moved index, hence every top, is at least `h`; no gate holds a `*`. */
  lemma ShiftTop(token: string, h: nat)
    ensures !ShiftOf(token, h).Keep? ==> ShiftOf(token, h).top >= h
    ensures ShiftOf(token, h).ShiftGate? ==> '*' !in ShiftOf(token, h).text
  {
    ShiftMeaning(token, h);
    var t := Scan(token);
    if t.GateAfterTok? || t.GateBeforeTok? {
      WordNoStar(t.a);
      NatToStringNoStar(t.i + h);
      assert !IsOp('*');
    }
  }

  function Shifts(chain: seq<string>, h: nat): (r: seq<Shift>)
    ensures |r| == |chain| && forall k :: 0 <= k < |chain| ==> r[k] == ShiftOf(chain[k], h)
  {
    seq(|chain|, k requires 0 <= k < |chain| => ShiftOf(chain[k], h))
  }

  /** The chain with every recognised token replaced by its new text. */
  function Rewritten(chain: seq<string>, sh: seq<Shift>): (r: seq<string>)
    requires |sh| == |chain|
    ensures |r| == |chain| && forall k :: 0 <= k < |chain| ==> r[k] == if sh[k].Keep? then chain[k] else sh[k].text
  {
    seq(|chain|, k requires 0 <= k < |chain| => if sh[k].Keep? then chain[k] else sh[k].text)
  }

  /** The new bond texts, in chain order. */
  function BondsOf(sh: seq<Shift>): seq<string> {
    if sh == [] then [] else BondsOf(sh[..|sh| - 1]) + if sh[|sh| - 1].ShiftBond? then [sh[|sh| - 1].text] else []
  }

  /** The new gate texts, in chain order. */
  function GatesOf(sh: seq<Shift>): seq<string> {
    if sh == [] then [] else GatesOf(sh[..|sh| - 1]) + if sh[|sh| - 1].ShiftGate? then [sh[|sh| - 1].text] else []
  }

  /** The new `connection-port` entries, in chain order. */
  function PortsOf(sh: seq<Shift>): seq<(string, Port)> {
    if sh == [] then [] else PortsOf(sh[..|sh| - 1]) + if sh[|sh| - 1].ShiftGate? then [(sh[|sh| - 1].text, sh[|sh| - 1].port)] else []
  }

  /** `last_index` after the chain: the top of its last recognised token, `h` when none is. */
  function LastTop(sh: seq<Shift>, h: nat): nat {
    if sh == [] then h else if sh[|sh| - 1].Keep? then LastTop(sh[..|sh| - 1], h) else sh[|sh| - 1].top
  }

  /** Gates collected from shifts hold no `*` when every gate shift's text holds none. */
  lemma {:induction false} GatesOfStarFree(sh: seq<Shift>)
    requires forall k :: 0 <= k < |sh| && sh[k].ShiftGate? ==> '*' !in sh[k].text
    ensures forall g :: g in GatesOf(sh) ==> '*' !in g
  {
    if sh != [] {
      GatesOfStarFree(sh[..|sh| - 1]);
    }
  }

  /** The chain's `chain_info` entry with the new bonds, gates and ports added. */
  function Reindexed(info: ChainInfo, sh: seq<Shift>): ChainInfo
    requires info.ports.Valid()
  {
    info.(bonds := info.bonds + BondsOf(sh), gate := info.gate + GatesOf(sh), ports := PutAll(info.ports, PortsOf(sh)))
  }

  /** The entry after one more token of the chain. */
  function AddShift(info: ChainInfo, s: Shift): (r: ChainInfo)
    requires info.ports.Valid()
    ensures r.ports.Valid()
  {
    match s
    case ShiftBond(t, _) => info.(bonds := info.bonds + [t])
    case ShiftGate(t, port, _) => info.(gate := info.gate + [t], ports := Put(info.ports, t, port))
    case Keep => info
  }

  /** Re-indexing one more token adds what that token gives and moves `last_index` to its top. */
  lemma ReindexedSnoc(info: ChainInfo, sh: seq<Shift>, h: nat, i: nat)
    requires info.ports.Valid() && i < |sh|
    ensures Reindexed(info, sh[..i + 1]) == AddShift(Reindexed(info, sh[..i]), sh[i])
    ensures LastTop(sh[..i + 1], h) == if sh[i].Keep? then LastTop(sh[..i], h) else sh[i].top
  {
    ShiftsSnoc(sh, i);
    assert sh[..i + 1][..i] == sh[..i];
    var bs, gs := BondsOf(sh[..i]), GatesOf(sh[..i]);
    match sh[i]
    case ShiftGate(t, port, _) =>
      PutAllSnoc(info.ports, PortsOf(sh[..i]), t, port);
      JoinAssoc(info.gate, gs, [t]);
      JoinNone(bs);
    case ShiftBond(t, _) =>
      JoinAssoc(info.bonds, bs, [t]);
      JoinNone(gs);
      JoinNone(PortsOf(sh[..i]));
    case Keep =>
      JoinNone(bs);
      JoinNone(gs);
      JoinNone(PortsOf(sh[..i]));
  }

  lemma JoinAssoc<T>(a: seq<T>, b: seq<T>, c: seq<T>)
    ensures a + (b + c) == a + b + c
  {
  }

  lemma JoinNone<T>(a: seq<T>)
    ensures a + [] == a
  {
  }

  lemma ShiftsSnoc(sh: seq<Shift>, i: nat)
    requires i < |sh|
    ensures BondsOf(sh[..i + 1]) == BondsOf(sh[..i]) + if sh[i].ShiftBond? then [sh[i].text] else []
    ensures GatesOf(sh[..i + 1]) == GatesOf(sh[..i]) + if sh[i].ShiftGate? then [sh[i].text] else []
    ensures PortsOf(sh[..i + 1]) == PortsOf(sh[..i]) + if sh[i].ShiftGate? then [(sh[i].text, sh[i].port)] else []
  {
    assert sh[..i + 1][..i] == sh[..i];
  }

  /** The fields `_update_chain_indices` changes: the chains, the `chain_info` entries and `highest_index`. */
  datatype Fields = Fields(mol: map<string, seq<string>>, ci: map<string, ChainInfo>, h: nat)

  /**
   * One chain of the loop: the main chain is skipped; in a side chain every recognised token
   * is rewritten, the new bonds and gates are appended to the chain's `chain_info` entry
   * with one port per gate, and `highest_index` becomes `last_index`. A recognised token in
   * a chain without a `chain_info` entry is a `KeyError`.
   */
  function ReindexKey(f: Fields, main: string, key: string): (r: Result<Fields>)
    requires key in f.mol && EntriesValid(f.ci)
    ensures r.Ok? ==> (r.value.mol.Keys == f.mol.Keys && r.value.ci.Keys == f.ci.Keys && EntriesValid(r.value.ci)
      && (main in f.mol ==> r.value.mol[main] == f.mol[main]))
  {
    var sh := Shifts(f.mol[key], f.h);
    if key == main || forall k :: 0 <= k < |sh| ==> sh[k].Keep? then Ok(f)
    else if key !in f.ci then Err("KeyError: chain info")
    else
      ReindexedValid(f.ci[key], f.mol[key], f.h);
      Ok(Fields(f.mol[key := Rewritten(f.mol[key], sh)], f.ci[key := Reindexed(f.ci[key], sh)], LastTop(sh, f.h)))
  }

  /** A re-indexed entry is still well formed: no new gate holds a `*`. */
  lemma ReindexedValid(info: ChainInfo, chain: seq<string>, h: nat)
    requires InfoValid(info)
    ensures InfoValid(Reindexed(info, Shifts(chain, h)))
  {
    var sh := Shifts(chain, h);
    forall k | 0 <= k < |sh| && sh[k].ShiftGate? ensures '*' !in sh[k].text {
      ShiftTop(chain[k], h);
    }
    GatesOfStarFree(sh);
  }

  /**
   * The loop over the first `n` chains, in key order. It cannot fail when every side chain
   * among them has a `chain_info` entry.
   */
  function ReindexFold(keys: seq<string>, main: string, f: Fields, n: nat): (r: Result<Fields>)
    requires n <= |keys| && (forall k :: 0 <= k < |keys| ==> keys[k] in f.mol) && EntriesValid(f.ci)
    ensures r.Ok? ==> (r.value.mol.Keys == f.mol.Keys && r.value.ci.Keys == f.ci.Keys && EntriesValid(r.value.ci)
      && (main in f.mol ==> r.value.mol[main] == f.mol[main]))
    ensures (forall k :: 0 <= k < n && keys[k] != main ==> keys[k] in f.ci) ==> r.Ok?
  {
    if n == 0 then Ok(f)
    else
      match ReindexFold(keys, main, f, n - 1)
      case Err(e) => Err(e)
      case Ok(g) => ReindexKey(g, main, keys[n - 1])
  }

  /** The state with the fields the loop computed. */
  function WithFields(st: State, f: Fields): (r: State)
    requires st.Valid() && f.mol.Keys == st.molecule.items.Keys && f.ci.Keys == st.chainInfo.items.Keys && EntriesValid(f.ci)
    ensures r.Valid() && r.molecule.keys == st.molecule.keys && r.chainInfo.keys == st.chainInfo.keys
  {
    SameKeysValid(st.molecule, f.mol);
    SameKeysValid(st.chainInfo, f.ci);
    State(Dict(st.molecule.keys, f.mol), st.mainChain, f.h, Dict(st.chainInfo.keys, f.ci), st.chainAnalysis, st.constructed)
  }

  /** The fields of a state that `_update_chain_indices` reads and writes. */
  function FieldsOf(st: State): Fields {
    Fields(st.molecule.items, st.chainInfo.items, st.highestIndex)
  }

  /** `_update_chain_indices`: every chain, in key order. */
  function ReindexStep(st: State): (r: Result<State>)
    requires st.Valid()
    ensures r.Ok? ==> (r.value.Valid() && r.value.molecule.keys == st.molecule.keys && r.value.mainChain == st.mainChain
      && r.value.chainAnalysis == st.chainAnalysis && r.value.chainInfo.keys == st.chainInfo.keys
      && r.value.Main() == st.Main() && r.value.constructed == st.constructed)
  {
    match ReindexFold(st.molecule.keys, st.mainChain, FieldsOf(st), |st.molecule.keys|)
    case Err(e) => Err(e)
    case Ok(f) => Ok(WithFields(st, f))
  }

  /** The top of every recognised token is at least `h`, so `last_index` never falls below it. */
  lemma {:induction false} LastTopAtLeast(sh: seq<Shift>, h: nat)
    requires forall k :: 0 <= k < |sh| && !sh[k].Keep? ==> sh[k].top >= h
    ensures LastTop(sh, h) >= h
  {
    if sh != [] {
      LastTopAtLeast(sh[..|sh| - 1], h);
    }
  }

  /** `last_index` is the top of the last recognised token, and `h` when there is none. */
  lemma {:induction false} LastTopIsLast(sh: seq<Shift>, h: nat, k: nat)
    requires k < |sh| && !sh[k].Keep? && forall m :: k < m < |sh| ==> sh[m].Keep?
    ensures LastTop(sh, h) == sh[k].top
  {
    if k < |sh| - 1 {
      assert sh[..|sh| - 1][k] == sh[k];
      LastTopIsLast(sh[..|sh| - 1], h, k);
    }
  }

  lemma {:induction false} LastTopNone(sh: seq<Shift>, h: nat)
    requires forall m :: 0 <= m < |sh| ==> sh[m].Keep?
    ensures LastTop(sh, h) == h
  {
    if sh != [] {
      LastTopNone(sh[..|sh| - 1], h);
    }
  }

  /** A new bond text collected from the `k`-th shift is in `BondsOf`. */
  lemma {:induction false} BondsOfHas(sh: seq<Shift>, k: nat)
    requires k < |sh| && sh[k].ShiftBond?
    ensures sh[k].text in BondsOf(sh)
  {
    if k < |sh| - 1 {
      assert sh[..|sh| - 1][k] == sh[k];
      BondsOfHas(sh[..|sh| - 1], k);
    }
  }

  /** A chain none of whose tokens is recognised adds no bond, gate or port. */
  lemma {:induction false} KeptAll(sh: seq<Shift>)
    requires forall k :: 0 <= k < |sh| ==> sh[k].Keep?
    ensures BondsOf(sh) == [] && GatesOf(sh) == [] && PortsOf(sh) == []
  {
    if sh != [] {
      KeptAll(sh[..|sh| - 1]);
    }
  }

  /** The `k`-th token, a bond, is rewritten with both indices moved up and collected among the bonds. */
  lemma ShiftBondAt(chain: seq<string>, h: nat, k: nat)
    requires k < |chain| && Scan(chain[k]).BondTok?
    ensures var sh := Shifts(chain, h); var t := Scan(chain[k]);
      Scan(Rewritten(chain, sh)[k]) == t.(i := t.i + h, j := t.j + h) && Rewritten(chain, sh)[k] in BondsOf(sh)
  {
    var sh := Shifts(chain, h);
    ShiftMeaning(chain[k], h);
    BondsOfHas(sh, k);
  }

  /** After the first `i` tokens of the chain loop: those tokens rewritten, their entries added, `last_index` moved. */
  ghost predicate TokensUpTo(chain: seq<string>, sh: seq<Shift>, h: nat, info: ChainInfo, i: nat, c: seq<string>, inf: ChainInfo, last: nat)
    requires info.ports.Valid() && |sh| == |chain|
  {
    i <= |chain| && |c| == |chain|
    && (forall k :: 0 <= k < i ==> c[k] == if sh[k].Keep? then chain[k] else sh[k].text)
    && (forall k :: i <= k < |chain| ==> c[k] == chain[k])
    && inf == Reindexed(info, sh[..i]) && last == LastTop(sh[..i], h)
  }

  lemma TokensStep(chain: seq<string>, sh: seq<Shift>, h: nat, info: ChainInfo, i: nat, c: seq<string>, inf: ChainInfo, last: nat)
    requires info.ports.Valid() && |sh| == |chain| && i < |chain|
    requires TokensUpTo(chain, sh, h, info, i, c, inf, last)
    ensures inf.ports.Valid()
    ensures TokensUpTo(chain, sh, h, info, i + 1,
      if sh[i].Keep? then c else c[i := sh[i].text], AddShift(inf, sh[i]), if sh[i].Keep? then last else sh[i].top)
  {
    ReindexedSnoc(info, sh, h, i);
  }

  lemma TokensDone(chain: seq<string>, sh: seq<Shift>, h: nat, info: ChainInfo, c: seq<string>, inf: ChainInfo, last: nat)
    requires info.ports.Valid() && |sh| == |chain|
    requires TokensUpTo(chain, sh, h, info, |chain|, c, inf, last)
    ensures c == Rewritten(chain, sh) && inf == Reindexed(info, sh) && last == LastTop(sh, h)
  {
    assert sh[..|chain|] == sh;
  }

  /**
   * The token loop of `_update_chain_indices` on one side chain with a `chain_info` entry:
   * each recognised token is rewritten in place and its bond, or its gate and port, is
   * added to the entry; `last_index` follows the last recognised token.
   */
  method ReindexTokens(chain: seq<string>, h: nat, info: ChainInfo) returns (c: seq<string>, inf: ChainInfo, last: nat)
    requires info.ports.Valid()
    ensures c == Rewritten(chain, Shifts(chain, h))
    ensures inf == Reindexed(info, Shifts(chain, h))
    ensures last == LastTop(Shifts(chain, h), h)
  {
    ghost var sh := Shifts(chain, h);
    c, inf, last := chain, info, h;
    assert sh[..0] == [];
    var i := 0;
    while i < |chain|
      invariant inf.ports.Valid()
      invariant TokensUpTo(chain, sh, h, info, i, c, inf, last)
    {
      var s := ShiftOf(chain[i], h);
      assert s == sh[i];
      TokensStep(chain, sh, h, info, i, c, inf, last);
      match s {
        case ShiftBond(t, top) =>
          c := c[i := t];
          inf := inf.(bonds := inf.bonds + [t]);
          last := top;
        case ShiftGate(t, port, top) =>
          c := c[i := t];
          inf := inf.(gate := inf.gate + [t], ports := Put(inf.ports, t, port));
          last := top;
        case Keep =>
      }
      i := i + 1;
    }
    TokensDone(chain, sh, h, info, c, inf, last);
  }

  /**
   * Re-indexing one chain never lowers `highest_index` and leaves every other chain and
   * every other `chain_info` entry as it was.
   */
  lemma ReindexKeyRest(f: Fields, main: string, key: string)
    requires key in f.mol && EntriesValid(f.ci) && ReindexKey(f, main, key).Ok?
    ensures var r := ReindexKey(f, main, key).value;
      r.h >= f.h
      && (forall other :: other in f.mol && other != key ==> r.mol[other] == f.mol[other])
      && (forall other :: other in f.ci && other != key ==> r.ci[other] == f.ci[other])
  {
    var sh := Shifts(f.mol[key], f.h);
    if key != main && !(forall k :: 0 <= k < |sh| ==> sh[k].Keep?) {
      forall m | 0 <= m < |sh| && !sh[m].Keep? ensures sh[m].top >= f.h {
        ShiftTop(f.mol[key][m], f.h);
      }
      LastTopAtLeast(sh, f.h);
    }
  }

  /**
   * A side chain with a `chain_info` entry is rewritten token by token, its new bonds,
   * gates and ports are appended to the entry and `highest_index` becomes its `last_index`;
   * a chain with no recognised token is the same rewriting with nothing to add.
   */
  lemma ReindexKeyIs(f: Fields, main: string, key: string, c: seq<string>, inf: ChainInfo, last: nat)
    requires key in f.mol && EntriesValid(f.ci) && key != main && key in f.ci
    requires c == Rewritten(f.mol[key], Shifts(f.mol[key], f.h))
    requires inf == Reindexed(f.ci[key], Shifts(f.mol[key], f.h))
    requires last == LastTop(Shifts(f.mol[key], f.h), f.h)
    ensures ReindexKey(f, main, key) == Ok(Fields(f.mol[key := c], f.ci[key := inf], last))
  {
    var sh := Shifts(f.mol[key], f.h);
    if forall k :: 0 <= k < |sh| ==> sh[k].Keep? {
      KeptAll(sh);
      assert c == f.mol[key];
      LastTopNone(sh, f.h);
      var info := f.ci[key];
      assert info.bonds + [] == info.bonds && info.gate + [] == info.gate;
      assert inf == info;
      assert f.mol[key := c] == f.mol;
      assert f.ci[key := inf] == f.ci;
    }
  }

  /** A side chain without an entry is kept when none of its tokens is recognised, and a `KeyError` otherwise. */
  lemma ReindexKeyNoInfo(f: Fields, main: string, key: string)
    requires key in f.mol && EntriesValid(f.ci) && key != main && key !in f.ci
    ensures ReindexKey(f, main, key).Ok? <==> forall k :: 0 <= k < |f.mol[key]| ==> ShiftOf(f.mol[key][k], f.h).Keep?
    ensures ReindexKey(f, main, key).Ok? ==> ReindexKey(f, main, key).value == f
  {
  }

  /** The loop has gone through the first `n` chains without an error and reached `cur`. */
  ghost predicate FoldAt(keys: seq<string>, main: string, f: Fields, n: nat, cur: Fields) {
    n <= |keys| && (forall k :: 0 <= k < |keys| ==> keys[k] in f.mol) && EntriesValid(f.ci)
    && ReindexFold(keys, main, f, n) == Ok(cur)
  }

  /** One more chain of the loop: its result carries the loop on, or is the loop's error. */
  lemma FoldNext(keys: seq<string>, main: string, f: Fields, n: nat, cur: Fields)
    requires FoldAt(keys, main, f, n, cur) && n < |keys|
    ensures keys[n] in cur.mol && EntriesValid(cur.ci)
    ensures var r := ReindexKey(cur, main, keys[n]);
      (r.Ok? ==> FoldAt(keys, main, f, n + 1, r.value)) && (r.Err? ==> ReindexFold(keys, main, f, |keys|) == r)
  {
    if ReindexKey(cur, main, keys[n]).Err? {
      ReindexFoldStuck(keys, main, f, n + 1, |keys|);
    }
  }

  /** Once a chain fails, the whole loop fails with that chain's error. */
  lemma {:induction false} ReindexFoldStuck(keys: seq<string>, main: string, f: Fields, n: nat, m: nat)
    requires n <= m <= |keys| && (forall k :: 0 <= k < |keys| ==> keys[k] in f.mol) && EntriesValid(f.ci)
    requires ReindexFold(keys, main, f, n).Err?
    ensures ReindexFold(keys, main, f, m) == ReindexFold(keys, main, f, n)
  {
    if n < m {
      ReindexFoldStuck(keys, main, f, n, m - 1);
    }
  }

  /** Over the whole loop `highest_index` never decreases and the main chain is not touched. */
  lemma {:induction false} ReindexFoldRaises(keys: seq<string>, main: string, f: Fields, n: nat)
    requires n <= |keys| && (forall k :: 0 <= k < |keys| ==> keys[k] in f.mol) && EntriesValid(f.ci)
    requires ReindexFold(keys, main, f, n).Ok?
    ensures ReindexFold(keys, main, f, n).value.h >= f.h
  {
    if n > 0 {
      ReindexFoldRaises(keys, main, f, n - 1);
      ReindexKeyRest(ReindexFold(keys, main, f, n - 1).value, main, keys[n - 1]);
    }
  }

  /**
   * One pass of the chain loop of `_update_chain_indices`: the main chain is skipped; a
   * side chain with an entry is rewritten token by token; a side chain without one is a
   * `KeyError` as soon as one of its tokens is recognised.
   */
  method UpdateChain(f: Fields, main: string, key: string) returns (r: Result<Fields>)
    requires key in f.mol && EntriesValid(f.ci)
    ensures r == ReindexKey(f, main, key)
  {
    if key == main {
      return Ok(f);
    }
    if key in f.ci {
      var c, inf, last := ReindexTokens(f.mol[key], f.h, f.ci[key]);
      ReindexKeyIs(f, main, key, c, inf, last);
      return Ok(Fields(f.mol[key := c], f.ci[key := inf], last));
    }
    ReindexKeyNoInfo(f, main, key);
    if forall k :: 0 <= k < |f.mol[key]| ==> ShiftOf(f.mol[key][k], f.h).Keep? {
      return Ok(f);
    }
    return Err("KeyError: chain info");
  }

  /** The chain loop of `_update_chain_indices`: every chain in key order, stopping at the first `KeyError`. */
  method UpdateIndices(keys: seq<string>, main: string, f: Fields) returns (r: Result<Fields>)
    requires (forall k :: 0 <= k < |keys| ==> keys[k] in f.mol) && EntriesValid(f.ci)
    ensures r == ReindexFold(keys, main, f, |keys|)
  {
    var cur := f;
    var n := 0;
    while n < |keys|
      invariant FoldAt(keys, main, f, n, cur)
    {
      FoldNext(keys, main, f, n, cur);
      var next := UpdateChain(cur, main, keys[n]);
      if next.Err? {
        return next;
      }
      cur := next.value;
      n := n + 1;
    }
    return Ok(cur);
  }

  /**
   * After the analysis and the receivers every side chain has a `chain_info` entry, so the
   * re-indexing that follows them in `construct` never fails.
   */
  lemma ReindexAfterConnect(st: State)
    requires st.Valid() && AnalyzeStep(st).Ok? && ConnectStep(AnalyzeStep(st).value).Ok?
    ensures ReindexStep(ConnectStep(AnalyzeStep(st).value).value).Ok?
  {
    var s1 := AnalyzeStep(st).value;
    var s2 := ConnectStep(s1).value;
    forall key | key in s2.molecule.items && key != s2.mainChain ensures key in s2.chainInfo.items {
      AnalyzeEntries(st, key);
      KeyInItems(s2.chainInfo, key);
    }
  }

  // `_process_gate_connections` and `_process_multi_gate_connection`.

  /** The main atom joined to each gate, in order. */
  function Joined(atom: string, gates: seq<string>): (r: seq<string>)
    ensures |r| == |gates| && forall m :: 0 <= m < |gates| ==> r[m] == Connection(atom, gates[m])
  {
    seq(|gates|, m requires 0 <= m < |gates| => Connection(atom, gates[m]))
  }

  /**
   * What one main-chain token turns into: the token put in its place and the tokens
   * appended to the main chain. A reference to a chain with one gate joins the main atom
   * to it; a ring joins it to all of its gates; a bridge to the gate at the position of
   * the main atom among its receivers; anything else stays.
   */
  function Resolution(token: string, ci: map<string, ChainInfo>, ca: map<string, ChainType>): (r: Result<(string, seq<string>)>)
    ensures RefOf(token).None? ==> r == Ok((token, []))
    ensures RefOf(token).Some? && (RefOf(token).value.0 !in ci || RefOf(token).value.0 !in ca) ==> r.Err?
    ensures r.Err? ==>
      RefOf(token).Some?
      && (RefOf(token).value.0 !in ci || RefOf(token).value.0 !in ca || ca[RefOf(token).value.0] == Bridge)
  {
    match RefOf(token)
    case None => Ok((token, []))
    case Some((name, atom)) =>
      if name !in ci then Err("KeyError: chain info")
      else if name !in ca then Err("KeyError: chain analysis")
      else
        var gates := ci[name].gate;
        if |gates| == 1 then Ok((Connection(atom, gates[0]), []))
        else MultiGate(token, atom, ci[name], ca[name])
  }

  /**
   * `_process_multi_gate_connection`: a ring joins the main atom to its first gate in place
   * and to the others at the end; a bridge joins it to the gate at the position of the main
   * atom among its receivers (`ValueError` when it is not one, `IndexError` when there is
   * no such gate); a branch stays as it is.
   */
  function MultiGate(token: string, atom: string, info: ChainInfo, kind: ChainType): (r: Result<(string, seq<string>)>)
    ensures r.Err? ==> kind == Bridge
    ensures kind == Branch ==> r == Ok((token, []))
    ensures kind == Ring && info.gate != [] ==> r.Ok? && |r.value.1| == |info.gate| - 1
    ensures kind == Bridge ==> (r.Ok? <==> IndexOf(info.receiver, atom).Some? && IndexOf(info.receiver, atom).value < |info.gate|)
  {
    var gates := info.gate;
    match kind
    case Branch => Ok((token, []))
    case Ring => if gates == [] then Ok((token, [])) else Ok((Connection(atom, gates[0]), Joined(atom, gates[1..])))
    case Bridge =>
      match IndexOf(info.receiver, atom)
      case None => Err("ValueError: receiver")
      case Some(ri) => if ri < |gates| then Ok((Connection(atom, gates[ri]), [])) else Err("IndexError: gate")
  }

  /** The state with a new main chain, everything else as it was. */
  function WithMain(st: State, main: seq<string>): (r: State)
    requires st.Valid()
    ensures r.Valid() && r.Main() == main && r.molecule.keys == st.molecule.keys && r.mainChain == st.mainChain
      && r.highestIndex == st.highestIndex && r.chainInfo == st.chainInfo && r.chainAnalysis == st.chainAnalysis
      && r.constructed == st.constructed
      && forall k :: k in st.molecule.items && k != st.mainChain ==> k in r.molecule.items && r.molecule.items[k] == st.molecule.items[k]
  {
    st.(molecule := Replace(st.molecule, st.mainChain, main))
  }

  /** `Resolution` with the dicts fixed, as the loop body uses it. */
  function Resolver(ci: map<string, ChainInfo>, ca: map<string, ChainType>): string -> Result<(string, seq<string>)> {
    t => Resolution(t, ci, ca)
  }

  /**
   * `_process_gate_connections`: the loop over the positions the main chain had when it
   * started; `chain_info` and `chain_analysis` are only read.
   */
  function ResolveStep(st: State): (r: Result<State>)
    requires st.Valid()
    ensures r.Ok? ==> (r.value.Valid() && r.value.molecule.keys == st.molecule.keys && r.value.mainChain == st.mainChain
      && r.value.highestIndex == st.highestIndex && r.value.chainInfo == st.chainInfo && r.value.chainAnalysis == st.chainAnalysis
      && r.value.constructed == st.constructed
      && (forall k :: k in st.molecule.items && k != st.mainChain ==> k in r.value.molecule.items && r.value.molecule.items[k] == st.molecule.items[k]))
    ensures var loop := StepAll(st.Main(), Resolver(st.chainInfo.items, st.chainAnalysis.items), |st.Main()|);
      r.Ok? == loop.Ok? && (r.Ok? ==> r.value.Main() == loop.value)
  {
    var loop := StepAll(st.Main(), Resolver(st.chainInfo.items, st.chainAnalysis.items), |st.Main()|);
    match loop
    case Err(e) => Err(e)
    case Ok(m) => Ok(WithMain(st, m))
  }

  /** No resolved or appended token holds `*`, so none is a reference. */
  lemma ResolutionStarFree(token: string, ci: map<string, ChainInfo>, ca: map<string, ChainType>)
    requires forall k :: k in ci ==> InfoValid(ci[k])
    requires Resolution(token, ci, ca).Ok? && RefOf(token).Some?
    ensures var r := Resolution(token, ci, ca).value;
      RefOf(token).value.0 in ci
      && (r.0 == token || '*' !in r.0)
      && forall m :: 0 <= m < |r.1| ==> '*' !in r.1[m] && RefOf(r.1[m]).None?
  {
    var t := Scan(token);
    ScanWellFormed(token);
    var name, atom := RefOf(token).value.0, RefOf(token).value.1;
    WordNoStar(t.a);
    WordNoStar(t.idx);
    assert '*' !in atom;
    var gates := ci[name].gate;
    forall g | g in gates ensures '*' !in Connection(atom, g) {
      assert '*' !in g;
    }
    var r := Resolution(token, ci, ca).value;
    forall m | 0 <= m < |r.1| ensures '*' !in r.1[m] && RefOf(r.1[m]).None? {
      assert r.1 == Joined(atom, gates[1..]);
      assert gates[1..][m] in gates;
      RefHasStar(r.1[m]);
    }
  }

  /**
   * `_process_gate_connections` on a main chain: the loop equals resolving every original
   * token on its own — the chain becomes the replacements, in order, followed by all
   * appended tokens — and it fails exactly when some token fails.
   */
  lemma ResolveLoopIs(main: seq<string>, ci: map<string, ChainInfo>, ca: map<string, ChainType>)
    ensures var r := StepAll(main, Resolver(ci, ca), |main|);
      (r.Ok? <==> forall k :: 0 <= k < |main| ==> Resolution(main[k], ci, ca).Ok?)
      && (r.Ok? ==>
            |r.value| >= |main|
            && (forall k :: 0 <= k < |main| ==> r.value[k] == Resolution(main[k], ci, ca).value.0)
            && Collect(Results(main, Resolver(ci, ca)), |main|).Ok?
            && r.value[|main|..] == Collect(Results(main, Resolver(ci, ca)), |main|).value.1)
  {
    StepAllAt(main, Resolver(ci, ca));
  }

  /**
   * No appended token is a reference, so the loop, which in the source also runs over
   * the tokens it appends, leaves them as they are.
   */
  lemma ResolveExtrasKept(main: seq<string>, ci: map<string, ChainInfo>, ca: map<string, ChainType>)
    requires forall k :: k in ci ==> InfoValid(ci[k])
    requires StepAll(main, Resolver(ci, ca), |main|).Ok?
    ensures var r := StepAll(main, Resolver(ci, ca), |main|).value;
      forall k :: |main| <= k < |r| ==> StepAt(r, Resolver(ci, ca), k) == Ok(r)
  {
    var f := Resolver(ci, ca);
    forall k, j | 0 <= k < |main| && f(main[k]).Ok? && 0 <= j < |f(main[k]).value.1| ensures RefOf(f(main[k]).value.1[j]).None? {
      if RefOf(main[k]).Some? {
        ResolutionStarFree(main[k], ci, ca);
      }
    }
    StepAllKept(main, f, t => RefOf(t).None?);
  }

  /**
   * A gate joined to a main atom `A i` reads back as a bond: `B j op` before it gives
   * `B j op A i`, `op B j` after it gives `A i op B j`, where `B j` is the gate's atom
   * with its index moved up.
   */
  lemma GateJoinsAsBond(token: string, h: nat, a: string, idx: string)
    requires ShiftOf(token, h).ShiftGate? && Word(a) && Number(idx)
    ensures var t := Scan(token);
      (t.GateAfterTok? ==> Scan(Connection(a + idx, ShiftOf(token, h).text)) == BondTok(t.a, t.i + h, t.op, a, DigitsValue(idx)))
      && (t.GateBeforeTok? ==> Scan(Connection(a + idx, ShiftOf(token, h).text)) == BondTok(a, DigitsValue(idx), t.op, t.a, t.i + h))
  {
    ShiftMeaning(token, h);
    var t := Scan(token);
    if t.GateAfterTok? {
      ConnectionBeforeIsBond(t.a, t.i + h, t.op, a, idx);
    } else {
      assert [t.op] + t.a + NatToString(t.i + h) == [t.op] + (t.a + NatToString(t.i + h));
      ConnectionAfterIsBond(a, idx, t.op, t.a, t.i + h);
    }
  }

  // `_build_constructed_molecule`.

  /** The `bonds` of each entry of `chain_info`, in its key order. */
  function BondLists(ci: Dict<string, ChainInfo>): (r: seq<seq<string>>)
    requires ci.Valid()
    ensures |r| == |ci.keys| && forall k :: 0 <= k < |ci.keys| ==> r[k] == ci.items[ci.keys[k]].bonds
  {
    seq(|ci.keys|, k requires 0 <= k < |ci.keys| && ci.Valid() => ci.items[ci.keys[k]].bonds)
  }

  /** The compiled list: the main chain, then every chain's bonds. */
  function BuildStep(st: State): (r: State)
    requires st.Valid()
    ensures r.Valid() && r == st.(constructed := r.constructed)
    ensures r.constructed == Built(st.Main(), st.chainInfo)
  {
    st.(constructed := Built(st.Main(), st.chainInfo))
  }

  function Built(main: seq<string>, ci: Dict<string, ChainInfo>): seq<string>
    requires ci.Valid()
  {
    main + Concat(BondLists(ci))
  }

  /**
   * The compiled list starts with the main chain and then holds each chain's bonds as one
   * block, right after the blocks of the chains before it in `chain_info`.
   */
  lemma BuildBlocks(main: seq<string>, ci: Dict<string, ChainInfo>, k: nat)
    requires ci.Valid() && k < |ci.keys|
    ensures var c := Built(main, ci); var bonds := ci.items[ci.keys[k]].bonds;
      var at := |main| + |Concat(BondLists(ci)[..k])|;
      c[..|main|] == main && at + |bonds| <= |c| && c[at..at + |bonds|] == bonds
  {
    var blocks := BondLists(ci);
    ConcatBlock(blocks, k);
    var all := Concat(blocks);
    var at := |Concat(blocks[..k])|;
    var c := main + all;
    assert c[|main| + at..|main| + at + |blocks[k]|] == all[at..at + |blocks[k]|];
  }

  /** The compiled list is exactly as long as the main chain and all the bonds together. */
  lemma BuildLength(main: seq<string>, ci: Dict<string, ChainInfo>)
    requires ci.Valid()
    ensures |Built(main, ci)| == |main| + |Concat(BondLists(ci))|
  {
  }

  // `__init__`, `construct` and `from_source`.

  /**
   * `__init__`: the molecule is a copy of the source and the main chain the first one
   * holding a reference; without one, or when its name is empty (falsy), a `ValueError`.
   */
  function InitState(src: Dict<string, seq<string>>): (r: Result<State>)
    requires src.Valid()
    ensures r.Ok? <==> MainChainOf(src).Some? && MainChainOf(src).value != ""
    ensures r.Ok? ==> (r.value.Valid() && r.value.molecule == src && r.value.mainChain == MainChainOf(src).value
      && r.value.highestIndex == HighestIndex(src.items[r.value.mainChain])
      && r.value.chainInfo.keys == [] && r.value.chainAnalysis.keys == [] && r.value.constructed == [])
  {
    match MainChainOf(src)
    case None => Err("ValueError: Main chain not found in the molecule source.")
    case Some(main) =>
      if main == "" then Err("ValueError: Main chain not found in the molecule source.")
      else
        KeyInItems(src, main);
        Ok(State(src, main, HighestIndex(src.items[main]), EmptyDict(), EmptyDict(), []))
  }

  /** `construct`: the five steps in order, stopping at the first error. */
  function Constructed(st: State): (r: Result<State>)
    requires st.Valid()
    ensures r.Ok? ==> r.value.Valid() && r.value.mainChain == st.mainChain && r.value.molecule.keys == st.molecule.keys
  {
    match AnalyzeStep(st)
    case Err(e) => Err(e)
    case Ok(s1) =>
      match ConnectStep(s1)
      case Err(e) => Err(e)
      case Ok(s2) =>
        match ReindexStep(s2)
        case Err(e) => Err(e)
        case Ok(s3) =>
          match ResolveStep(s3)
          case Err(e) => Err(e)
          case Ok(s4) => Ok(BuildStep(s4))
  }

  /** What `construct` returns. */
  datatype Compiled = Compiled(chainInfo: Dict<string, ChainInfo>, molecule: Dict<string, seq<string>>, constructed: seq<string>)

  /** `from_source`. */
  function Compile(src: Dict<string, seq<string>>): (r: Result<Compiled>)
    requires src.Valid()
    ensures MainChainOf(src).None? ==> r.Err?
  {
    match InitState(src)
    case Err(e) => Err(e)
    case Ok(st) =>
      match Constructed(st)
      case Err(e) => Err(e)
      case Ok(s) => Ok(Compiled(s.chainInfo, s.molecule, s.constructed))
  }

  // The class.

  /**
   * A `MoleculeConstructor` object: the fields its methods update in place, each method
   * proved to leave the fields as the corresponding step function says.
   */
  class MoleculeConstructor {
    var molecule: Dict<string, seq<string>>
    var mainChain: string
    var highestIndex: nat
    var chainInfo: Dict<string, ChainInfo>
    var chainAnalysis: Dict<string, ChainType>
    var constructedMolecule: seq<string>

    /** The fields as a `State`. */
    function Value(): State
      reads this
    {
      State(molecule, mainChain, highestIndex, chainInfo, chainAnalysis, constructedMolecule)
    }

    predicate Valid()
      reads this
    {
      Value().Valid()
    }

    constructor FromState(st: State)
      requires st.Valid()
      ensures Value() == st
    {
      molecule := st.molecule;
      mainChain := st.mainChain;
      highestIndex := st.highestIndex;
      chainInfo := st.chainInfo;
      chainAnalysis := st.chainAnalysis;
      constructedMolecule := st.constructed;
    }

    /** `__init__`, which raises a `ValueError` when no chain holds a reference. */
    static method New(src: Dict<string, seq<string>>) returns (r: Result<MoleculeConstructor>)
      requires src.Valid()
      ensures r.Ok? <==> InitState(src).Ok?
      ensures r.Ok? ==> fresh(r.value) && r.value.Valid() && r.value.Value() == InitState(src).value
    {
      var found := SearchForMainChain(src);
      if found.Err? || found.value == "" {
        return Err("ValueError: Main chain not found in the molecule source.");
      }
      var main := found.value;
      KeyInItems(src, main);
      var h := ExtractHighestIndex(src.items[main]);
      var c := new MoleculeConstructor.FromState(State(src, main, h, EmptyDict(), EmptyDict(), []));
      return Ok(c);
    }

    /** `_analyze_chain_types`. */
    method AnalyzeChainTypes() returns (err: Option<string>)
      requires Valid()
      modifies this
      ensures err.None? <==> AnalyzeStep(old(Value())).Ok?
      ensures err.None? ==> Value() == AnalyzeStep(old(Value())).value
      ensures err.Some? ==> Value() == old(Value())
    {
      ghost var st := Value();
      var r := AnalyzeChains(molecule, mainChain, chainAnalysis, chainInfo);
      if r.Err? {
        return Some(r.error);
      }
      AnalyzeStepOk(st, r.value.0, r.value.1);
      chainAnalysis, chainInfo := r.value.0, r.value.1;
      return None;
    }

    /** `_process_main_chain_connections`. */
    method ProcessMainChainConnections() returns (err: Option<string>)
      requires Valid()
      modifies this
      ensures err.None? <==> ConnectStep(old(Value())).Ok?
      ensures err.None? ==> Value() == ConnectStep(old(Value())).value
      ensures err.Some? ==> Value() == old(Value())
    {
      var r := AttachReceivers(molecule.items[mainChain], chainInfo);
      if r.Err? {
        return Some(r.error);
      }
      chainInfo := r.value;
      return None;
    }

    /** `_update_chain_indices`. */
    method UpdateChainIndices() returns (err: Option<string>)
      requires Valid()
      modifies this
      ensures err.None? <==> ReindexStep(old(Value())).Ok?
      ensures err.None? ==> Value() == ReindexStep(old(Value())).value
      ensures err.Some? ==> Value() == old(Value())
    {
      var r := UpdateIndices(molecule.keys, mainChain, Fields(molecule.items, chainInfo.items, highestIndex));
      if r.Err? {
        return Some(r.error);
      }
      molecule, highestIndex, chainInfo := Dict(molecule.keys, r.value.mol), r.value.h, Dict(chainInfo.keys, r.value.ci);
      return None;
    }

    /** `_process_gate_connections`: the main chain is rewritten in place and grows. */
    method ProcessGateConnections() returns (err: Option<string>)
      requires Valid()
      modifies this
      ensures err.None? <==> ResolveStep(old(Value())).Ok?
      ensures err.None? ==> Value() == ResolveStep(old(Value())).value
      ensures err.Some? ==> Value() == old(Value())
    {
      var r := StepLoop(molecule.items[mainChain], Resolver(chainInfo.items, chainAnalysis.items));
      if r.Err? {
        return Some(r.error);
      }
      molecule := Replace(molecule, mainChain, r.value);
      return None;
    }

    /** `_build_constructed_molecule`: the main chain, extended by each entry's bonds in turn. */
    method BuildConstructedMolecule()
      requires Valid()
      modifies this
      ensures Value() == BuildStep(old(Value()))
    {
      constructedMolecule := ConcatLoop(molecule.items[mainChain], BondLists(chainInfo));
    }

    /** `construct`: the five steps in order; it returns `chain_info`, the molecule and the compiled list. */
    method Construct() returns (r: Result<Compiled>)
      requires Valid()
      modifies this
      ensures r.Ok? <==> Constructed(old(Value())).Ok?
      ensures r.Ok? ==> (Value() == Constructed(old(Value())).value
        && r.value == Compiled(chainInfo, molecule, constructedMolecule))
    {
      var err := AnalyzeChainTypes();
      if err.Some? {
        return Err(err.value);
      }
      err := ProcessMainChainConnections();
      if err.Some? {
        return Err(err.value);
      }
      err := UpdateChainIndices();
      if err.Some? {
        return Err(err.value);
      }
      err := ProcessGateConnections();
      if err.Some? {
        return Err(err.value);
      }
      BuildConstructedMolecule();
      return Ok(Compiled(chainInfo, molecule, constructedMolecule));
    }
  }

  /** `from_source`: a new constructor on the source, then `construct`. */
  method FromSource(src: Dict<string, seq<string>>) returns (r: Result<Compiled>)
    requires src.Valid()
    ensures r.Ok? <==> Compile(src).Ok?
    ensures r.Ok? ==> r.value == Compile(src).value
  {
    var c := MoleculeConstructor.New(src);
    if c.Err? {
      return Err(c.error);
    }
    r := c.value.Construct();
  }
}
