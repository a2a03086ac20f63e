/**
 * The older chain compiler, `Molecule` in `pyMolinfo/docs/molecule.py`. It shares the
 * token shapes, `extract_highest_index` and `search_for_main_chain` with `MoleculeConstructor`
 * (module `ChainText`) but differs from it in every step that follows:
 *  - `check_molecule` renames each chain once per `A i *{name}` reference to it
 *    (`name1`, `name2`, ...) and drops chains that are never referenced that way;
 *  - `construct_molecule` turns `A i op *` into `op A i` and `* op A i` into `A i op`
 *    (the opposite of `MoleculeConstructor`), moves `highest_index` to the first atom of the
 *    last recognised token, and resolves each reference with the first gate only.
 */
module MoleculeCompiler {
  import opened Wrappers
  import opened PyText
  import opened PyDict
  import opened ChainText
  import opened SeqFolds
  import opened MoleculeCheck

  // `construct_molecule`: re-indexing the chains.

  /** What re-indexing does to one token of a side chain. */
  datatype MShift =
    | MBond(text: string, index: nat)     // a bond, both indices moved up; `index1` is its first atom's
    | MGate(text: string, index: nat)     // a gate, its star dropped and its side swapped
    | MKeep                               // anything else stays as it is

  /**
   * The three patterns of the token loop, tried on the original token: a bond; `A i op *`,
   * which becomes `op A i+h`; and `* op A i` with a single star, which becomes `A i+h op`.
   */
  function MShiftOf(token: string, h: nat): (r: MShift)
    ensures !r.MKeep? ==> r.index >= h
    ensures r.MBond? <==> Scan(token).BondTok?
    ensures Scan(token).GateBeforeTok? && |Scan(token).port| != 1 ==> r.MKeep?
  {
    match Scan(token)
    case BondTok(a, i, op, b, j) => MBond(Text(BondTok(a, i + h, op, b, j + h)), i + h)
    case GateAfterTok(a, i, op, _) => MGate([op] + a + NatToString(i + h), i + h)
    case GateBeforeTok(port, op, a, i) => if |port| == 1 then MGate(a + NatToString(i + h) + [op], i + h) else MKeep
    case _ => MKeep
  }

  /**
   * A bond comes back as the same bond with both indices moved up by `h` and its first
   * index as `index1`; `A i op *…` becomes `op A i+h` and `* op A i` becomes `A i+h op`;
   * a gate with two or more stars before its bond sign, a reference and anything else is
   * kept.
   */
  lemma MShiftMeaning(token: string, h: nat)
    ensures var t := Scan(token);
      (MShiftOf(token, h).MKeep? <==> !(t.BondTok? || t.GateAfterTok? || (t.GateBeforeTok? && |t.port| == 1)))
      && (t.BondTok? ==> (Scan(MShiftOf(token, h).text) == BondTok(t.a, t.i + h, t.op, t.b, t.j + h)
            && MShiftOf(token, h).index == t.i + h))
      && (t.GateAfterTok? ==> MShiftOf(token, h) == MGate([t.op] + t.a + NatToString(t.i + h), t.i + h))
      && (t.GateBeforeTok? && |t.port| == 1 ==> MShiftOf(token, h) == MGate(t.a + NatToString(t.i + h) + [t.op], t.i + h))
  {
    ScanWellFormed(token);
    var t := Scan(token);
    if t.BondTok? {
      ScanBondText(t.a, t.i + h, t.op, t.b, t.j + h);
    }
  }

  /** No gate holds a `*`. */
  lemma MGateStarFree(token: string, h: nat)
    ensures MShiftOf(token, h).MGate? ==> '*' !in MShiftOf(token, h).text
  {
    ScanWellFormed(token);
    var t := Scan(token);
    if t.GateAfterTok? || t.GateBeforeTok? {
      WordNoStar(t.a);
      NatToStringNoStar(t.i + h);
      assert !IsOp('*');
    }
  }

  function MShifts(chain: seq<string>, h: nat): (r: seq<MShift>)
    ensures |r| == |chain| && forall k :: 0 <= k < |chain| ==> r[k] == MShiftOf(chain[k], h)
  {
    seq(|chain|, k requires 0 <= k < |chain| => MShiftOf(chain[k], h))
  }

  /** The chain with every recognised token replaced by its new text. */
  function MRewritten(chain: seq<string>, sh: seq<MShift>): (r: seq<string>)
    requires |sh| == |chain|
    ensures |r| == |chain| && forall k :: 0 <= k < |chain| ==> r[k] == if sh[k].MKeep? then chain[k] else sh[k].text
  {
    seq(|chain|, k requires 0 <= k < |chain| => if sh[k].MKeep? then chain[k] else sh[k].text)
  }

  /** The new bond texts, in chain order. */
  function MBondsOf(sh: seq<MShift>): seq<string> {
    if sh == [] then [] else MBondsOf(sh[..|sh| - 1]) + if sh[|sh| - 1].MBond? then [sh[|sh| - 1].text] else []
  }

  /** The new gate texts, in chain order. */
  function MGatesOf(sh: seq<MShift>): seq<string> {
    if sh == [] then [] else MGatesOf(sh[..|sh| - 1]) + if sh[|sh| - 1].MGate? then [sh[|sh| - 1].text] else []
  }

  /** `index1` after the chain: that of its last recognised token, or what it was before the chain. */
  function LastIndex(sh: seq<MShift>, prev: Option<nat>): Option<nat> {
    if sh == [] then prev
    else if sh[|sh| - 1].MKeep? then LastIndex(sh[..|sh| - 1], prev)
    else Some(sh[|sh| - 1].index)
  }

  /** `index1` stays as it was when the chain has no recognised token. */
  lemma {:induction false} LastIndexKept(sh: seq<MShift>, prev: Option<nat>)
    requires forall k :: 0 <= k < |sh| ==> sh[k].MKeep?
    ensures LastIndex(sh, prev) == prev
  {
    if sh != [] {
      var pre := sh[..|sh| - 1];
      forall k | 0 <= k < |pre| ensures pre[k].MKeep? {
        assert pre[k] == sh[k];
      }
      LastIndexKept(pre, prev);
    }
  }

  /** Otherwise `index1` is the index of the last recognised token. */
  lemma {:induction false} LastIndexAt(sh: seq<MShift>, prev: Option<nat>, k: nat)
    requires k < |sh| && !sh[k].MKeep? && forall m :: k < m < |sh| ==> sh[m].MKeep?
    ensures LastIndex(sh, prev) == Some(sh[k].index)
  {
    if k < |sh| - 1 {
      var pre := sh[..|sh| - 1];
      assert sh[|sh| - 1].MKeep? && pre[k] == sh[k];
      forall m | k < m < |pre| ensures pre[m].MKeep? {
        assert pre[m] == sh[m];
      }
      LastIndexAt(pre, prev, k);
    }
  }

  /** No shift of a chain is a gate holding a `*`. */
  lemma ShiftsStarFree(chain: seq<string>, h: nat)
    ensures forall k :: 0 <= k < |chain| && MShifts(chain, h)[k].MGate? ==> '*' !in MShifts(chain, h)[k].text
  {
    forall k | 0 <= k < |chain| {
      MGateStarFree(chain[k], h);
    }
  }

  /** Gates collected from such shifts hold no `*`. */
  lemma {:induction false} GatesOfStarFree(sh: seq<MShift>)
    requires forall k :: 0 <= k < |sh| && sh[k].MGate? ==> '*' !in sh[k].text
    ensures forall g :: g in MGatesOf(sh) ==> '*' !in g
  {
    if sh != [] {
      var pre := sh[..|sh| - 1];
      forall k | 0 <= k < |pre| && pre[k].MGate? ensures '*' !in pre[k].text {
        assert pre[k] == sh[k];
      }
      GatesOfStarFree(pre);
    }
  }

  /** What `chain_info` records for one chain. */
  datatype MInfo = MInfo(bonds: seq<string>, gate: seq<string>)

  /** Every recorded gate is free of `*`. */
  predicate GatesStarFree(ci: map<string, MInfo>) {
    forall k, g :: k in ci && g in ci[k].gate ==> '*' !in g
  }

  /** The running state of the chain loop: the chains, `chain_info`, `highest_index` and `index1`. */
  datatype Build = Build(mol: map<string, seq<string>>, ci: Dict<string, MInfo>, h: nat, index1: Option<nat>)

  predicate BuildValid(b: Build) {
    b.ci.Valid() && GatesStarFree(b.ci.items)
  }

  /**
   * One chain of the loop: the main chain is skipped; a side chain gets a fresh
   * `chain_info` entry, its recognised tokens are rewritten and recorded, and
   * `highest_index` becomes `index1`. An `index1` that no token has set yet is an
   * `UnboundLocalError`.
   */
  function ChainStep(b: Build, main: string, key: string): (r: Result<Build>)
    requires key in b.mol && BuildValid(b)
    ensures r.Ok? ==> (BuildValid(r.value) && r.value.mol.Keys == b.mol.Keys
      && (main in b.mol ==> r.value.mol[main] == b.mol[main]))
  {
    if key == main then Ok(b)
    else
      var sh := MShifts(b.mol[key], b.h);
      match LastIndex(sh, b.index1)
      case None => Err("UnboundLocalError: index1")
      case Some(last) =>
        ShiftsStarFree(b.mol[key], b.h);
        GatesOfStarFree(sh);
        Ok(Build(b.mol[key := MRewritten(b.mol[key], sh)], Put(b.ci, key, MInfo(MBondsOf(sh), MGatesOf(sh))), last, Some(last)))
  }

  /** The chain loop from position `i` of the keys on; the first error ends it. */
  function ChainFrom(keys: seq<string>, main: string, b: Build, i: nat): (r: Result<Build>)
    requires i <= |keys| && (forall k :: 0 <= k < |keys| ==> keys[k] in b.mol) && BuildValid(b)
    ensures r.Ok? ==> (BuildValid(r.value) && r.value.mol.Keys == b.mol.Keys
      && (main in b.mol ==> r.value.mol[main] == b.mol[main]))
    decreases |keys| - i
  {
    if i == |keys| then Ok(b)
    else
      match ChainStep(b, main, keys[i])
      case Err(e) => Err(e)
      case Ok(b') => ChainFrom(keys, main, b', i + 1)
  }

  // `construct_molecule`: resolving the references of the main chain.

  /** The main atom joined to the first gate of the chain `name`; a missing entry or an empty gate list is an error. */
  function FirstGate(atom: string, name: string, ci: map<string, MInfo>): Result<Option<string>> {
    if name !in ci then Err("KeyError: chain info")
    else if ci[name].gate == [] then Err("IndexError: gate")
    else Ok(Some(Connection(atom, ci[name].gate[0])))
  }

  /** What a main-chain token is replaced by: only references, in either orientation, are. */
  function Replacement(token: string, ci: map<string, MInfo>): Result<Option<string>> {
    match Scan(token)
    case RefAfterTok(a, idx, name) => FirstGate(a + idx, name, ci)
    case RefBeforeTok(name, a, idx) => FirstGate(a + idx, name, ci)
    case _ => Ok(None)
  }

  /** A replaced token is a reference, holding a `*`; its replacement holds none. */
  lemma ReplacementStars(token: string, ci: map<string, MInfo>)
    requires GatesStarFree(ci) && Replacement(token, ci).Ok? && Replacement(token, ci).value.Some?
    ensures '*' in token && '*' !in Replacement(token, ci).value.value
  {
    RefHasStar(token);
    ScanWellFormed(token);
    var t := Scan(token);
    WordNoStar(t.a);
    WordNoStar(t.idx);
    var g := ci[t.name].gate[0];
    assert g in ci[t.name].gate;
    assert Replacement(token, ci).value.value == (if |g| > 0 && IsOp(g[0]) then t.a + t.idx + g else g + (t.a + t.idx));
  }

  /**
   * Position `i` of the loop over the main chain: a reference is replaced where
   * `list.index` first finds it.
   */
  function ResolveAt(cur: seq<string>, ci: map<string, MInfo>, i: nat): (r: Result<seq<string>>)
    requires i < |cur|
    ensures r.Ok? ==> |r.value| == |cur|
  {
    match Replacement(cur[i], ci)
    case Err(e) => Err(e)
    case Ok(None) => Ok(cur)
    case Ok(Some(t)) =>
      assert cur[i] in cur;
      Ok(cur[IndexOf(cur, cur[i]).value := t])
  }

  /** The loop over the main chain from position `i` on; the first error ends it. */
  function ResolveFrom(cur: seq<string>, ci: map<string, MInfo>, i: nat): (r: Result<seq<string>>)
    requires i <= |cur|
    ensures r.Ok? ==> |r.value| == |cur|
    decreases |cur| - i
  {
    if i == |cur| then Ok(cur)
    else
      match ResolveAt(cur, ci, i)
      case Err(e) => Err(e)
      case Ok(next) => ResolveFrom(next, ci, i + 1)
  }

  /** A token as resolution leaves it. */
  function ResolvedToken(token: string, ci: map<string, MInfo>): string
    requires Replacement(token, ci).Ok?
  {
    match Replacement(token, ci).value
    case None => token
    case Some(t) => t
  }

  /**
   * Resolution rewrites every reference in its own place: `list.index` always finds the
   * token being visited, since the tokens before it are either not references or already
   * replaced by something without a `*`. It fails exactly when some token still to be
   * visited fails.
   */
  lemma {:induction false} ResolveFromIs(main: seq<string>, ci: map<string, MInfo>, cur: seq<string>, i: nat)
    requires GatesStarFree(ci) && i <= |main| == |cur|
    requires forall k :: 0 <= k < i ==> Replacement(main[k], ci).Ok? && cur[k] == ResolvedToken(main[k], ci)
    requires forall k :: i <= k < |main| ==> cur[k] == main[k]
    ensures ResolveFrom(cur, ci, i).Ok? <==> forall k :: i <= k < |main| ==> Replacement(main[k], ci).Ok?
    ensures ResolveFrom(cur, ci, i).Ok? ==> forall k :: 0 <= k < |main| ==> ResolveFrom(cur, ci, i).value[k] == ResolvedToken(main[k], ci)
    decreases |main| - i
  {
    if i < |main| {
      if Replacement(main[i], ci).Ok? {
        ResolveAtIs(main, ci, cur, i);
        var next := cur[i := ResolvedToken(main[i], ci)];
        assert ResolveFrom(cur, ci, i) == ResolveFrom(next, ci, i + 1);
        ResolveFromIs(main, ci, next, i + 1);
      } else {
        assert cur[i] == main[i];
        assert ResolveAt(cur, ci, i).Err?;
      }
    }
  }

  /** One position of that loop: the token is replaced in its own place. */
  lemma ResolveAtIs(main: seq<string>, ci: map<string, MInfo>, cur: seq<string>, i: nat)
    requires GatesStarFree(ci) && i < |main| == |cur| && Replacement(main[i], ci).Ok?
    requires forall k :: 0 <= k < i ==> Replacement(main[k], ci).Ok? && cur[k] == ResolvedToken(main[k], ci)
    requires forall k :: i <= k < |main| ==> cur[k] == main[k]
    ensures ResolveAt(cur, ci, i) == Ok(cur[i := ResolvedToken(main[i], ci)])
  {
    var x := main[i];
    assert cur[i] == x;
    if Replacement(x, ci).value.Some? {
      forall k | 0 <= k < i ensures cur[k] != x {
        if Replacement(main[k], ci).value.Some? {
          ReplacementStars(main[k], ci);
          ReplacementStars(x, ci);
        }
      }
      IndexAt(cur, i);
    } else {
      assert cur[i := x] == cur;
    }
  }

  /** `list.index` finds position `i` when no earlier position holds the same token. */
  lemma IndexAt(cur: seq<string>, i: nat)
    requires i < |cur| && forall k :: 0 <= k < i ==> cur[k] != cur[i]
    ensures IndexOf(cur, cur[i]) == Some(i)
  {
    assert cur[i] in cur;
  }

  // `construct_molecule` and `build`.

  /** The `bonds` of each entry of `chain_info`, in its key order. */
  function MBondLists(ci: Dict<string, MInfo>): (r: seq<seq<string>>)
    requires ci.Valid()
    ensures |r| == |ci.keys| && forall k :: 0 <= k < |ci.keys| ==> r[k] == ci.items[ci.keys[k]].bonds
  {
    seq(|ci.keys|, k requires 0 <= k < |ci.keys| && ci.Valid() => ci.items[ci.keys[k]].bonds)
  }

  /** What `construct_molecule` returns. */
  datatype Output = Output(chainInfo: Dict<string, MInfo>, molecule: Dict<string, seq<string>>, constructed: seq<string>)

  /** The chain loop from its start: `highest_index` from the main chain, or 0 and no loop when the main chain's name is empty. */
  function Reindexed(src: Dict<string, seq<string>>, main: string): (r: Result<Build>)
    requires src.Valid() && main in src.items
    ensures r.Ok? ==> (BuildValid(r.value) && r.value.mol.Keys == src.items.Keys && r.value.mol[main] == src.items[main])
  {
    var start := Build(src.items, EmptyDict(), if main == "" then 0 else HighestIndex(src.items[main]), None);
    if main == "" then Ok(start) else ChainFrom(src.keys, main, start, 0)
  }

  /**
   * `construct_molecule`: re-index the side chains, resolve the main chain's references,
   * then the main chain followed by every chain's bonds in `chain_info` order.
   */
  function Construction(src: Dict<string, seq<string>>): (r: Result<Output>)
    requires src.Valid()
    ensures MainChainOf(src).None? ==> r.Err?
    ensures r.Ok? ==> (r.value.molecule.keys == src.keys && r.value.chainInfo.Valid() && r.value.molecule.Valid())
  {
    match MainChainOf(src)
    case None => Err("Main chain not found in the molecule source.")
    case Some(main) =>
      match Reindexed(src, main)
      case Err(e) => Err(e)
      case Ok(b) =>
        match ResolveFrom(b.mol[main], b.ci.items, 0)
        case Err(e) => Err(e)
        case Ok(m) =>
          var mol := b.mol[main := m];
          SameKeysValid(src, mol);
          Ok(Output(b.ci, Dict(src.keys, mol), m + Concat(MBondLists(b.ci))))
  }

  /**
   * The compiled list is the resolved main chain, each reference replaced in its place,
   * followed by every chain's bonds, in `chain_info` order.
   */
  lemma ConstructionParts(src: Dict<string, seq<string>>)
    requires src.Valid() && Construction(src).Ok?
    ensures var main := MainChainOf(src).value; var out := Construction(src).value;
      var n := |src.items[main]|;
      main in src.items && n <= |out.constructed|
      && (forall k :: 0 <= k < n ==> (Replacement(src.items[main][k], out.chainInfo.items).Ok?
            && out.constructed[k] == ResolvedToken(src.items[main][k], out.chainInfo.items)))
      && out.constructed[n..] == Concat(MBondLists(out.chainInfo))
      && out.molecule.items[main] == out.constructed[..n]
  {
    var main := MainChainOf(src).value;
    var b := Reindexed(src, main).value;
    ResolveFromIs(b.mol[main], b.ci.items, b.mol[main], 0);
  }

  /** What `build` returns: `construct_molecule`'s three results and the compiled list under the molecule's name. */
  datatype Built = Built(output: Output, named: Dict<string, seq<string>>)

  /** `build`: `check_molecule`, then `construct_molecule` on its result; any error becomes the build's error. */
  function BuildOf(src: Dict<string, seq<string>>, name: string): (r: Result<Built>)
    requires src.Valid()
    ensures r.Ok? ==> r.value.named.keys == [name] && name in r.value.named.items && r.value.named.items[name] == r.value.output.constructed
  {
    match Checked(src)
    case Err(e) => Err("An error occurred while building the molecule: " + e)
    case Ok(checked) =>
      match Construction(checked)
      case Err(e) => Err("An error occurred while building the molecule: " + e)
      case Ok(out) => Ok(Built(out, Dict([name], map[name := out.constructed])))
  }

  /** The token loop of `construct_molecule` on one side chain. */
  method ReindexChainTokens(chain: seq<string>, h: nat, index1: Option<nat>)
    returns (c: seq<string>, bonds: seq<string>, gates: seq<string>, last: Option<nat>)
    ensures var sh := MShifts(chain, h);
      c == MRewritten(chain, sh) && bonds == MBondsOf(sh) && gates == MGatesOf(sh) && last == LastIndex(sh, index1)
  {
    ghost var sh := MShifts(chain, h);
    c, bonds, gates, last := chain, [], [], index1;
    var i := 0;
    while i < |chain|
      invariant TokensUpTo(chain, sh, index1, i, c, bonds, gates, last)
    {
      var s := MShiftOf(chain[i], h);
      assert s == sh[i];
      TokensStep(chain, sh, index1, i, c, bonds, gates, last);
      match s {
        case MBond(t, ix) =>
          c := c[i := t];
          bonds := bonds + [t];
          last := Some(ix);
        case MGate(t, ix) =>
          c := c[i := t];
          gates := gates + [t];
          last := Some(ix);
        case MKeep =>
      }
      i := i + 1;
    }
    assert sh[..|chain|] == sh;
  }

  /** After the first `i` tokens of the chain: those tokens rewritten and recorded, `index1` moved. */
  ghost predicate TokensUpTo(chain: seq<string>, sh: seq<MShift>, index1: Option<nat>, i: nat,
                             c: seq<string>, bonds: seq<string>, gates: seq<string>, last: Option<nat>)
    requires |sh| == |chain|
  {
    i <= |chain| && |c| == |chain|
    && (forall k :: 0 <= k < i ==> c[k] == if sh[k].MKeep? then chain[k] else sh[k].text)
    && (forall k :: i <= k < |chain| ==> c[k] == chain[k])
    && bonds == MBondsOf(sh[..i]) && gates == MGatesOf(sh[..i]) && last == LastIndex(sh[..i], index1)
  }

  lemma TokensStep(chain: seq<string>, sh: seq<MShift>, index1: Option<nat>, i: nat,
                   c: seq<string>, bonds: seq<string>, gates: seq<string>, last: Option<nat>)
    requires |sh| == |chain| && i < |chain| && TokensUpTo(chain, sh, index1, i, c, bonds, gates, last)
    ensures TokensUpTo(chain, sh, index1, i + 1,
      if sh[i].MKeep? then c else c[i := sh[i].text],
      if sh[i].MBond? then bonds + [sh[i].text] else bonds,
      if sh[i].MGate? then gates + [sh[i].text] else gates,
      if sh[i].MKeep? then last else Some(sh[i].index))
  {
    assert sh[..i + 1][..i] == sh[..i];
  }

  /** The chain loop of `construct_molecule`. */
  method ReindexChains(keys: seq<string>, main: string, b: Build) returns (r: Result<Build>)
    requires (forall k :: 0 <= k < |keys| ==> keys[k] in b.mol) && BuildValid(b)
    ensures r == ChainFrom(keys, main, b, 0)
  {
    var cur := b;
    var n := 0;
    while n < |keys|
      invariant n <= |keys| && (forall k :: 0 <= k < |keys| ==> keys[k] in cur.mol) && BuildValid(cur)
      invariant ChainFrom(keys, main, cur, n) == ChainFrom(keys, main, b, 0)
    {
      var step := ReindexChain(cur, main, keys[n]);
      if step.Err? {
        return step;
      }
      cur := step.value;
      n := n + 1;
    }
    return Ok(cur);
  }

  /** One turn of the chain loop: the chain `key`, unless it is the main one. */
  method ReindexChain(b: Build, main: string, key: string) returns (r: Result<Build>)
    requires key in b.mol && BuildValid(b)
    ensures r == ChainStep(b, main, key)
  {
    if key == main {
      return Ok(b);
    }
    var c, bonds, gates, last := ReindexChainTokens(b.mol[key], b.h, b.index1);
    if last.None? {
      return Err("UnboundLocalError: index1");
    }
    return Ok(Build(b.mol[key := c], Put(b.ci, key, MInfo(bonds, gates)), last.value, last));
  }

  /** The loop of `construct_molecule` over the main chain's references. */
  method ResolveMain(main: seq<string>, ci: map<string, MInfo>) returns (r: Result<seq<string>>)
    ensures r == ResolveFrom(main, ci, 0)
  {
    var cur := main;
    var i := 0;
    while i < |main|
      invariant i <= |main| == |cur| && ResolveFrom(cur, ci, i) == ResolveFrom(main, ci, 0)
    {
      var step := ResolveToken(cur, ci, i);
      if step.Err? {
        return step;
      }
      cur := step.value;
      i := i + 1;
    }
    return Ok(cur);
  }

  /** One turn of that loop: a reference is replaced where `list.index` first finds it. */
  method ResolveToken(cur: seq<string>, ci: map<string, MInfo>, i: nat) returns (r: Result<seq<string>>)
    requires i < |cur|
    ensures r == ResolveAt(cur, ci, i)
  {
    var rep := Replacement(cur[i], ci);
    if rep.Err? {
      return Err(rep.error);
    }
    if rep.value.None? {
      return Ok(cur);
    }
    assert cur[i] in cur;
    var at := IndexOf(cur, cur[i]).value;
    return Ok(cur[at := rep.value.value]);
  }

  /** The chain loop from its start, skipped with `highest_index` 0 when the main chain's name is empty. */
  method ReindexSource(src: Dict<string, seq<string>>, main: string) returns (r: Result<Build>)
    requires src.Valid() && main in src.items
    ensures r == Reindexed(src, main)
  {
    var b := Build(src.items, EmptyDict(), 0, None);
    if main == "" {
      return Ok(b);
    }
    var h := ExtractHighestIndex(src.items[main]);
    r := ReindexChains(src.keys, main, b.(h := h));
  }

  /** `construct_molecule`. */
  method ConstructMolecule(src: Dict<string, seq<string>>) returns (r: Result<Output>)
    requires src.Valid()
    ensures r == Construction(src)
  {
    var found := SearchForMainChain(src);
    if found.Err? {
      return Err("Main chain not found in the molecule source.");
    }
    var main := found.value;
    var reindexed := ReindexSource(src, main);
    if reindexed.Err? {
      return Err(reindexed.error);
    }
    var b := reindexed.value;
    var m := ResolveMain(b.mol[main], b.ci.items);
    if m.Err? {
      return Err(m.error);
    }
    var mol := b.mol[main := m.value];
    SameKeysValid(src, mol);
    var constructed := ConcatLoop(m.value, MBondLists(b.ci));
    return Ok(Output(b.ci, Dict(src.keys, mol), constructed));
  }

  /** A molecule to build: its chains and its name. */
  class Molecule {
    var source: Dict<string, seq<string>>
    var name: string

    constructor (source: Dict<string, seq<string>>, name: string)
      ensures this.source == source && this.name == name
    {
      this.source := source;
      this.name := name;
    }

    /** `build`. */
    method Build() returns (r: Result<Built>)
      requires source.Valid()
      ensures r == BuildOf(source, name)
    {
      var checked := CheckMolecule(source);
      if checked.Err? {
        return Err("An error occurred while building the molecule: " + checked.error);
      }
      var out := ConstructMolecule(checked.value);
      if out.Err? {
        return Err("An error occurred while building the molecule: " + out.error);
      }
      return Ok(Built(out.value, Dict([name], map[name := out.value.constructed])));
    }
  }
}
