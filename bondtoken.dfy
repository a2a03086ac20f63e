/**
 * The bond-token reading shared by both `create_custom_graph`s and by
 * `MolGraph.generate_one_graph`: a token such as `C1-H2` is split on its bond
 * character, each side's letters give an atom symbol and its digits a node id (kept as
 * a string), and the two nodes and the edge between them are added to a networkx graph.
 */
module BondToken {
  import opened Wrappers
  import opened PyText
  import opened NxGraph

  /** The character the token is split on: `-` if present, else `=`, else `#`. */
  function Separator(bond: string): (r: Option<char>)
    ensures r.Some? <==> '-' in bond || '=' in bond || '#' in bond
    ensures r.Some? ==> r.value in bond
  {
    if '-' in bond then Some('-')
    else if '=' in bond then Some('=')
    else if '#' in bond then Some('#')
    else None
  }

  /** `''.join(c for c in s if c.isalpha())`, for ASCII letters. */
  function Letters(s: string): (r: string)
    ensures AllLetters(r) && |r| <= |s|
  {
    if s == [] then [] else (if IsLetter(s[0]) then [s[0]] else []) + Letters(s[1..])
  }

  /** `''.join(c for c in s if c.isdigit())`, for ASCII digits. */
  function Digits(s: string): (r: string)
    ensures AllDigits(r) && |r| <= |s|
  {
    if s == [] then [] else (if IsDigit(s[0]) then [s[0]] else []) + Digits(s[1..])
  }

  /** The edge `type`: 2 if the token holds `=` anywhere, else 3 if it holds `#`, else 1. */
  function Kind(bond: string): (r: int)
    ensures 1 <= r <= 3
    ensures r == 2 <==> '=' in bond
  {
    if '=' in bond then 2 else if '#' in bond then 3 else 1
  }

  /**
   * One token's `add_node`, `add_node`, `add_edge`. A token without a bond character
   * raises `bond type error`; one that does not split into exactly two pieces adds nothing.
   */
  function AddToken(g: GraphValue<NodeKey>, bond: string): (r: Result<GraphValue<NodeKey>>)
    ensures r.Err? <==> Separator(bond).None?
  {
    match Separator(bond)
    case None => Err("bond type error")
    case Some(c) =>
      var parts := SplitOn(bond, [c]);
      if |parts| == 2 then
        var s0, s1 := Letters(parts[0]), Letters(parts[1]);
        var a, b := StrKey(Digits(parts[0])), StrKey(Digits(parts[1]));
        Ok(WithEdge(WithNode(WithNode(g, a, s0), b, s1), a, b, EdgeAttr(Strip(s0) + Strip(s1), Kind(bond))))
      else Ok(g)
  }

  /** The tokens of a bond list, in order; the first faulty token raises. */
  function AddTokens(g: GraphValue<NodeKey>, bonds: seq<string>): (r: Result<GraphValue<NodeKey>>)
    ensures r.Err? <==> exists k :: 0 <= k < |bonds| && Separator(bonds[k]).None?
    decreases |bonds|
  {
    if bonds == [] then Ok(g)
    else match AddToken(g, bonds[0])
      case Err(e) => Err(e)
      case Ok(g1) =>
        var r := AddTokens(g1, bonds[1..]);
        assert forall k :: 1 <= k < |bonds| ==> bonds[k] == bonds[1..][k - 1];
        r
  }

  /** `for bond in bonds: ...` on a graph object, as the three builders run it. */
  method AddBondTokens(G: Graph<NodeKey>, bonds: seq<string>) returns (err: Option<string>)
    requires G.Valid()
    modifies G
    ensures G.Valid()
    ensures err.None? <==> AddTokens(old(G.Value()), bonds).Ok?
    ensures err.None? ==> G.Value() == AddTokens(old(G.Value()), bonds).value
    ensures err.Some? ==> AddTokens(old(G.Value()), bonds) == Err(err.value)
  {
    var i := 0;
    while i < |bonds|
      invariant 0 <= i <= |bonds| && G.Valid()
      invariant AddTokens(G.Value(), bonds[i..]) == AddTokens(old(G.Value()), bonds)
    {
      assert bonds[i..][1..] == bonds[i + 1..];
      err := AddBondToken(G, bonds[i]);
      if err.Some? {
        return;
      }
      i := i + 1;
    }
    err := None;
  }

  /** The body of the token loop. */
  method AddBondToken(G: Graph<NodeKey>, bond: string) returns (err: Option<string>)
    requires G.Valid()
    modifies G
    ensures G.Valid()
    ensures err.None? <==> AddToken(old(G.Value()), bond).Ok?
    ensures err.None? ==> G.Value() == AddToken(old(G.Value()), bond).value
    ensures err.Some? ==> AddToken(old(G.Value()), bond) == Err(err.value)
  {
    var sep := Separator(bond);
    if sep.None? {
      return Some("bond type error");
    }
    var parts := SplitOn(bond, [sep.value]);
    if |parts| == 2 {
      var s0, s1 := Letters(parts[0]), Letters(parts[1]);
      var a, b := StrKey(Digits(parts[0])), StrKey(Digits(parts[1]));
      G.AddNode(a, s0);
      G.AddNode(b, s1);
      G.AddEdge(a, b, EdgeAttr(Strip(s0) + Strip(s1), Kind(bond)));
    }
    err := None;
  }

  /** A bond as the token's author means it: symbol, id, bond character, symbol, id. */
  datatype BondText = BondText(symbol1: string, id1: string, op: char, symbol2: string, id2: string)

  /** Letters-only symbols, digits-only ids and one of the three bond characters. */
  predicate Plain(t: BondText) {
    AllLetters(t.symbol1) && AllDigits(t.id1) && AllLetters(t.symbol2) && AllDigits(t.id2)
    && t.op in "-=#"
  }

  /** The token `C1-H2` for `BondText("C", "1", '-', "H", "2")`. */
  function Render(t: BondText): string {
    t.symbol1 + t.id1 + [t.op] + t.symbol2 + t.id2
  }

  function OpKind(op: char): int {
    if op == '=' then 2 else if op == '#' then 3 else 1
  }

  lemma {:induction false} LettersAppend(a: string, b: string)
    ensures Letters(a + b) == Letters(a) + Letters(b)
    decreases |a|
  {
    if a != [] {
      assert (a + b)[0] == a[0] && (a + b)[1..] == a[1..] + b;
      LettersAppend(a[1..], b);
    } else {
      assert a + b == b;
    }
  }

  lemma {:induction false} DigitsAppend(a: string, b: string)
    ensures Digits(a + b) == Digits(a) + Digits(b)
    decreases |a|
  {
    if a != [] {
      assert (a + b)[0] == a[0] && (a + b)[1..] == a[1..] + b;
      DigitsAppend(a[1..], b);
    } else {
      assert a + b == b;
    }
  }

  lemma {:induction false} LettersOnly(s: string)
    ensures AllLetters(s) ==> Letters(s) == s
    ensures AllDigits(s) ==> Letters(s) == []
    decreases |s|
  {
    if s != [] {
      LettersOnly(s[1..]);
    }
  }

  lemma {:induction false} DigitsOnly(s: string)
    ensures AllDigits(s) ==> Digits(s) == s
    ensures AllLetters(s) ==> Digits(s) == []
    decreases |s|
  {
    if s != [] {
      DigitsOnly(s[1..]);
    }
  }

  /** Neither side of a plain token holds a bond character. */
  lemma SideHasNoOp(sym: string, id: string, c: char)
    requires AllLetters(sym) && AllDigits(id) && c in "-=#"
    ensures !HasChar(sym + id, c) && c !in sym + id
  {
    forall i | 0 <= i < |sym + id| ensures (sym + id)[i] != c {
      if i < |sym| { assert (sym + id)[i] == sym[i]; } else { assert (sym + id)[i] == id[i - |sym|]; }
    }
  }

  /** A plain token is split on its own bond character, into its two sides. */
  lemma RenderSplits(t: BondText)
    requires Plain(t)
    ensures Separator(Render(t)) == Some(t.op)
    ensures SplitOn(Render(t), [t.op]) == [t.symbol1 + t.id1, t.symbol2 + t.id2]
    ensures Kind(Render(t)) == OpKind(t.op)
  {
    var left, right := t.symbol1 + t.id1, t.symbol2 + t.id2;
    var s := Render(t);
    assert s == Join([left, right], [t.op]);
    assert s == left + [t.op] + right;
    SideHasNoOp(t.symbol1, t.id1, '-');
    SideHasNoOp(t.symbol2, t.id2, '-');
    SideHasNoOp(t.symbol1, t.id1, '=');
    SideHasNoOp(t.symbol2, t.id2, '=');
    SideHasNoOp(t.symbol1, t.id1, '#');
    SideHasNoOp(t.symbol2, t.id2, '#');
    assert s[|left|] == t.op;
    assert forall c :: c in s <==> c in left || c == t.op || c in right;
    SplitOnJoin([left, right], t.op);
  }

  /** One side of a plain token gives back its symbol and its id. */
  lemma SideReads(sym: string, id: string)
    requires AllLetters(sym) && AllDigits(id)
    ensures Letters(sym + id) == sym && Digits(sym + id) == id && Strip(sym) == sym
  {
    LettersAppend(sym, id);
    DigitsAppend(sym, id);
    LettersOnly(sym);
    LettersOnly(id);
    DigitsOnly(sym);
    DigitsOnly(id);
    StripNoSpace(sym);
  }

  /**
   * Reading a rendered plain token gives back what was rendered: node `id1` gets
   * `symbol1`, node `id2` gets `symbol2`, and the edge between them carries
   * `symbol1 + symbol2` and the type of the bond character.
   */
  lemma RenderRead(g: GraphValue<NodeKey>, t: BondText)
    requires Plain(t)
    ensures var a, b := StrKey(t.id1), StrKey(t.id2);
      AddToken(g, Render(t)) == Ok(WithEdge(WithNode(WithNode(g, a, t.symbol1), b, t.symbol2),
                                            a, b, EdgeAttr(t.symbol1 + t.symbol2, OpKind(t.op))))
  {
    RenderSplits(t);
    SideReads(t.symbol1, t.id1);
    SideReads(t.symbol2, t.id2);
  }

  /**
   * A node is known by its digits alone: when both sides carry the same digits the
   * token adds one node, which ends with the second side's symbol, and a self-loop.
   */
  lemma SameIdCollapses(g: GraphValue<NodeKey>, t: BondText)
    requires Plain(t) && t.id1 == t.id2 && !g.HasNode(StrKey(t.id1))
    ensures var a := StrKey(t.id1);
      AddToken(g, Render(t)) == Ok(GraphValue(g.order + [a], g.symbol[a := t.symbol2],
                                              g.edges[{a} := EdgeAttr(t.symbol1 + t.symbol2, OpKind(t.op))], g.name))
  {
    RenderRead(g, t);
    SelfLoopShape(g, StrKey(t.id1), t.symbol1, t.symbol2, EdgeAttr(t.symbol1 + t.symbol2, OpKind(t.op)));
  }

  /** Adding node `a` twice and then the edge from `a` to itself: one node, the second symbol, a self-loop. */
  lemma SelfLoopShape(g: GraphValue<NodeKey>, a: NodeKey, s1: string, s2: string, attr: EdgeAttr)
    requires !g.HasNode(a)
    ensures WithEdge(WithNode(WithNode(g, a, s1), a, s2), a, a, attr)
      == GraphValue(g.order + [a], g.symbol[a := s2], g.edges[{a} := attr], g.name)
  {
    var g1 := WithNode(g, a, s2);
    assert WithNode(WithNode(g, a, s1), a, s2) == g1 by {
      AddNodeTwice(g, a, s1, s2);
    }
    assert {a, a} == {a};
  }

  /** A token that splits into other than two pieces leaves the graph as it is. */
  lemma NotTwoPieces(g: GraphValue<NodeKey>, bond: string)
    requires Separator(bond).Some? && |SplitOn(bond, [Separator(bond).value])| != 2
    ensures AddToken(g, bond) == Ok(g)
  {
  }

  /**
   * The type depends on the whole token, not on the character it was split on: a token
   * split on `-` that also holds `=` or `#` gets type 2 or 3.
   */
  lemma KindIgnoresSeparator(bond: string)
    requires '-' in bond
    ensures Separator(bond) == Some('-')
    ensures Kind(bond) == (if '=' in bond then 2 else if '#' in bond then 3 else 1)
  {
  }

  /** Bond lists are read one after the other: the tokens of `a + b` are those of `a`, then those of `b`. */
  lemma {:induction false} AddTokensAppend(g: GraphValue<NodeKey>, a: seq<string>, b: seq<string>)
    ensures AddTokens(g, a + b) == match AddTokens(g, a) case Err(e) => Err(e) case Ok(g1) => AddTokens(g1, b)
    decreases |a|
  {
    if a != [] {
      assert (a + b)[0] == a[0] && (a + b)[1..] == a[1..] + b;
      match AddToken(g, a[0]) {
        case Err(e) =>
        case Ok(g1) => AddTokensAppend(g1, a[1..], b);
      }
    } else {
      assert a + b == b;
    }
  }

  lemma {:induction false} AddTokensValid(g: GraphValue<NodeKey>, bonds: seq<string>)
    requires g.Valid() && AddTokens(g, bonds).Ok?
    ensures AddTokens(g, bonds).value.Valid()
    decreases |bonds|
  {
    if bonds != [] {
      var g1 := AddToken(g, bonds[0]).value;
      var parts := SplitOn(bonds[0], [Separator(bonds[0]).value]);
      if |parts| == 2 {
        var s0, s1 := Letters(parts[0]), Letters(parts[1]);
        var a, b := StrKey(Digits(parts[0])), StrKey(Digits(parts[1]));
        WithNodeValid(g, a, s0);
        WithNodeValid(WithNode(g, a, s0), b, s1);
        WithEdgeValid(WithNode(WithNode(g, a, s0), b, s1), a, b, EdgeAttr(Strip(s0) + Strip(s1), Kind(bonds[0])));
      }
      AddTokensValid(g1, bonds[1..]);
    }
  }
}
