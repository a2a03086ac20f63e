/** `Structure.create_formula`: the formula text of a list of element symbols. */
module Structure {
  import opened Wrappers
  import opened PyText

  /**
   * The keys of `{i: xs.count(i) for i in xs}`: the distinct symbols of `xs`, each
   * once, in order of first appearance.
   */
  function Distinct(xs: seq<string>): (r: seq<string>)
    ensures forall x :: x in r <==> x in xs
    ensures forall i, j :: 0 <= i < j < |r| ==> r[i] != r[j]
  {
    if xs == [] then []
    else
      var d := Distinct(xs[..|xs| - 1]);
      var x := xs[|xs| - 1];
      assert xs == xs[..|xs| - 1] + [x];
      if x in d then d else d + [x]
  }

  function Count(xs: seq<string>, x: string): nat {
    multiset(xs)[x]
  }

  /** The dict `{i: xs.count(i) for i in xs}` as its list of items. */
  function Tally(xs: seq<string>): (r: seq<(string, nat)>)
    ensures |r| == |Distinct(xs)|
    ensures forall k :: 0 <= k < |r| ==> r[k] == (Distinct(xs)[k], Count(xs, Distinct(xs)[k]))
  {
    var d := Distinct(xs);
    seq(|d|, k requires 0 <= k < |d| => (d[k], Count(xs, d[k])))
  }

  /** The text for one item: the symbol, then its count unless the count is 1. */
  function Piece(item: (string, nat)): string {
    item.0 + CountText(item.1)
  }

  /** The count as written after a symbol: nothing for 1, else its decimal digits. */
  function CountText(n: nat): (c: string)
    ensures AllDigits(c) && (c == [] <==> n == 1)
    ensures n != 1 ==> DigitsValue(c) == n
  {
    if n == 1 then "" else NatToStringDigits(n); NatToString(n)
  }

  function Render(items: seq<(string, nat)>): string {
    if items == [] then "" else Piece(items[0]) + Render(items[1..])
  }

  lemma {:induction false} RenderAppend(a: seq<(string, nat)>, b: seq<(string, nat)>)
    ensures Render(a + b) == Render(a) + Render(b)
  {
    if a == [] {
      assert a + b == b;
    } else {
      var p := Piece(a[0]);
      assert (a + b)[0] == a[0];
      assert (a + b)[1..] == a[1..] + b;
      RenderAppend(a[1..], b);
      assert Render(a + b) == p + (Render(a[1..]) + Render(b));
      assert Render(a) == p + Render(a[1..]);
    }
  }

  lemma RenderSnoc(items: seq<(string, nat)>, key: string, value: nat)
    ensures Render(items + [(key, value)])
      == Render(items) + (if value == 1 then key else key + NatToString(value))
  {
    RenderAppend(items, [(key, value)]);
    assert Render([(key, value)]) == Piece((key, value));
  }

  /**
   * `create_formula`: fails on an empty list; otherwise concatenates, for each distinct
   * symbol in order of first appearance, the symbol and its count (omitted when 1),
   * then strips surrounding white space.
   */
  method CreateFormula(atomElements: seq<string>) returns (r: Result<string>)
    ensures r.Err? <==> atomElements == []
    ensures r.Ok? ==> r.value == Strip(Render(Tally(atomElements)))
  {
    if |atomElements| == 0 {
      return Err("atom elements list is empty");
    }
    var items := Tally(atomElements);
    var elList := "";
    var i := 0;
    while i < |items|
      invariant 0 <= i <= |items|
      invariant elList == Render(items[..i])
    {
      var key := items[i].0;
      var value := items[i].1;
      var el;
      if value == 1 {
        el := key;
      } else {
        el := key + NatToString(value);
      }
      RenderSnoc(items[..i], key, value);
      assert items[..i + 1] == items[..i] + [(key, value)];
      elList := elList + el;
      i := i + 1;
    }
    assert items[..i] == items;
    return Ok(Strip(elList));
  }

  /** Distinct symbols keep the order in which they first appear in the input. */
  lemma {:induction false} DistinctFirstAppearance(xs: seq<string>, i: nat, j: nat)
    requires i < j < |Distinct(xs)|
    ensures IndexOf(xs, Distinct(xs)[i]).value < IndexOf(xs, Distinct(xs)[j]).value
  {
    var pre := xs[..|xs| - 1];
    var x := xs[|xs| - 1];
    var d := Distinct(pre);
    assert xs == pre + [x];
    IndexOfPrefix(pre, x, Distinct(xs)[i]);
    if j < |d| {
      IndexOfPrefix(pre, x, Distinct(xs)[j]);
      DistinctFirstAppearance(pre, i, j);
    } else {
      assert Distinct(xs)[j] == x && x !in pre;
      assert IndexOf(xs, x).value == |pre| by { IndexOfLast(pre, x); }
    }
  }

  lemma {:induction false} IndexOfPrefix(pre: seq<string>, x: string, y: string)
    requires y in pre
    ensures IndexOf(pre + [x], y) == IndexOf(pre, y)
  {
    assert pre != [];
    if pre[0] != y {
      assert (pre + [x])[1..] == pre[1..] + [x];
      IndexOfPrefix(pre[1..], x, y);
    }
  }

  lemma {:induction false} IndexOfLast(pre: seq<string>, x: string)
    requires x !in pre
    ensures IndexOf(pre + [x], x) == Some(|pre|)
  {
    if pre != [] {
      assert (pre + [x])[1..] == pre[1..] + [x];
      IndexOfLast(pre[1..], x);
    }
  }

  function SumCounts(items: seq<(string, nat)>): nat {
    if items == [] then 0 else items[0].1 + SumCounts(items[1..])
  }

  function SumOver(d: seq<string>, xs: seq<string>): nat {
    if d == [] then 0 else Count(xs, d[0]) + SumOver(d[1..], xs)
  }

  lemma {:induction false} SumOverAppendSym(d: seq<string>, xs: seq<string>, x: string)
    requires forall i, j :: 0 <= i < j < |d| ==> d[i] != d[j]
    ensures SumOver(d, xs + [x]) == SumOver(d, xs) + (if x in d then 1 else 0)
  {
    if d != [] {
      assert multiset(xs + [x]) == multiset(xs) + multiset{x};
      SumOverAppendSym(d[1..], xs, x);
      assert x in d <==> x == d[0] || x in d[1..];
    }
  }

  lemma {:induction false} SumOverAppendKey(d: seq<string>, x: string, xs: seq<string>)
    ensures SumOver(d + [x], xs) == SumOver(d, xs) + Count(xs, x)
  {
    if d != [] {
      assert (d + [x])[1..] == d[1..] + [x];
      SumOverAppendKey(d[1..], x, xs);
    }
  }

  /** The counts over the distinct symbols add up to the length of the input. */
  lemma {:induction false} SumOverDistinct(xs: seq<string>)
    ensures SumOver(Distinct(xs), xs) == |xs|
  {
    if xs != [] {
      var pre := xs[..|xs| - 1];
      var x := xs[|xs| - 1];
      assert xs == pre + [x];
      var d := Distinct(pre);
      SumOverDistinct(pre);
      SumOverAppendSym(d, pre, x);
      if x !in d {
        SumOverAppendKey(d, x, xs);
        assert Count(pre, x) == 0;
        assert multiset(xs) == multiset(pre) + multiset{x};
      }
    }
  }

  lemma {:induction false} SumCountsTally(d: seq<string>, xs: seq<string>, items: seq<(string, nat)>)
    requires |items| == |d| && forall k :: 0 <= k < |d| ==> items[k] == (d[k], Count(xs, d[k]))
    ensures SumCounts(items) == SumOver(d, xs)
  {
    if d != [] {
      SumCountsTally(d[1..], xs, items[1..]);
    }
  }

  /** The counts of the items add up to the length of the input. */
  lemma TallySum(xs: seq<string>)
    ensures SumCounts(Tally(xs)) == |xs|
  {
    SumCountsTally(Distinct(xs), xs, Tally(xs));
    SumOverDistinct(xs);
  }

  /**
   * There is one item for each symbol of the input, holding the symbol's number of
   * occurrences, which is at least 1.
   */
  lemma TallyItems(xs: seq<string>)
    ensures forall k :: 0 <= k < |Tally(xs)| ==> Tally(xs)[k].1 >= 1 && Tally(xs)[k].1 == multiset(xs)[Tally(xs)[k].0]
    ensures forall x :: x in xs <==> exists k :: 0 <= k < |Tally(xs)| && Tally(xs)[k].0 == x
  {
    forall k | 0 <= k < |Tally(xs)| ensures Tally(xs)[k].1 >= 1 {
      assert Distinct(xs)[k] in xs;
    }
    forall x | x in xs ensures exists k :: 0 <= k < |Tally(xs)| && Tally(xs)[k].0 == x {
      var k :| 0 <= k < |Distinct(xs)| && Distinct(xs)[k] == x;
      assert Tally(xs)[k].0 == x;
    }
  }

  predicate IsUpper(c: char) { 'A' <= c <= 'Z' }
  predicate IsLower(c: char) { 'a' <= c <= 'z' }

  /** A chemical element symbol: a capital letter followed by small letters. */
  predicate ElementSymbol(s: string) {
    |s| >= 1 && IsUpper(s[0]) && forall i :: 1 <= i < |s| ==> IsLower(s[i])
  }

  function LowerRun(s: string, i: nat): (n: nat)
    requires i <= |s|
    ensures i + n <= |s|
    ensures forall k :: i <= k < i + n ==> IsLower(s[k])
    ensures i + n == |s| || !IsLower(s[i + n])
    decreases |s| - i
  {
    if i < |s| && IsLower(s[i]) then 1 + LowerRun(s, i + 1) else 0
  }

  function DigitRun(s: string, i: nat): (n: nat)
    requires i <= |s|
    ensures i + n <= |s|
    ensures forall k :: i <= k < i + n ==> IsDigit(s[k])
    ensures i + n == |s| || !IsDigit(s[i + n])
    decreases |s| - i
  {
    if i < |s| && IsDigit(s[i]) then 1 + DigitRun(s, i + 1) else 0
  }

  /** The first item of a formula text and the number of characters it takes. */
  function FirstItem(s: string): (r: ((string, nat), nat))
    requires s != []
    ensures 1 <= r.1 <= |s|
  {
    var l := 1 + LowerRun(s, 1);
    var n := DigitRun(s, l);
    ((s[..l], ItemCount(s[l..l + n])), l + n)
  }

  /** The count written after a symbol: 1 when no digits are written. */
  function ItemCount(d: string): nat
    requires AllDigits(d)
  {
    if d == [] then 1 else DigitsValue(d)
  }

  /**
   * Reads a formula back: each symbol is a first character and the small letters after
   * it, and a count that is not written is 1.
   */
  function ParseFormula(s: string): seq<(string, nat)>
    decreases |s|
  {
    if s == [] then []
    else
      var f := FirstItem(s);
      [f.0] + ParseFormula(s[f.1..])
  }

  lemma {:induction false} LowerRunUpTo(s: string, i: nat, j: nat)
    requires i <= j <= |s| && (forall k :: i <= k < j ==> IsLower(s[k]))
    requires j == |s| || !IsLower(s[j])
    ensures LowerRun(s, i) == j - i
    decreases j - i
  {
    if i < j {
      LowerRunUpTo(s, i + 1, j);
    }
  }

  lemma {:induction false} DigitRunUpTo(s: string, i: nat, j: nat)
    requires i <= j <= |s| && (forall k :: i <= k < j ==> IsDigit(s[k]))
    requires j == |s| || !IsDigit(s[j])
    ensures DigitRun(s, i) == j - i
    decreases j - i
  {
    if i < j {
      DigitRunUpTo(s, i + 1, j);
    }
  }

  lemma ParsePiece(item: (string, nat), rest: string)
    requires ElementSymbol(item.0) && item.1 >= 1
    requires rest == [] || IsUpper(rest[0])
    ensures ParseFormula(Piece(item) + rest) == [item] + ParseFormula(rest)
  {
    var c := CountText(item.1);
    assert Piece(item) + rest == item.0 + (c + rest);
    ParseSymbolCount(item.0, c, rest);
  }

  lemma ParseSymbolCount(sym: string, c: string, rest: string)
    requires ElementSymbol(sym) && AllDigits(c)
    requires rest == [] || IsUpper(rest[0])
    ensures ParseFormula(sym + (c + rest)) == [(sym, ItemCount(c))] + ParseFormula(rest)
  {
    var s := sym + (c + rest);
    FirstItemParts(sym, c, rest);
    PartsOf(sym, c, rest);
    ParseUnfold(s, sym, ItemCount(c), |sym| + |c|, rest);
  }

  /** The first item of a symbol, its count text and a following item is that symbol and count. */
  lemma FirstItemParts(sym: string, c: string, rest: string)
    requires ElementSymbol(sym) && AllDigits(c)
    requires rest == [] || IsUpper(rest[0])
    ensures FirstItem(sym + (c + rest)).0.0 == sym
    ensures FirstItem(sym + (c + rest)).0.1 == ItemCount(c)
    ensures FirstItem(sym + (c + rest)).1 == |sym| + |c|
  {
    var s := sym + (c + rest);
    SymbolRun(sym, c, rest);
    CountRun(sym, c, rest);
    PartsOf(sym, c, rest);
    FirstItemAt(s, |sym|, |c|);
  }

  /** The small letters after the first character are exactly the rest of the symbol. */
  lemma SymbolRun(sym: string, c: string, rest: string)
    requires ElementSymbol(sym) && AllDigits(c)
    requires rest == [] || IsUpper(rest[0])
    ensures LowerRun(sym + (c + rest), 1) == |sym| - 1
  {
    var s := sym + (c + rest);
    forall k | 1 <= k < |sym| ensures IsLower(s[k]) {
      assert s[k] == sym[k];
    }
    if c != [] {
      assert s[|sym|] == c[0];
    } else if rest != [] {
      assert s[|sym|] == rest[0];
    }
    LowerRunUpTo(s, 1, |sym|);
  }

  /** The digits after the symbol are exactly the count text. */
  lemma CountRun(sym: string, c: string, rest: string)
    requires AllDigits(c)
    requires rest == [] || IsUpper(rest[0])
    ensures DigitRun(sym + (c + rest), |sym|) == |c|
  {
    var s := sym + (c + rest);
    forall k | |sym| <= k < |sym| + |c| ensures IsDigit(s[k]) {
      assert s[k] == c[k - |sym|];
    }
    if rest != [] {
      assert s[|sym| + |c|] == rest[0];
    }
    DigitRunUpTo(s, |sym|, |sym| + |c|);
  }

  lemma PartsOf(sym: string, c: string, rest: string)
    ensures (sym + (c + rest))[..|sym|] == sym
    ensures (sym + (c + rest))[|sym|..|sym| + |c|] == c
    ensures (sym + (c + rest))[|sym| + |c|..] == rest
  {
    assert sym + (c + rest) == (sym + c) + rest;
  }

  lemma FirstItemAt(s: string, l: nat, n: nat)
    requires 1 <= l && l + n <= |s|
    requires LowerRun(s, 1) == l - 1 && DigitRun(s, l) == n
    ensures AllDigits(s[l..l + n])
    ensures FirstItem(s) == ((s[..l], ItemCount(s[l..l + n])), l + n)
  {
  }

  lemma ParseUnfold(s: string, sym: string, count: nat, k: nat, rest: string)
    requires s != [] && k <= |s| && s[k..] == rest
    requires FirstItem(s).0.0 == sym && FirstItem(s).0.1 == count && FirstItem(s).1 == k
    ensures ParseFormula(s) == [(sym, count)] + ParseFormula(rest)
  {
  }

  /** Reading back the rendering of items with element symbols and positive counts returns them. */
  lemma {:induction false} ParseRender(items: seq<(string, nat)>)
    requires forall k :: 0 <= k < |items| ==> ElementSymbol(items[k].0) && items[k].1 >= 1
    ensures ParseFormula(Render(items)) == items
  {
    if items != [] {
      ParseRender(items[1..]);
      var rest := Render(items[1..]);
      if items[1..] != [] {
        assert rest == Piece(items[1..][0]) + Render(items[1..][1..]);
        assert rest[0] == items[1].0[0];
      }
      ParsePiece(items[0], rest);
    }
  }

  lemma {:induction false} RenderNoSpace(items: seq<(string, nat)>)
    requires forall k :: 0 <= k < |items| ==> ElementSymbol(items[k].0)
    ensures NoSpace(Render(items))
  {
    if items != [] {
      RenderNoSpace(items[1..]);
      var p := Piece(items[0]);
      var c := if items[0].1 == 1 then "" else NatToString(items[0].1);
      assert p == items[0].0 + c;
      assert NoSpace(p) by {
        forall k | 0 <= k < |p| ensures !IsSpace(p[k]) {
          if k < |items[0].0| {
            assert p[k] == items[0].0[k];
          } else {
            assert p[k] == c[k - |items[0].0|];
          }
        }
      }
      var r := Render(items);
      assert r == p + Render(items[1..]);
      forall k | 0 <= k < |r| ensures !IsSpace(r[k]) {
        if k >= |p| { assert r[k] == Render(items[1..])[k - |p|]; }
      }
    }
  }

  /**
   * For element symbols the formula reads back as each distinct symbol, in order of
   * first appearance, with its number of occurrences; those numbers add up to the
   * number of atoms.
   */
  lemma FormulaRoundTrip(xs: seq<string>)
    requires forall k :: 0 <= k < |xs| ==> ElementSymbol(xs[k])
    ensures ParseFormula(Strip(Render(Tally(xs)))) == Tally(xs)
    ensures SumCounts(ParseFormula(Strip(Render(Tally(xs))))) == |xs|
  {
    TallyReadable(xs);
    var items := Tally(xs);
    RenderNoSpace(items);
    StripNoSpace(Render(items));
    ParseRender(items);
    TallySum(xs);
  }

  lemma TallyReadable(xs: seq<string>)
    requires forall k :: 0 <= k < |xs| ==> ElementSymbol(xs[k])
    ensures forall k :: 0 <= k < |Tally(xs)| ==> ElementSymbol(Tally(xs)[k].0) && Tally(xs)[k].1 >= 1
  {
    forall k | 0 <= k < |Tally(xs)| ensures ElementSymbol(Tally(xs)[k].0) && Tally(xs)[k].1 >= 1 {
      var x := Distinct(xs)[k];
      assert x in xs;
      var j :| 0 <= j < |xs| && xs[j] == x;
    }
  }

  lemma MethaneDistinct()
    ensures Distinct(["C", "H", "H", "H", "H"]) == ["C", "H"]
  {
    assert ["C"][..0] == [];
    assert ["C", "H"][..1] == ["C"];
    assert ["C", "H", "H"][..2] == ["C", "H"];
    assert ["C", "H", "H", "H"][..3] == ["C", "H", "H"];
    assert ["C", "H", "H", "H", "H"][..4] == ["C", "H", "H", "H"];
  }

  lemma MethaneTally()
    ensures Tally(["C", "H", "H", "H", "H"]) == [("C", 1), ("H", 4)]
  {
    var xs := ["C", "H", "H", "H", "H"];
    MethaneDistinct();
    assert multiset(xs)["C"] == 1 && multiset(xs)["H"] == 4;
  }

  lemma MethaneRender()
    ensures Render([("C", 1), ("H", 4)]) == "CH4"
  {
    var items := [("C", 1), ("H", 4)];
    assert NatToString(4) == "4";
    assert items[1..] == [("H", 4)];
    assert Render([("H", 4)]) == "H4";
  }

  /** C, H, H, H, H gives "CH4". */
  lemma MethaneFormula()
    ensures Strip(Render(Tally(["C", "H", "H", "H", "H"]))) == "CH4"
  {
    MethaneTally();
    MethaneRender();
    StripNoSpace("CH4");
  }
}
