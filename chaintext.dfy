/**
 * The chain notation read by the two chain compilers, `molecule.py` and
 * `molconstructor.py`: the token shapes their regular expressions recognise, a printer
 * for them, the main-chain test and `extract_highest_index`.
 *
 * A chain is a list of tokens such as `C1-C2` (a bond), `C5-*` and `*=C1` (gates,
 * where the chain attaches to another), and `C1*{Chain1}` or `{Chain1}*C1` (a
 * reference from the main chain to the chain named `Chain1`).
 */
module ChainText {
  import opened Wrappers
  import opened PyText
  import opened PyDict

  /** The bond operators `[-=#]`. */
  predicate IsOp(c: char) { c == '-' || c == '=' || c == '#' }

  /** The character classes of the patterns: `[A-Za-z]`, `\d`, `[A-Za-z0-9]` and `\*`. */
  datatype Class = Letters | Digits | Alnums | StarsOnly

  predicate In(c: char, k: Class) {
    match k
    case Letters => IsLetter(c)
    case Digits => IsDigit(c)
    case Alnums => IsLetter(c) || IsDigit(c)
    case StarsOnly => c == '*'
  }

  /** The end of the longest run of characters of class `k` that starts at `i`. */
  function RunEnd(s: string, i: nat, k: Class): (j: nat)
    requires i <= |s|
    ensures i <= j <= |s|
    ensures forall m :: i <= m < j ==> In(s[m], k)
    ensures j < |s| ==> !In(s[j], k)
    decreases |s| - i
  {
    if i < |s| && In(s[i], k) then RunEnd(s, i + 1, k) else i
  }

  /** A run of class `k` from `i` that stops at `j` is the longest one. */
  lemma RunEndAt(s: string, i: nat, j: nat, k: Class)
    requires i <= j <= |s|
    requires forall m :: i <= m < j ==> In(s[m], k)
    requires j < |s| ==> !In(s[j], k)
    ensures RunEnd(s, i, k) == j
  {
  }

  /**
   * A token as the regular expressions of the compilers see it; each regex is anchored at
   * the start only, so whatever follows the recognised prefix is ignored. Atom indices of
   * bonds and gates are kept as numbers (`int(...)`), those of references as text.
   */
  datatype Token =
    | BondTok(a: string, i: nat, op: char, b: string, j: nat)      // A i op B j
    | GateAfterTok(a: string, i: nat, op: char, port: string)      // A i op *…
    | GateBeforeTok(port: string, op: char, a: string, i: nat)     // *… op A i
    | RefAfterTok(a: string, idx: string, name: string)            // A i *{name}
    | RefBeforeTok(name: string, a: string, idx: string)           // {name}* A i
    | OtherTok

  /** Which of the token patterns matches `s`; no string matches two of them. */
  function Scan(s: string): Token {
    if |s| == 0 then OtherTok
    else if s[0] == '{' then ScanRefBefore(s)
    else if s[0] == '*' then ScanGateBefore(s)
    else if IsLetter(s[0]) then ScanAtomFirst(s)
    else OtherTok
  }

  /** `\{([A-Za-z0-9]+)\}\*([A-Za-z]+)(\d+)`. */
  function ScanRefBefore(s: string): Token
    requires |s| > 0
  {
    var n := RunEnd(s, 1, Alnums);
    if n > 1 && n + 1 < |s| && s[n] == '}' && s[n + 1] == '*' then
      var a := RunEnd(s, n + 2, Letters);
      var d := RunEnd(s, a, Digits);
      if n + 2 < a < d then RefBeforeTok(s[1..n], s[n + 2..a], s[a..d]) else OtherTok
    else OtherTok
  }

  /** `(\*+)([-=#])([A-Za-z]+)(\d+)`. */
  function ScanGateBefore(s: string): Token {
    var st := RunEnd(s, 0, StarsOnly);
    if 0 < st < |s| && IsOp(s[st]) then
      var a := RunEnd(s, st + 1, Letters);
      var d := RunEnd(s, a, Digits);
      if st + 1 < a < d then GateBeforeTok(s[..st], s[st], s[st + 1..a], DigitsValue(s[a..d])) else OtherTok
    else OtherTok
  }

  /**
   * `([A-Za-z]+)(\d+)` followed by `([-=#])([A-Za-z]+)(\d+)` (a bond), by `([-=#])(\*+)`
   * (a gate) or by `\*\{([A-Za-z0-9]+)\}` (a reference).
   */
  function ScanAtomFirst(s: string): Token {
    var a := RunEnd(s, 0, Letters);
    var d := RunEnd(s, a, Digits);
    if !(0 < a < d && d + 1 < |s|) then OtherTok
    else if IsOp(s[d]) && s[d + 1] == '*' then
      GateAfterTok(s[..a], DigitsValue(s[a..d]), s[d], s[d + 1..RunEnd(s, d + 1, StarsOnly)])
    else if IsOp(s[d]) && IsLetter(s[d + 1]) then
      var b := RunEnd(s, d + 1, Letters);
      var e := RunEnd(s, b, Digits);
      if b < e then BondTok(s[..a], DigitsValue(s[a..d]), s[d], s[d + 1..b], DigitsValue(s[b..e])) else OtherTok
    else if s[d] == '*' && s[d + 1] == '{' then
      var n := RunEnd(s, d + 2, Alnums);
      if d + 2 < n < |s| && s[n] == '}' then RefAfterTok(s[..a], s[a..d], s[d + 2..n]) else OtherTok
    else OtherTok
  }

  predicate Word(s: string) { s != [] && forall k :: 0 <= k < |s| ==> In(s[k], Letters) }
  predicate Number(s: string) { s != [] && forall k :: 0 <= k < |s| ==> In(s[k], Digits) }
  predicate Name(s: string) { s != [] && forall k :: 0 <= k < |s| ==> In(s[k], Alnums) }
  predicate Stars(s: string) { s != [] && forall k :: 0 <= k < |s| ==> In(s[k], StarsOnly) }

  /** The pieces of a recognised token have the shapes their patterns demand. */
  predicate WellFormed(t: Token) {
    match t
    case BondTok(a, _, op, b, _) => Word(a) && IsOp(op) && Word(b)
    case GateAfterTok(a, _, op, port) => Word(a) && IsOp(op) && Stars(port)
    case GateBeforeTok(port, op, a, _) => Stars(port) && IsOp(op) && Word(a)
    case RefAfterTok(a, idx, name) => Word(a) && Number(idx) && Name(name)
    case RefBeforeTok(name, a, idx) => Name(name) && Word(a) && Number(idx)
    case OtherTok => false
  }

  /** A token written out, indices in decimal. */
  function Text(t: Token): string {
    match t
    case BondTok(a, i, op, b, j) => a + NatToString(i) + [op] + b + NatToString(j)
    case GateAfterTok(a, i, op, port) => a + NatToString(i) + [op] + port
    case GateBeforeTok(port, op, a, i) => port + [op] + a + NatToString(i)
    case RefAfterTok(a, idx, name) => a + idx + "*{" + name + "}"
    case RefBeforeTok(name, a, idx) => "{" + name + "}*" + a + idx
    case OtherTok => ""
  }

  /** Whatever the scanner recognises is well formed. */
  lemma ScanWellFormed(s: string)
    ensures Scan(s) != OtherTok ==> WellFormed(Scan(s))
  {
    if |s| > 0 {
      if s[0] == '{' { ScanRefBeforeWellFormed(s); }
      else if s[0] == '*' { ScanGateBeforeWellFormed(s); }
      else if IsLetter(s[0]) { ScanAtomFirstWellFormed(s); }
    }
  }

  lemma ScanRefBeforeWellFormed(s: string)
    requires |s| > 0
    ensures ScanRefBefore(s) != OtherTok ==> WellFormed(ScanRefBefore(s))
  {
  }

  lemma ScanGateBeforeWellFormed(s: string)
    ensures ScanGateBefore(s) != OtherTok ==> WellFormed(ScanGateBefore(s))
  {
  }

  lemma ScanAtomFirstWellFormed(s: string)
    ensures ScanAtomFirst(s) != OtherTok ==> WellFormed(ScanAtomFirst(s))
  {
  }

  /** Writing a well-formed token out and scanning it gives the token back. */
  lemma ScanText(t: Token)
    requires WellFormed(t)
    ensures Scan(Text(t)) == t
  {
    match t
    case BondTok(a, i, op, b, j) => ScanBondText(a, i, op, b, j);
    case GateAfterTok(a, i, op, port) => ScanGateAfterText(a, i, op, port);
    case GateBeforeTok(port, op, a, i) => ScanGateBeforeText(port, op, a, i);
    case RefAfterTok(a, idx, name) => ScanRefAfterText(a, idx, name);
    case RefBeforeTok(name, a, idx) => ScanRefBeforeText(name, a, idx);
  }

  // The scanner on a string cut into pieces at known places.

  /** A piece `s[i..j]` of class `k` followed by a character not of that class is the run from `i`. */
  lemma RunPiece(s: string, i: nat, j: nat, k: Class)
    requires i <= j <= |s|
    requires forall m :: 0 <= m < j - i ==> In(s[i..j][m], k)
    requires j < |s| ==> !In(s[j], k)
    ensures RunEnd(s, i, k) == j
  {
    forall m | i <= m < j ensures In(s[m], k) {
      assert s[m] == s[i..j][m - i];
    }
    RunEndAt(s, i, j, k);
  }

  lemma ScanAtBond(s: string, p1: nat, p2: nat, p3: nat)
    requires p1 <= p2 && p2 + 1 <= p3 <= |s|
    requires Word(s[..p1]) && Number(s[p1..p2]) && IsOp(s[p2]) && Word(s[p2 + 1..p3]) && Number(s[p3..])
    ensures Scan(s) == BondTok(s[..p1], DigitsValue(s[p1..p2]), s[p2], s[p2 + 1..p3], DigitsValue(s[p3..]))
  {
    AtomRuns(s, p1, p2);
    assert s[p2 + 1..p3][0] == s[p2 + 1];
    AtomRunsFrom(s, p2 + 1, p3);
    assert s[p3..] == s[p3..|s|];
    BondAtRuns(s, p1, p2, p3);
  }

  lemma BondAtRuns(s: string, p1: nat, p2: nat, p3: nat)
    requires 0 < p1 < p2 && p2 + 1 < p3 < |s| && IsLetter(s[0])
    requires RunEnd(s, 0, Letters) == p1 && RunEnd(s, p1, Digits) == p2
    requires IsOp(s[p2]) && IsLetter(s[p2 + 1]) && RunEnd(s, p2 + 1, Letters) == p3 && RunEnd(s, p3, Digits) == |s|
    ensures Scan(s) == BondTok(s[..p1], DigitsValue(s[p1..p2]), s[p2], s[p2 + 1..p3], DigitsValue(s[p3..]))
  {
    assert s[p3..] == s[p3..|s|];
  }

  /** `s` opens with a word `s[..p1]` and a number `s[p1..p2]` that is not followed by a digit. */
  lemma AtomRuns(s: string, p1: nat, p2: nat)
    requires p1 <= p2 <= |s| && Word(s[..p1]) && Number(s[p1..p2]) && (p2 < |s| ==> !IsDigit(s[p2]))
    ensures IsLetter(s[0]) && RunEnd(s, 0, Letters) == p1 && RunEnd(s, p1, Digits) == p2
  {
    assert s[..p1] == s[0..p1];
    assert s[..p1][0] == s[0] && s[p1..p2][0] == s[p1];
    RunPiece(s, 0, p1, Letters);
    RunPiece(s, p1, p2, Digits);
  }

  /** A word `s[i..p]` followed by a number that runs to the end. */
  lemma AtomRunsFrom(s: string, i: nat, p: nat)
    requires i <= p <= |s| && Word(s[i..p]) && Number(s[p..])
    ensures RunEnd(s, i, Letters) == p && RunEnd(s, p, Digits) == |s|
  {
    assert s[p..] == s[p..|s|];
    assert s[p..][0] == s[p];
    RunPiece(s, i, p, Letters);
    RunPiece(s, p, |s|, Digits);
  }

  lemma ScanAtGateAfter(s: string, p1: nat, p2: nat)
    requires p1 <= p2 < |s|
    requires Word(s[..p1]) && Number(s[p1..p2]) && IsOp(s[p2]) && Stars(s[p2 + 1..])
    ensures Scan(s) == GateAfterTok(s[..p1], DigitsValue(s[p1..p2]), s[p2], s[p2 + 1..])
  {
    assert s[..p1] == s[0..p1] && s[p2 + 1..] == s[p2 + 1..|s|];
    assert s[..p1][0] == s[0] && s[p1..p2][0] == s[p1] && s[p2 + 1..][0] == s[p2 + 1];
    RunPiece(s, 0, p1, Letters);
    RunPiece(s, p1, p2, Digits);
    RunPiece(s, p2 + 1, |s|, StarsOnly);
  }

  lemma ScanAtGateBefore(s: string, p1: nat, p2: nat)
    requires p1 < p2 <= |s|
    requires Stars(s[..p1]) && IsOp(s[p1]) && Word(s[p1 + 1..p2]) && Number(s[p2..])
    ensures Scan(s) == GateBeforeTok(s[..p1], s[p1], s[p1 + 1..p2], DigitsValue(s[p2..]))
  {
    assert s[..p1] == s[0..p1] && s[p2..] == s[p2..|s|];
    assert s[..p1][0] == s[0] && s[p1 + 1..p2][0] == s[p1 + 1] && s[p2..][0] == s[p2];
    RunPiece(s, 0, p1, StarsOnly);
    RunPiece(s, p1 + 1, p2, Letters);
    RunPiece(s, p2, |s|, Digits);
  }

  lemma ScanAtRefAfter(s: string, p1: nat, p2: nat, p3: nat)
    requires p1 <= p2 && p2 + 2 <= p3 < |s|
    requires Word(s[..p1]) && Number(s[p1..p2]) && s[p2] == '*' && s[p2 + 1] == '{'
    requires Name(s[p2 + 2..p3]) && s[p3] == '}'
    ensures Scan(s) == RefAfterTok(s[..p1], s[p1..p2], s[p2 + 2..p3])
  {
    assert s[..p1] == s[0..p1];
    assert s[..p1][0] == s[0] && s[p1..p2][0] == s[p1];
    RunPiece(s, 0, p1, Letters);
    RunPiece(s, p1, p2, Digits);
    RunPiece(s, p2 + 2, p3, Alnums);
  }

  lemma ScanAtRefBefore(s: string, n: nat, p1: nat)
    requires 1 <= n && n + 2 <= p1 <= |s| && s[0] == '{'
    requires Name(s[1..n]) && s[n] == '}' && s[n + 1] == '*' && Word(s[n + 2..p1]) && Number(s[p1..])
    ensures Scan(s) == RefBeforeTok(s[1..n], s[n + 2..p1], s[p1..])
  {
    assert s[p1..] == s[p1..|s|];
    assert s[n + 2..p1][0] == s[n + 2] && s[p1..][0] == s[p1];
    RunPiece(s, 1, n, Alnums);
    RunPiece(s, n + 2, p1, Letters);
    RunPiece(s, p1, |s|, Digits);
  }

  // Writing a token out puts its pieces at those places.

  lemma ScanBondText(a: string, i: nat, op: char, b: string, j: nat)
    requires Word(a) && IsOp(op) && Word(b)
    ensures Scan(Text(BondTok(a, i, op, b, j))) == BondTok(a, i, op, b, j)
  {
    NatToStringDigits(i);
    NatToStringDigits(j);
    ScanBondPieces(a, NatToString(i), op, b, NatToString(j));
  }

  /** A word, a number, a bond sign, a word and a number, in a row, read as a bond. */
  lemma ScanBondPieces(a: string, di: string, op: char, b: string, dj: string)
    requires Word(a) && Number(di) && IsOp(op) && Word(b) && Number(dj)
    ensures Scan(a + di + [op] + b + dj) == BondTok(a, DigitsValue(di), op, b, DigitsValue(dj))
  {
    var s := a + di + [op] + b + dj;
    var p1, p2 := |a|, |a| + |di|;
    var p3 := p2 + 1 + |b|;
    assert s[..p1] == a && s[p1..p2] == di && s[p2] == op && s[p2 + 1..p3] == b && s[p3..] == dj;
    ScanAtBond(s, p1, p2, p3);
  }

  lemma ScanGateAfterText(a: string, i: nat, op: char, port: string)
    requires Word(a) && IsOp(op) && Stars(port)
    ensures Scan(Text(GateAfterTok(a, i, op, port))) == GateAfterTok(a, i, op, port)
  {
    NatToStringDigits(i);
    var di := NatToString(i);
    var s := a + di + [op] + port;
    var p1, p2 := |a|, |a| + |di|;
    assert s[..p1] == a && s[p1..p2] == di && s[p2] == op && s[p2 + 1..] == port;
    ScanAtGateAfter(s, p1, p2);
  }

  lemma ScanGateBeforeText(port: string, op: char, a: string, i: nat)
    requires Stars(port) && IsOp(op) && Word(a)
    ensures Scan(Text(GateBeforeTok(port, op, a, i))) == GateBeforeTok(port, op, a, i)
  {
    NatToStringDigits(i);
    var di := NatToString(i);
    var s := port + [op] + a + di;
    var p1, p2 := |port|, |port| + 1 + |a|;
    assert s[..p1] == port && s[p1] == op && s[p1 + 1..p2] == a && s[p2..] == di;
    ScanAtGateBefore(s, p1, p2);
  }

  lemma ScanRefAfterText(a: string, idx: string, name: string)
    requires Word(a) && Number(idx) && Name(name)
    ensures Scan(Text(RefAfterTok(a, idx, name))) == RefAfterTok(a, idx, name)
  {
    var s := a + idx + "*{" + name + "}";
    var p1, p2 := |a|, |a| + |idx|;
    var p3 := p2 + 2 + |name|;
    assert s[..p1] == a && s[p1..p2] == idx && s[p2] == '*' && s[p2 + 1] == '{' && s[p2 + 2..p3] == name && s[p3] == '}';
    ScanAtRefAfter(s, p1, p2, p3);
  }

  lemma ScanRefBeforeText(name: string, a: string, idx: string)
    requires Name(name) && Word(a) && Number(idx)
    ensures Scan(Text(RefBeforeTok(name, a, idx))) == RefBeforeTok(name, a, idx)
  {
    var s := "{" + name + "}*" + a + idx;
    var n := 1 + |name|;
    var p1 := n + 2 + |a|;
    assert s[0] == '{' && s[1..n] == name && s[n] == '}' && s[n + 1] == '*' && s[n + 2..p1] == a && s[p1..] == idx;
    ScanAtRefBefore(s, n, p1);
  }

  // `extract_highest_index`.

  /**
   * `re.findall(r'[A-Za-z]+(\d+)', s[i..])` as numbers: a match is a letter run followed by
   * a digit run, and a place where no match starts is skipped one character at a time.
   */
  function AtomIndicesFrom(s: string, i: nat): seq<nat>
    requires i <= |s|
    decreases |s| - i
  {
    if i == |s| then []
    else
      var a := RunEnd(s, i, Letters);
      var d := RunEnd(s, a, Digits);
      if i < a < d then [DigitsValue(s[a..d])] + AtomIndicesFrom(s, d) else AtomIndicesFrom(s, i + 1)
  }

  /** The indices a token contributes: none when it holds `{` or `}`. */
  function TokenIndices(token: string): seq<nat> {
    if '{' in token || '}' in token then [] else AtomIndicesFrom(token, 0)
  }

  /** The indices of all tokens of a chain, in order. */
  function ChainIndices(chain: seq<string>): seq<nat> {
    if chain == [] then [] else ChainIndices(chain[..|chain| - 1]) + TokenIndices(chain[|chain| - 1])
  }

  /** `max(indices) if indices else 0`. */
  function MaxOr0(xs: seq<nat>): (m: nat)
    ensures forall k :: 0 <= k < |xs| ==> xs[k] <= m
    ensures xs == [] ==> m == 0
    ensures xs != [] ==> m in xs
  {
    if xs == [] then 0
    else
      var rest := MaxOr0(xs[1..]);
      if xs[1..] == [] || xs[0] >= rest then xs[0] else rest
  }

  function HighestIndex(chain: seq<string>): nat {
    MaxOr0(ChainIndices(chain))
  }

  /**
   * The highest index of a chain bounds every atom index of its brace-free tokens and is
   * one of them, or 0 when there are none.
   */
  lemma HighestIndexBounds(chain: seq<string>, k: nat, m: nat)
    requires k < |chain| && '{' !in chain[k] && '}' !in chain[k] && m < |AtomIndicesFrom(chain[k], 0)|
    ensures AtomIndicesFrom(chain[k], 0)[m] <= HighestIndex(chain)
  {
    ChainIndicesHas(chain, k, m);
  }

  /** The indices of token `k` sit inside the chain's indices. */
  lemma {:induction false} ChainIndicesHas(chain: seq<string>, k: nat, m: nat)
    requires k < |chain| && m < |TokenIndices(chain[k])|
    ensures TokenIndices(chain[k])[m] in ChainIndices(chain)
  {
    var pre := chain[..|chain| - 1];
    if k < |chain| - 1 {
      assert pre[k] == chain[k];
      ChainIndicesHas(pre, k, m);
    } else {
      assert ChainIndices(chain)[|ChainIndices(pre)| + m] == TokenIndices(chain[k])[m];
    }
  }

  /** The highest index is 0 or the index of some atom of a brace-free token. */
  lemma HighestIndexAttained(chain: seq<string>)
    ensures HighestIndex(chain) == 0 || exists k :: 0 <= k < |chain| && HighestIndex(chain) in TokenIndices(chain[k])
  {
    if ChainIndices(chain) != [] {
      ChainIndicesFrom(chain, HighestIndex(chain));
    }
  }

  /** Every index of a chain comes from one of its tokens. */
  lemma {:induction false} ChainIndicesFrom(chain: seq<string>, v: nat)
    requires v in ChainIndices(chain)
    ensures exists k :: 0 <= k < |chain| && v in TokenIndices(chain[k])
  {
    var pre := chain[..|chain| - 1];
    if v in ChainIndices(pre) {
      ChainIndicesFrom(pre, v);
      var k :| 0 <= k < |pre| && v in TokenIndices(pre[k]);
      assert pre[k] == chain[k];
    } else {
      assert v in TokenIndices(chain[|chain| - 1]);
    }
  }

  /** The loop of `extract_highest_index`. */
  method ExtractHighestIndex(chain: seq<string>) returns (r: nat)
    ensures r == HighestIndex(chain)
  {
    var indices: seq<nat> := [];
    var i := 0;
    while i < |chain|
      invariant 0 <= i <= |chain|
      invariant indices == ChainIndices(chain[..i])
    {
      var bond := chain[i];
      var atoms := AtomIndicesFrom(bond, 0);
      assert chain[..i + 1][..i] == chain[..i];
      if '{' in bond || '}' in bond {
        i := i + 1;
        continue;
      }
      indices := indices + atoms;
      i := i + 1;
    }
    assert chain[..|chain|] == chain;
    r := MaxOr0(indices);
  }

  // The main chain.

  /** `re.match(r'\{.*?\}\*.*', s)`: `{`, then a `}*` with no line break before it. */
  predicate OpensWithRef(s: string) {
    |s| > 0 && s[0] == '{'
    && exists p :: 1 <= p && p + 1 < |s| && s[p] == '}' && s[p + 1] == '*' && '\n' !in s[1..p]
  }

  /** `re.match(r'.*\*\{.*?\}', s)`: a `*{` and then a `}`, with no line break before the `}`. */
  predicate ClosesWithRef(s: string) {
    exists p, q :: 0 <= p && p + 2 <= q < |s| && s[p] == '*' && s[p + 1] == '{' && s[q] == '}'
      && '\n' !in s[..p] && '\n' !in s[p + 2..q]
  }

  /** A token that makes its chain the main chain. */
  predicate IsMainToken(s: string) { OpensWithRef(s) || ClosesWithRef(s) }

  predicate HasMainToken(chain: seq<string>) { exists k :: 0 <= k < |chain| && IsMainToken(chain[k]) }

  /** Every reference token is a main token. */
  lemma RefIsMainToken(s: string)
    requires Scan(s).RefAfterTok? || Scan(s).RefBeforeTok?
    ensures IsMainToken(s)
  {
    ScanWellFormed(s);
    if Scan(s).RefAfterTok? {
      var t := Scan(s);
      assert s[0] != '{' && s[0] != '*';
      var p := |t.a| + |t.idx|;
      RefAfterAt(s);
      assert s[p] == '*' && s[p + 1] == '{' && s[p + 2 + |t.name|] == '}';
    } else {
      RefBeforeAt(s);
    }
  }

  lemma RefAfterAt(s: string)
    requires Scan(s).RefAfterTok?
    ensures var t := Scan(s); var p := |t.a| + |t.idx|;
      p + 2 + |t.name| < |s| && s[p] == '*' && s[p + 1] == '{' && s[p + 2 + |t.name|] == '}'
      && '\n' !in s[..p] && '\n' !in s[p + 2..p + 2 + |t.name|]
  {
    assert s[0] != '{' && s[0] != '*';
  }

  lemma RefBeforeAt(s: string)
    requires Scan(s).RefBeforeTok?
    ensures var n := 1 + |Scan(s).name|; n + 1 < |s| && s[0] == '{' && s[n] == '}' && s[n + 1] == '*' && '\n' !in s[1..n]
  {
  }

  /** The first key, in insertion order, whose chain holds a main token. */
  function MainKeyIn(keys: seq<string>, items: map<string, seq<string>>): (r: Option<nat>)
    ensures r.Some? ==> r.value < |keys| && keys[r.value] in items && HasMainToken(items[keys[r.value]])
    ensures forall j :: 0 <= j < |keys| && (r.None? || j < r.value) ==> !(keys[j] in items && HasMainToken(items[keys[j]]))
  {
    if keys == [] then None
    else if keys[0] in items && HasMainToken(items[keys[0]]) then Some(0)
    else match MainKeyIn(keys[1..], items)
      case None => None
      case Some(k) => Some(k + 1)
  }

  /** `search_for_main_chain`: the name of the first chain holding a main token, if any. */
  function MainChainOf(molecule: Dict<string, seq<string>>): Option<string> {
    match MainKeyIn(molecule.keys, molecule.items)
    case None => None
    case Some(k) => Some(molecule.keys[k])
  }

  /** The loop of `search_for_main_chain` over the chains in insertion order. */
  method SearchForMainChain(molecule: Dict<string, seq<string>>) returns (r: Result<string>)
    ensures r.Ok? <==> MainChainOf(molecule).Some?
    ensures r.Ok? ==> r.value == MainChainOf(molecule).value
  {
    var i := 0;
    while i < |molecule.keys|
      invariant 0 <= i <= |molecule.keys|
      invariant forall j :: 0 <= j < i ==> !(molecule.keys[j] in molecule.items && HasMainToken(molecule.items[molecule.keys[j]]))
    {
      var key := molecule.keys[i];
      if key in molecule.items && HasMainToken(molecule.items[key]) {
        return Ok(key);
      }
      i := i + 1;
    }
    return Err("Main chain not found in the molecule source.");
  }

  // Joining a reference to a gate.

  /**
   * The main atom `atom` joined to the gate `g`: after the atom when `g` opens with a bond
   * operator (`startswith(('-', '=', '#'))`), before it otherwise.
   */
  function Connection(atom: string, g: string): string {
    if |g| > 0 && IsOp(g[0]) then atom + g else g + atom
  }

  /** A gate `op B j` after the main atom `A i` reads as the bond `A i op B j`. */
  lemma ConnectionAfterIsBond(a: string, idx: string, op: char, b: string, j: nat)
    requires Word(a) && Number(idx) && IsOp(op) && Word(b)
    ensures Scan(Connection(a + idx, [op] + b + NatToString(j))) == BondTok(a, DigitsValue(idx), op, b, j)
  {
    NatToStringDigits(j);
    var dj := NatToString(j);
    assert Connection(a + idx, [op] + b + dj) == a + idx + [op] + b + dj;
    ScanBondPieces(a, idx, op, b, dj);
  }

  /** A gate `B j op` before the main atom `A i` reads as the bond `B j op A i`. */
  lemma ConnectionBeforeIsBond(b: string, j: nat, op: char, a: string, idx: string)
    requires Word(b) && IsOp(op) && Word(a) && Number(idx)
    ensures Scan(Connection(a + idx, b + NatToString(j) + [op])) == BondTok(b, j, op, a, DigitsValue(idx))
  {
    NatToStringDigits(j);
    var dj := NatToString(j);
    assert b[0] == (b + dj + [op])[0];
    assert Connection(a + idx, b + dj + [op]) == b + dj + [op] + a + idx;
    ScanBondPieces(b, dj, op, a, idx);
  }

  /** Every reference holds a `*`. */
  lemma RefHasStar(s: string)
    ensures Scan(s).RefAfterTok? || Scan(s).RefBeforeTok? ==> '*' in s
  {
    if Scan(s).RefAfterTok? {
      RefAfterAt(s);
      assert s[|Scan(s).a| + |Scan(s).idx|] == '*';
    } else if Scan(s).RefBeforeTok? {
      RefBeforeAt(s);
      assert s[1 + |Scan(s).name| + 1] == '*';
    }
  }

  /** Words and numbers hold no `*`. */
  lemma WordNoStar(s: string)
    requires Word(s) || Number(s)
    ensures '*' !in s
  {
    forall k | 0 <= k < |s| ensures s[k] != '*' {
      assert In(s[k], Letters) || In(s[k], Digits);
    }
  }

  lemma NatToStringNoStar(n: nat)
    ensures '*' !in NatToString(n)
  {
    NatToStringDigits(n);
    forall k | 0 <= k < |NatToString(n)| ensures NatToString(n)[k] != '*' {
      assert IsDigit(NatToString(n)[k]);
    }
  }
}
