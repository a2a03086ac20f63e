/**
 * The inner loop of `check_molecule` (`pyMolinfo/docs/molecule.py`): one pass over the main
 * chain's tokens that points the `c`-th reference to a chain at that chain's `c`-th copy.
 * The pass is stated for any way of recognising a reference and of naming a copy.
 */
module ChainRename {
  import opened Wrappers
  import opened PyDict

  /** A reference renamed to the chain `name`: `A i *{name}`. */
  function Renamed(atom: string, name: string): string {
    atom + "*{" + name + "}"
  }

  /**
   * Recognises a reference to the chain being renamed: the `A i` the reference is written
   * after, or nothing. The lemmas
   * about the pass hold for any recogniser.
   */
  type Matcher = string -> Option<string>

  /** Names the copies of the chain being renamed from the counter. */
  type Namer = int -> string

  /** What the inner renaming loop carries besides the checked dict: the main chain's tokens and `chain_counter`. */
  datatype Pass = Pass(main: seq<string>, counter: int)

  /**
   * Position `i` of the inner loop: a reference to the chain being renamed moves the
   * counter on and is pointed at the copy the counter names.
   */
  function RenameAt(m: Matcher, nm: Namer, p: Pass, i: nat): (s: Pass)
    requires i < |p.main|
    ensures |s.main| == |p.main| && p.counter <= s.counter
  {
    match m(p.main[i])
    case None => p
    case Some(atom) => Pass(p.main[i := Renamed(atom, nm(p.counter + 1))], p.counter + 1)
  }

  /** The inner loop over the first `n` positions of the main chain. */
  function RenameUpTo(m: Matcher, nm: Namer, p: Pass, n: nat): (s: Pass)
    requires n <= |p.main|
    ensures |s.main| == |p.main| && p.counter <= s.counter
  {
    if n == 0 then p else RenameAt(m, nm, RenameUpTo(m, nm, p, n - 1), n - 1)
  }

  /** How many of the first `n` tokens are references to the chain being renamed. */
  function RefCount(m: Matcher, tokens: seq<string>, n: nat): int
    requires n <= |tokens|
  {
    if n == 0 then 0 else RefCount(m, tokens, n - 1) + if m(tokens[n - 1]).Some? then 1 else 0
  }

  /** Token `i` once the chain is renamed: its `c`-th reference points at the copy `c` names. */
  function RenamedToken(m: Matcher, nm: Namer, tokens: seq<string>, c0: int, i: nat): string
    requires i < |tokens|
  {
    match m(tokens[i])
    case None => tokens[i]
    case Some(atom) => Renamed(atom, nm(c0 + RefCount(m, tokens, i + 1)))
  }

  /** The inner loop leaves the positions it has not reached alone. */
  lemma {:induction false} RenameUpToAhead(m: Matcher, nm: Namer, p: Pass, n: nat, i: nat)
    requires n <= i < |p.main|
    ensures RenameUpTo(m, nm, p, n).main[i] == p.main[i]
  {
    if n > 0 {
      RenameUpToAhead(m, nm, p, n - 1, i);
    }
  }

  /** The inner loop moves the counter on once per reference. */
  lemma {:induction false} RenameUpToCount(m: Matcher, nm: Namer, p: Pass, n: nat)
    requires n <= |p.main|
    ensures RenameUpTo(m, nm, p, n).counter == p.counter + RefCount(m, p.main, n)
  {
    if n > 0 {
      RenameUpToCount(m, nm, p, n - 1);
      RenameUpToAhead(m, nm, p, n - 1, n - 1);
    }
  }

  /** The `c`-th reference points at the copy `c` names; every other token stays. */
  lemma {:induction false} RenameUpToTokens(m: Matcher, nm: Namer, p: Pass, n: nat)
    requires n <= |p.main|
    ensures var s := RenameUpTo(m, nm, p, n);
      forall i :: 0 <= i < n ==> s.main[i] == RenamedToken(m, nm, p.main, p.counter, i)
  {
    if n > 0 {
      RenameUpToTokens(m, nm, p, n - 1);
      var s := RenameUpTo(m, nm, p, n);
      forall i | 0 <= i < n ensures s.main[i] == RenamedToken(m, nm, p.main, p.counter, i) {
        if i < n - 1 {
          RenameKeepsEarlier(m, nm, p, n, i);
        } else {
          RenameLastToken(m, nm, p, n);
        }
      }
    }
  }

  /** Position `n - 1` of the inner loop leaves the earlier positions alone. */
  lemma RenameKeepsEarlier(m: Matcher, nm: Namer, p: Pass, n: nat, i: nat)
    requires i + 1 < n <= |p.main|
    ensures RenameUpTo(m, nm, p, n).main[i] == RenameUpTo(m, nm, p, n - 1).main[i]
  {
  }

  /** Position `n - 1` as the inner loop leaves it. */
  lemma RenameLastToken(m: Matcher, nm: Namer, p: Pass, n: nat)
    requires 0 < n <= |p.main|
    ensures RenameUpTo(m, nm, p, n).main[n - 1] == RenamedToken(m, nm, p.main, p.counter, n - 1)
  {
    RenameUpToCount(m, nm, p, n - 1);
    RenameUpToAhead(m, nm, p, n - 1, n - 1);
    var q := RenameUpTo(m, nm, p, n - 1);
    assert RenameUpTo(m, nm, p, n) == RenameAt(m, nm, q, n - 1);
    match m(p.main[n - 1])
    case None =>
    case Some(atom) =>
      assert RefCount(m, p.main, n) == RefCount(m, p.main, n - 1) + 1;
  }

  /**
   * The assignments the inner loop makes into the checked dict, in order: the value `v`
   * under the name of each counter value from 1 to `count`.
   */
  function Copies<V>(nm: Namer, v: V, count: nat): (r: seq<(string, V)>)
    ensures |r| == count && forall i :: 0 <= i < count ==> r[i] == (nm(i + 1), v)
  {
    seq(count, i requires 0 <= i < count => (nm(i + 1), v))
  }

  /** Storing the next copy extends the copies stored so far by one. */
  lemma PutCopiesStep<V>(checked: Dict<string, V>, nm: Namer, v: V, count: nat)
    requires checked.Valid()
    ensures Put(PutAll(checked, Copies(nm, v, count)), nm(count + 1), v) == PutAll(checked, Copies(nm, v, count + 1))
  {
    assert Copies(nm, v, count + 1) == Copies(nm, v, count) + [(nm(count + 1), v)];
    PutAllSnoc(checked, Copies(nm, v, count), nm(count + 1), v);
  }

  /** Position `i` of the inner loop: rename the token if it is a reference and store the copy it now names. */
  method RenameStep<V>(m: Matcher, nm: Namer, v: V, checked: Dict<string, V>, main: seq<string>, i: nat,
                       cur: Dict<string, V>, tokens: seq<string>, counter: nat)
    returns (cur': Dict<string, V>, tokens': seq<string>, counter': nat)
    requires checked.Valid() && i < |main| == |tokens|
    requires Pass(tokens, counter) == RenameUpTo(m, nm, Pass(main, 0), i)
    requires cur == PutAll(checked, Copies(nm, v, counter))
    ensures |tokens'| == |main| && Pass(tokens', counter') == RenameUpTo(m, nm, Pass(main, 0), i + 1)
    ensures cur' == PutAll(checked, Copies(nm, v, counter'))
  {
    cur', tokens', counter' := cur, tokens, counter;
    var found := m(tokens[i]);
    if found.Some? {
      PutCopiesStep(checked, nm, v, counter);
      counter' := counter + 1;
      cur' := Put(cur, nm(counter'), v);
      tokens' := tokens[i := Renamed(found.value, nm(counter'))];
    }
  }

  /**
   * The inner loop of `check_molecule` for one chain: each reference it recognises moves
   * the counter on, is pointed at the copy the counter names, and that copy is stored.
   */
  method RenamePass<V>(m: Matcher, nm: Namer, v: V, checked: Dict<string, V>, main: seq<string>)
    returns (checked': Dict<string, V>, main': seq<string>)
    requires checked.Valid()
    ensures var pass := RenameUpTo(m, nm, Pass(main, 0), |main|);
      main' == pass.main && checked' == PutAll(checked, Copies(nm, v, pass.counter))
  {
    checked', main' := checked, main;
    var counter: nat := 0;
    var i := 0;
    while i < |main|
      invariant i <= |main| == |main'| && Pass(main', counter) == RenameUpTo(m, nm, Pass(main, 0), i)
      invariant checked' == PutAll(checked, Copies(nm, v, counter))
    {
      checked', main', counter := RenameStep(m, nm, v, checked, main, i, checked', main', counter);
      i := i + 1;
    }
  }
}
