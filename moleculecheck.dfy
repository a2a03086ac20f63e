/** `check_molecule` of the older chain compiler, `Molecule` in `pyMolinfo/docs/molecule.py`. */
module MoleculeCheck {
  import opened Wrappers
  import opened PyText
  import opened PyDict
  import opened ChainText
  import opened ChainRename

  // `check_molecule`.

  /** `A i`: a letter run followed by a digit run, nothing else. */
  ghost predicate IsAtom(x: string) {
    exists p :: 0 < p < |x| && Word(x[..p]) && Number(x[p..])
  }

  /**
   * `re.match(r"([A-Za-z]+)(\d+)\*\{" + re.escape(key) + r"\}", s)`: the `A i` of a
   * reference, written after its atom, to exactly the chain `key`; the rest of `s` is
   * ignored.
   */
  function RefAtomTo(s: string, key: string): (r: Option<string>)
    ensures r.Some? ==> |r.value| + |key| + 3 <= |s|
  {
    var a := Span(s, 0, Letters);
    var d := Span(s, a, Digits);
    var tail := "*{" + key + "}";
    if 0 < a < d && d + |tail| <= |s| && s[d..d + |tail|] == tail then Some(s[..d]) else None
  }

  /**
   * `RunEnd` with only its bounds as contract, so that proofs about the renaming loops
   * do not unfold the runs' contents.
   */
  function Span(s: string, i: nat, k: Class): (j: nat)
    requires i <= |s|
    ensures i <= j <= |s|
    decreases |s| - i
  {
    if i < |s| && In(s[i], k) then Span(s, i + 1, k) else i
  }

  lemma {:induction false} SpanIsRunEnd(s: string, i: nat, k: Class)
    requires i <= |s|
    ensures Span(s, i, k) == RunEnd(s, i, k)
    decreases |s| - i
  {
    if i < |s| && In(s[i], k) {
      SpanIsRunEnd(s, i + 1, k);
    }
  }

  /** A reference to `key` is an atom `A i`, then `*{key}`, then anything. */
  lemma RefAtomToShape(s: string, key: string)
    requires RefAtomTo(s, key).Some?
    ensures var x := RefAtomTo(s, key).value;
      IsAtom(x) && s == x + "*{" + key + "}" + s[|x| + |key| + 3..]
  {
    SpanIsRunEnd(s, 0, Letters);
    SpanIsRunEnd(s, RunEnd(s, 0, Letters), Digits);
    var a := RunEnd(s, 0, Letters);
    var d := RunEnd(s, a, Digits);
    var tail := "*{" + key + "}";
    var x := s[..d];
    assert x[..a] == s[..a] && x[a..] == s[a..d];
    assert Word(x[..a]) && Number(x[a..]);
    assert s == s[..d] + tail + s[d + |tail|..];
  }

  /** Conversely every `A i *{key}`, whatever follows it, is such a reference. */
  lemma RefAtomToText(a: string, idx: string, key: string, rest: string)
    requires Word(a) && Number(idx)
    ensures RefAtomTo(a + idx + "*{" + key + "}" + rest, key) == Some(a + idx)
  {
    var tail := "*{" + key + "}";
    var s := a + idx + tail + rest;
    var p1, p2 := |a|, |a| + |idx|;
    assert s[..p1] == a && s[p1..p2] == idx && s[p2] == '*';
    AtomRuns(s, p1, p2);
    SpanIsRunEnd(s, 0, Letters);
    SpanIsRunEnd(s, p1, Digits);
    assert s[p2..p2 + |tail|] == tail;
    assert s[..p2] == a + idx;
    assert s == a + idx + "*{" + key + "}" + rest;
  }

  /** The references `check_molecule` renames when it reaches the chain `key`. */
  function RefTo(key: string): Matcher {
    s => RefAtomTo(s, key)
  }

  /** The names it gives that chain's copies: `key` followed by the counter. */
  function CopyName(key: string): Namer {
    c => key + IntToString(c)
  }

  /**
   * A value of the checked dict: the main chain's own list, which the renaming keeps
   * rewriting after it is stored, or another chain's list.
   */
  datatype Entry = MainList | Chain(tokens: seq<string>)

  /**
   * What the outer loop of `check_molecule` carries: the assignments made into the checked
   * dict after the main chain, and the main chain's tokens.
   */
  datatype Checking = Checking(log: seq<(string, Entry)>, main: seq<string>)

  /** The outer loop of `check_molecule` over the first `n` chains of the source, the counter starting at 0 for each. */
  function CheckUpTo(src: Dict<string, seq<string>>, main: string, st: Checking, n: nat): (s: Checking)
    requires src.Valid() && n <= |src.keys|
    ensures |s.main| == |st.main|
  {
    if n == 0 then st
    else
      var p := CheckUpTo(src, main, st, n - 1);
      var key := src.keys[n - 1];
      if key == main then p
      else
        var pass := RenameUpTo(RefTo(key), CopyName(key), Pass(p.main, 0), |p.main|);
        Checking(p.log + Copies(CopyName(key), Chain(src.items[key]), pass.counter), pass.main)
  }

  /** A name the renaming gives to a copy of a chain other than the main one: its name followed by a positive counter. */
  ghost predicate RenamedCopy(src: Dict<string, seq<string>>, main: string, x: string, tokens: seq<string>) {
    exists j, c :: 0 <= j < |src.keys| && src.keys[j] != main && src.keys[j] in src.items && 1 <= c
      && x == src.keys[j] + NatToString(c) && tokens == src.items[src.keys[j]]
  }

  ghost predicate RenamedEntry(src: Dict<string, seq<string>>, main: string, e: (string, Entry)) {
    e.1.Chain? && RenamedCopy(src, main, e.0, e.1.tokens)
  }

  /** The copies of a chain other than the main one are stored under its renamed names. */
  lemma CopiesRenamed(src: Dict<string, seq<string>>, main: string, j: nat, count: nat)
    requires src.Valid() && j < |src.keys| && src.keys[j] != main
    ensures forall i :: 0 <= i < count ==> RenamedEntry(src, main, Copies(CopyName(src.keys[j]), Chain(src.items[src.keys[j]]), count)[i])
  {
    KeyInItems(src, src.keys[j]);
    var copies := Copies(CopyName(src.keys[j]), Chain(src.items[src.keys[j]]), count);
    forall i | 0 <= i < count ensures RenamedEntry(src, main, copies[i]) {
      assert copies[i] == (CopyName(src.keys[j])(i + 1), Chain(src.items[src.keys[j]]));
      assert CopyName(src.keys[j])(i + 1) == src.keys[j] + NatToString(i + 1);
    }
  }

  lemma RenamedEntries(src: Dict<string, seq<string>>, main: string, a: seq<(string, Entry)>, b: seq<(string, Entry)>)
    requires forall i :: 0 <= i < |a| ==> RenamedEntry(src, main, a[i])
    requires forall i :: 0 <= i < |b| ==> RenamedEntry(src, main, b[i])
    ensures forall i :: 0 <= i < |a + b| ==> RenamedEntry(src, main, (a + b)[i])
  {
    forall i | 0 <= i < |a + b| ensures RenamedEntry(src, main, (a + b)[i]) {
      if i >= |a| {
        assert (a + b)[i] == b[i - |a|];
      }
    }
  }

  /** Every assignment the outer loop makes stores a chain under one of its renamed names. */
  lemma {:induction false} CheckUpToLog(src: Dict<string, seq<string>>, main: string, st: Checking, n: nat)
    requires src.Valid() && n <= |src.keys| && forall i :: 0 <= i < |st.log| ==> RenamedEntry(src, main, st.log[i])
    ensures forall i :: 0 <= i < |CheckUpTo(src, main, st, n).log| ==> RenamedEntry(src, main, CheckUpTo(src, main, st, n).log[i])
  {
    if n > 0 {
      CheckUpToLog(src, main, st, n - 1);
      var p := CheckUpTo(src, main, st, n - 1);
      var key := src.keys[n - 1];
      if key != main {
        var count := RenameUpTo(RefTo(key), CopyName(key), Pass(p.main, 0), |p.main|).counter;
        CopiesRenamed(src, main, n - 1, count);
        var copies := Copies(CopyName(key), Chain(src.items[key]), count);
        RenamedEntries(src, main, p.log, copies);
        assert CheckUpTo(src, main, st, n).log == p.log + copies;
      }
    }
  }

  /** The checked dict with the main chain's list as it ended up. */
  function Resolved(checked: Dict<string, Entry>, main: seq<string>): (r: Dict<string, seq<string>>)
    requires checked.Valid()
    ensures r.Valid() && r.keys == checked.keys
    ensures forall k :: k in r.items ==> r.items[k] == if checked.items[k].MainList? then main else checked.items[k].tokens
  {
    var m := map k | k in checked.items :: if checked.items[k].MainList? then main else checked.items[k].tokens;
    SameKeysValid(checked, m);
    Dict(checked.keys, m)
  }

  /** The checked dict as it starts: the main chain alone. */
  function CheckStart(main: string): (r: Dict<string, Entry>)
    ensures r.Valid() && r.keys == [main] && r.items == map[main := MainList]
  {
    Put(EmptyDict(), main, MainList)
  }

  /**
   * `check_molecule`: the main chain first, then each other chain under a new name for
   * each of its references; no main chain, or an empty name, is an error.
   */
  function Checked(src: Dict<string, seq<string>>): (r: Result<Dict<string, seq<string>>>)
    requires src.Valid()
    ensures r.Ok? <==> MainChainOf(src).Some? && MainChainOf(src).value != ""
    ensures r.Ok? ==> r.value.Valid() && |r.value.keys| > 0 && r.value.keys[0] == MainChainOf(src).value
  {
    match MainChainOf(src)
    case None => Err("Main chain not found in the molecule source.")
    case Some(main) =>
      if main == "" then Err("Main chain not found in the molecule source.")
      else
        var s := CheckUpTo(src, main, Checking([], src.items[main]), |src.keys|);
        PutAllGet(CheckStart(main), s.log, main);
        Ok(Resolved(PutAll(CheckStart(main), s.log), s.main))
  }

  /** A key other than the main chain's holds what the last assignment to it stored. */
  lemma StartLogValue(main: string, log: seq<(string, Entry)>, x: string)
    requires x != main && x in PutAll(CheckStart(main), log).items
    ensures exists i :: 0 <= i < |log| && log[i] == (x, PutAll(CheckStart(main), log).items[x])
  {
    PutAllGet(CheckStart(main), log, x);
    LastValueFound(log, x);
  }

  /** Resolving a dict built from renamed copies keeps only the main chain and those copies. */
  lemma ResolvedKeys(src: Dict<string, seq<string>>, main: string, log: seq<(string, Entry)>, tokens: seq<string>, x: string)
    requires forall i :: 0 <= i < |log| ==> RenamedEntry(src, main, log[i])
    requires x != main && x in Resolved(PutAll(CheckStart(main), log), tokens).items
    ensures RenamedCopy(src, main, x, Resolved(PutAll(CheckStart(main), log), tokens).items[x])
  {
    var d := PutAll(CheckStart(main), log);
    StartLogValue(main, log, x);
    var i :| 0 <= i < |log| && log[i] == (x, d.items[x]);
    assert RenamedEntry(src, main, log[i]);
  }

  /**
   * Only the main chain and renamed copies are kept: any other key holds the chain it is a
   * copy of, and a chain never referenced after an atom is dropped.
   */
  lemma CheckedKeys(src: Dict<string, seq<string>>, x: string)
    requires src.Valid() && Checked(src).Ok? && x in Checked(src).value.items
    ensures x == MainChainOf(src).value || RenamedCopy(src, MainChainOf(src).value, x, Checked(src).value.items[x])
  {
    var main := MainChainOf(src).value;
    var s := CheckUpTo(src, main, Checking([], src.items[main]), |src.keys|);
    assert Checked(src).value == Resolved(PutAll(CheckStart(main), s.log), s.main);
    if x != main {
      CheckUpToLog(src, main, Checking([], src.items[main]), |src.keys|);
      ResolvedKeys(src, main, s.log, s.main, x);
    }
  }

  /** One turn of the outer loop of `check_molecule`: the chain at position `n`, unless it is the main one. */
  method CheckChain(src: Dict<string, seq<string>>, main: string, n: nat, checked: Dict<string, Entry>, tokens: seq<string>)
    returns (checked': Dict<string, Entry>, tokens': seq<string>)
    requires src.Valid() && n < |src.keys| && main in src.items
    requires checked == PutAll(CheckStart(main), CheckUpTo(src, main, Checking([], src.items[main]), n).log)
    requires tokens == CheckUpTo(src, main, Checking([], src.items[main]), n).main
    ensures checked' == PutAll(CheckStart(main), CheckUpTo(src, main, Checking([], src.items[main]), n + 1).log)
    ensures tokens' == CheckUpTo(src, main, Checking([], src.items[main]), n + 1).main
  {
    checked', tokens' := checked, tokens;
    ghost var st := CheckUpTo(src, main, Checking([], src.items[main]), n);
    var key := src.keys[n];
    if key != main {
      KeyInItems(src, key);
      ghost var count := RenameUpTo(RefTo(key), CopyName(key), Pass(st.main, 0), |st.main|).counter;
      checked', tokens' := RenamePass(RefTo(key), CopyName(key), Chain(src.items[key]), checked, tokens);
      PutAllAppend(CheckStart(main), st.log, Copies(CopyName(key), Chain(src.items[key]), count));
    }
  }

  /** `check_molecule`. */
  method CheckMolecule(src: Dict<string, seq<string>>) returns (r: Result<Dict<string, seq<string>>>)
    requires src.Valid()
    ensures r == Checked(src)
  {
    var found := SearchForMainChain(src);
    if found.Err? || found.value == "" {
      return Err("Main chain not found in the molecule source.");
    }
    var main := found.value;
    KeyInItems(src, main);
    var checked := CheckStart(main);
    var tokens := src.items[main];
    var n := 0;
    while n < |src.keys|
      invariant n <= |src.keys|
      invariant checked == PutAll(CheckStart(main), CheckUpTo(src, main, Checking([], src.items[main]), n).log)
      invariant tokens == CheckUpTo(src, main, Checking([], src.items[main]), n).main
    {
      checked, tokens := CheckChain(src, main, n, checked, tokens);
      n := n + 1;
    }
    return Ok(Resolved(checked, tokens));
  }
}
