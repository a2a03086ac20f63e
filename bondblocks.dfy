/**
 * The bond block shared by the two bond-block builders of `molparser.py`: for each atom
 * id 1..n in turn, the bond rows whose first column is that id, in row order; an atom
 * with no such row gets no entry.
 */
module BondBlocks {
  import opened Wrappers

  /** One entry of the bond block: an atom's id and symbol and the bonds filed under it. */
  datatype AtomBonds<E> = AtomBonds(id: int, symbol: string, bonds: seq<E>)

  /**
   * A bond row as the inner loop reads it: its first column (None when that is not an
   * integer) and the bond it makes when filed (None when reading the rest fails).
   */
  datatype Row<E> = Row(head: Option<int>, entry: Option<E>)

  /** The bonds of `rows[..m]` filed under atom id `a`, in row order. */
  function Filed<E>(rows: seq<Row<E>>, a: int, m: nat): seq<E>
    requires m <= |rows|
  {
    if m == 0 then []
    else
      var r := rows[m - 1];
      Filed(rows, a, m - 1) + (if r.head == Some(a) && r.entry.Some? then [r.entry.value] else [])
  }

  /** The bond block of atoms 1..i over the first `m` rows. */
  function Block<E>(symbols: seq<string>, rows: seq<Row<E>>, m: nat, i: nat): seq<AtomBonds<E>>
    requires i <= |symbols| && m <= |rows|
  {
    if i == 0 then []
    else
      var f := Filed(rows, i, m);
      Block(symbols, rows, m, i - 1) + (if f != [] then [AtomBonds(i, symbols[i - 1], f)] else [])
  }

  /**
   * With atoms present, the first column of each of the first `m` rows is read, and
   * every one of them filed under an atom 1..n is read whole.
   */
  predicate RowsReadable<E>(n: nat, rows: seq<Row<E>>, m: nat)
    requires m <= |rows|
  {
    n == 0 || forall j :: 0 <= j < m ==> rows[j].head.Some? && (1 <= rows[j].head.value <= n ==> rows[j].entry.Some?)
  }

  /** The first `m` rows all have a first column, and those filed under `a` are read whole. */
  predicate FiledReadable<E>(rows: seq<Row<E>>, a: int, m: nat) {
    forall k :: 0 <= k < m && k < |rows| ==> rows[k].head.Some? && (rows[k].head.value == a ==> rows[k].entry.Some?)
  }

  /** One more readable row keeps the rows readable for `a`. */
  lemma FiledReadableStep<E>(rows: seq<Row<E>>, a: int, j: nat)
    requires j < |rows| && FiledReadable(rows, a, j)
    requires rows[j].head.Some? && (rows[j].head.value == a ==> rows[j].entry.Some?)
    ensures FiledReadable(rows, a, j + 1)
  {
  }

  /** A row without a first column, or filed under `a` and unreadable, makes the rows unreadable for `a`. */
  lemma FiledUnreadable<E>(rows: seq<Row<E>>, a: int, j: nat, m: nat)
    requires j < m && j < |rows|
    requires rows[j].head.None? || (rows[j].head.value == a && rows[j].entry.None?)
    ensures !FiledReadable(rows, a, m)
  {
  }

  /** The rows are readable for atoms 1..n exactly when they are readable for each atom in turn. */
  lemma ReadableByAtom<E>(n: nat, rows: seq<Row<E>>, m: nat)
    requires m <= |rows| && n >= 1
    ensures RowsReadable(n, rows, m) <==> forall a :: 1 <= a <= n ==> FiledReadable(rows, a, m)
  {
    if forall a :: 1 <= a <= n ==> FiledReadable(rows, a, m) {
      forall j | 0 <= j < m
        ensures rows[j].head.Some? && (1 <= rows[j].head.value <= n ==> rows[j].entry.Some?)
      {
        assert FiledReadable(rows, 1, m);
        if 1 <= rows[j].head.value <= n {
          assert FiledReadable(rows, rows[j].head.value, m);
        }
      }
    }
  }

  /**
   * The block lists atoms in strictly ascending id, each at most `i`, with its own symbol
   * and exactly the bonds filed under it, which are never empty.
   */
  lemma {:induction false} BlockShape<E>(symbols: seq<string>, rows: seq<Row<E>>, m: nat, i: nat)
    requires i <= |symbols| && m <= |rows|
    ensures forall k :: 0 <= k < |Block(symbols, rows, m, i)| ==>
      var b := Block(symbols, rows, m, i)[k];
      1 <= b.id <= i && b.symbol == symbols[b.id - 1] && b.bonds == Filed(rows, b.id, m) && b.bonds != []
    ensures forall k, l :: 0 <= k < l < |Block(symbols, rows, m, i)| ==> Block(symbols, rows, m, i)[k].id < Block(symbols, rows, m, i)[l].id
  {
    if i > 0 {
      BlockShape(symbols, rows, m, i - 1);
    }
  }

  /** The block has an entry for atom id `a`. */
  predicate HasEntry<E>(block: seq<AtomBonds<E>>, a: int) {
    block != [] && (block[|block| - 1].id == a || HasEntry(block[..|block| - 1], a))
  }

  /** `HasEntry` holds exactly when some entry carries id `a`. */
  lemma {:induction false} HasEntryAt<E>(block: seq<AtomBonds<E>>, a: int)
    ensures HasEntry(block, a) <==> exists k :: 0 <= k < |block| && block[k].id == a
  {
    if block != [] {
      var pre := block[..|block| - 1];
      HasEntryAt(pre, a);
      if exists k :: 0 <= k < |pre| && pre[k].id == a {
        var k :| 0 <= k < |pre| && pre[k].id == a;
        assert block[k] == pre[k];
      }
      if exists k :: 0 <= k < |block| && block[k].id == a {
        var k :| 0 <= k < |block| && block[k].id == a;
        if k < |pre| {
          assert block[k] == pre[k];
        }
      }
    }
  }

  /** An atom gets an entry exactly when some row is filed under its id. */
  lemma {:induction false} BlockComplete<E>(symbols: seq<string>, rows: seq<Row<E>>, m: nat, i: nat)
    requires i <= |symbols| && m <= |rows|
    ensures forall a :: 1 <= a <= i ==> (HasEntry(Block(symbols, rows, m, i), a) <==> Filed(rows, a, m) != [])
  {
    if i > 0 {
      BlockComplete(symbols, rows, m, i - 1);
      forall a | 1 <= a <= i ensures HasEntry(Block(symbols, rows, m, i), a) <==> Filed(rows, a, m) != [] {
        if a < i {
          EarlierAtom(symbols, rows, m, i, a);
        } else {
          LastAtom(symbols, rows, m, i);
        }
      }
    }
  }

  /** Adding atom `i` to the block leaves the entry of an earlier atom as it was. */
  lemma EarlierAtom<E>(symbols: seq<string>, rows: seq<Row<E>>, m: nat, i: nat, a: int)
    requires 0 < i <= |symbols| && m <= |rows| && a < i
    ensures HasEntry(Block(symbols, rows, m, i), a) <==> HasEntry(Block(symbols, rows, m, i - 1), a)
  {
    var pre := Block(symbols, rows, m, i - 1);
    var f := Filed(rows, i, m);
    if f != [] {
      assert Block(symbols, rows, m, i) == pre + [AtomBonds(i, symbols[i - 1], f)];
      HasEntrySnoc(pre, AtomBonds(i, symbols[i - 1], f), a);
    } else {
      assert Block(symbols, rows, m, i) == pre;
    }
  }

  /** Atom `i` gets an entry in the block of atoms 1..i exactly when some row is filed under it. */
  lemma LastAtom<E>(symbols: seq<string>, rows: seq<Row<E>>, m: nat, i: nat)
    requires 0 < i <= |symbols| && m <= |rows|
    ensures HasEntry(Block(symbols, rows, m, i), i) <==> Filed(rows, i, m) != []
  {
    var pre := Block(symbols, rows, m, i - 1);
    var f := Filed(rows, i, m);
    NoEntryAbove(symbols, rows, m, i - 1, i);
    if f != [] {
      assert Block(symbols, rows, m, i) == pre + [AtomBonds(i, symbols[i - 1], f)];
      HasEntrySnoc(pre, AtomBonds(i, symbols[i - 1], f), i);
    } else {
      assert Block(symbols, rows, m, i) == pre;
    }
  }

  lemma HasEntrySnoc<E>(block: seq<AtomBonds<E>>, e: AtomBonds<E>, a: int)
    ensures HasEntry(block + [e], a) <==> HasEntry(block, a) || e.id == a
  {
    assert (block + [e])[..|block|] == block;
  }

  lemma NoEntryAbove<E>(symbols: seq<string>, rows: seq<Row<E>>, m: nat, i: nat, x: int)
    requires i <= |symbols| && m <= |rows| && x > i
    ensures !HasEntry(Block(symbols, rows, m, i), x)
  {
    BlockShape(symbols, rows, m, i);
    HasEntryAt(Block(symbols, rows, m, i), x);
  }

  /** A bond is filed under `a` exactly when some row among the first `m` makes it under `a`. */
  lemma {:induction false} FiledMembers<E>(rows: seq<Row<E>>, a: int, m: nat, e: E)
    requires m <= |rows|
    ensures e in Filed(rows, a, m) <==> exists j :: 0 <= j < m && rows[j].head == Some(a) && rows[j].entry == Some(e)
  {
    if m > 0 {
      FiledMembers(rows, a, m - 1, e);
    }
  }

  /** Every line read as a row. */
  function Rows<L, E>(lines: seq<L>, read: L -> Row<E>): (r: seq<Row<E>>)
    ensures |r| == |lines| && forall j :: 0 <= j < |lines| ==> r[j] == read(lines[j])
  {
    seq(|lines|, j requires 0 <= j < |lines| => read(lines[j]))
  }

  /** The number of rows looked at: `range(count)` is empty for a negative count. */
  function RowCount(count: int): (m: nat)
    ensures count >= 0 ==> m == count
    ensures count < 0 ==> m == 0
  {
    if count < 0 then 0 else count
  }

  /**
   * The bond block of the atoms `symbols` over the first `count` lines. With atoms
   * present it fails when there are fewer lines than that, or when a line cannot be read.
   */
  function BlockOf<L, E>(symbols: seq<string>, lines: seq<L>, read: L -> Row<E>, count: int): Result<seq<AtomBonds<E>>> {
    var m := RowCount(count);
    var rows := Rows(lines, read);
    if |symbols| == 0 then Ok([])
    else if m > |lines| then Err("list index out of range")
    else if !RowsReadable(|symbols|, rows, m) then Err("bond line cannot be read")
    else Ok(Block(symbols, rows, m, |symbols|))
  }

  /**
   * The block over the first `m` rows has its entries in strictly ascending atom id, each
   * with its atom's symbol and the non-empty list of bonds filed under it, and has an entry
   * for atom a exactly when some bond is filed under a.
   */
  ghost predicate Grouped<E>(symbols: seq<string>, rows: seq<Row<E>>, m: nat, block: seq<AtomBonds<E>>)
    requires m <= |rows|
  {
    (forall k :: 0 <= k < |block| ==>
      1 <= block[k].id <= |symbols| && block[k].symbol == symbols[block[k].id - 1]
      && block[k].bonds == Filed(rows, block[k].id, m) && block[k].bonds != [])
    && (forall k, l :: 0 <= k < l < |block| ==> block[k].id < block[l].id)
    && (forall a :: 1 <= a <= |symbols| ==> (HasEntry(block, a) <==> Filed(rows, a, m) != []))
  }

  /** A bond block that was read, for at least one atom, groups all of the rows it looked at. */
  lemma BlockOfShape<L, E>(symbols: seq<string>, lines: seq<L>, read: L -> Row<E>, count: int)
    requires |symbols| > 0 && BlockOf(symbols, lines, read, count).Ok?
    ensures RowCount(count) <= |lines|
    ensures Grouped(symbols, Rows(lines, read), RowCount(count), BlockOf(symbols, lines, read, count).value)
  {
    var rows := Rows(lines, read);
    var m := RowCount(count);
    var n := |symbols|;
    BlockShape(symbols, rows, m, n);
    BlockComplete(symbols, rows, m, n);
  }

  /** The nested loop over the atoms and the first `count` lines that groups the bonds by atom. */
  method BondBlockLoop<L, E>(symbols: seq<string>, lines: seq<L>, read: L -> Row<E>, count: int)
    returns (r: Result<seq<AtomBonds<E>>>)
    ensures r.Err? <==> BlockOf(symbols, lines, read, count).Err?
    ensures r.Ok? ==> r == BlockOf(symbols, lines, read, count)
  {
    var atomNo := |symbols|;
    var m := RowCount(count);
    var bondList := [];
    var i := 0;
    while i < atomNo
      invariant 0 <= i <= atomNo
      invariant GroupedUpTo(symbols, lines, read, m, i, bondList)
    {
      var atomBonds := FileBonds(lines, read, m, i + 1);
      if atomBonds.Err? {
        BlockOfFails(symbols, lines, read, count, i + 1);
        return Err(atomBonds.error);
      }
      ghost var before := bondList;
      if |atomBonds.value| > 0 {
        bondList := bondList + [AtomBonds(i + 1, symbols[i], atomBonds.value)];
      }
      GroupedStep(symbols, lines, read, m, i, before, atomBonds.value, bondList);
      i := i + 1;
    }
    BlockOfSucceeds(symbols, lines, read, count, bondList);
    return Ok(bondList);
  }

  /**
   * After `i` rounds of the outer loop: the rows looked at so far are readable for atoms
   * 1..i and the list built is the block of those atoms.
   */
  ghost predicate GroupedUpTo<L, E>(symbols: seq<string>, lines: seq<L>, read: L -> Row<E>, m: nat, i: nat,
                                   bondList: seq<AtomBonds<E>>)
  {
    i <= |symbols|
    && (i == 0 ==> bondList == [])
    && (i > 0 ==> m <= |lines| && (forall a :: 1 <= a <= i ==> FiledReadable(Rows(lines, read), a, m))
                  && bondList == Block(symbols, Rows(lines, read), m, i))
  }

  /** One round of the outer loop, for atom `i + 1`, whose filed bonds were read as `f`. */
  lemma GroupedStep<L, E>(symbols: seq<string>, lines: seq<L>, read: L -> Row<E>, m: nat, i: nat,
                          before: seq<AtomBonds<E>>, f: seq<E>, after: seq<AtomBonds<E>>)
    requires i < |symbols| && GroupedUpTo(symbols, lines, read, m, i, before)
    requires m <= |lines| && FiledReadable(Rows(lines, read), i + 1, m)
    requires f == Filed(Rows(lines, read), i + 1, m)
    requires after == before + (if |f| > 0 then [AtomBonds(i + 1, symbols[i], f)] else [])
    ensures GroupedUpTo(symbols, lines, read, m, i + 1, after)
  {
    var rows := Rows(lines, read);
    assert i == 0 ==> before == Block(symbols, rows, m, i);
    assert (|f| > 0) == (f != []);
    BlockGrows(symbols, rows, m, i, before, after);
  }

  lemma BlockGrows<E>(symbols: seq<string>, rows: seq<Row<E>>, m: nat, i: nat, before: seq<AtomBonds<E>>, after: seq<AtomBonds<E>>)
    requires i < |symbols| && m <= |rows|
    requires before == Block(symbols, rows, m, i)
    requires after == before + (if Filed(rows, i + 1, m) != [] then [AtomBonds(i + 1, symbols[i], Filed(rows, i + 1, m))] else [])
    ensures after == Block(symbols, rows, m, i + 1)
  {
  }

  lemma BlockOfFails<L, E>(symbols: seq<string>, lines: seq<L>, read: L -> Row<E>, count: int, a: int)
    requires 1 <= a <= |symbols|
    requires !(RowCount(count) <= |lines| && FiledReadable(Rows(lines, read), a, RowCount(count)))
    ensures BlockOf(symbols, lines, read, count).Err?
  {
    var m := RowCount(count);
    if m <= |lines| {
      ReadableByAtom(|symbols|, Rows(lines, read), m);
    }
  }

  lemma BlockOfSucceeds<L, E>(symbols: seq<string>, lines: seq<L>, read: L -> Row<E>, count: int, block: seq<AtomBonds<E>>)
    requires GroupedUpTo(symbols, lines, read, RowCount(count), |symbols|, block)
    ensures BlockOf(symbols, lines, read, count) == Ok(block)
  {
    if |symbols| > 0 {
      ReadableByAtom(|symbols|, Rows(lines, read), RowCount(count));
    }
  }

  /**
   * The inner loop for atom `a`: the bonds of the first `m` lines filed under it, failing
   * on a missing or unreadable line.
   */
  method FileBonds<L, E>(lines: seq<L>, read: L -> Row<E>, m: nat, a: int) returns (r: Result<seq<E>>)
    ensures r.Ok? <==> m <= |lines| && FiledReadable(Rows(lines, read), a, m)
    ensures r.Ok? ==> r.value == Filed(Rows(lines, read), a, m)
  {
    ghost var rows := Rows(lines, read);
    var atomBonds := [];
    var j := 0;
    while j < m
      invariant 0 <= j <= m && j <= |lines|
      invariant FiledReadable(rows, a, j)
      invariant atomBonds == Filed(rows, a, j)
    {
      if j >= |lines| {
        return Err("list index out of range");
      }
      var row := read(lines[j]);
      if row.head.None? {
        FiledUnreadable(rows, a, j, m);
        return Err("bond line cannot be read");
      }
      if row.head.value == a {
        if row.entry.None? {
          FiledUnreadable(rows, a, j, m);
          return Err("bond line cannot be read");
        }
        atomBonds := atomBonds + [row.entry.value];
      }
      FiledReadableStep(rows, a, j);
      j := j + 1;
    }
    return Ok(atomBonds);
  }
}
