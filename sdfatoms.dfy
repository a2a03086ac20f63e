/** The atom block of a V2000 SDfile record. */
module SdfAtoms {
  import opened Wrappers
  import opened PyText

  /** An atom record: 1-based id, element symbol and coordinates. */
  datatype Atom<R> = Atom(id: int, symbol: string, x: R, y: R, z: R)

  /** An atom line: three coordinates and then the symbol, as white-space separated fields. */
  function AtomRow<R>(line: string, id: int, parseFloat: string -> Option<R>): (r: Option<Atom<R>>)
    ensures r.Some? <==> (|SplitWs(line)| >= 4 && parseFloat(SplitWs(line)[0]).Some?
      && parseFloat(SplitWs(line)[1]).Some? && parseFloat(SplitWs(line)[2]).Some?)
    ensures r.Some? ==> r.value.id == id && r.value.symbol == SplitWs(line)[3]
  {
    var t := SplitWs(line);
    if |t| < 4 then None
    else match (parseFloat(t[0]), parseFloat(t[1]), parseFloat(t[2]))
      case (Some(x), Some(y), Some(z)) => Some(Atom(id, t[3], x, y, z))
      case _ => None
  }

  /**
   * The first `n` atom lines read as atoms 1..n. It fails when there are fewer than `n`
   * lines or one of them cannot be read.
   */
  function AtomBlock<R>(rows: seq<string>, n: nat, parseFloat: string -> Option<R>): (r: Result<seq<Atom<R>>>)
    ensures r.Ok? ==> |r.value| == n <= |rows|
  {
    if n == 0 then Ok([])
    else
      match AtomBlock(rows, n - 1, parseFloat)
      case Err(e) => Err(e)
      case Ok(atoms) =>
        if n > |rows| then Err("list index out of range")
        else match AtomRow(rows[n - 1], n, parseFloat)
          case None => Err("atom line cannot be read")
          case Some(a) => Ok(atoms + [a])
  }

  /** Every one of the first `n` lines exists and reads as an atom with its line number as id. */
  predicate RowsRead<R>(rows: seq<string>, n: nat, parseFloat: string -> Option<R>) {
    n <= |rows| && forall k :: 0 <= k < n ==> AtomRow(rows[k], k + 1, parseFloat).Some?
  }

  /**
   * The block reads exactly when there are `n` lines and each of them reads as an atom;
   * atom `k` is then line `k` read with id `k + 1`.
   */
  lemma AtomBlockOk<R>(rows: seq<string>, n: nat, parseFloat: string -> Option<R>)
    ensures AtomBlock(rows, n, parseFloat).Ok? <==> RowsRead(rows, n, parseFloat)
    ensures AtomBlock(rows, n, parseFloat).Ok? ==> forall k :: 0 <= k < n ==>
      Some(AtomBlock(rows, n, parseFloat).value[k]) == AtomRow(rows[k], k + 1, parseFloat)
  {
    if AtomBlock(rows, n, parseFloat).Ok? {
      AtomBlockReads(rows, n, parseFloat);
    } else {
      AtomBlockFails(rows, n, parseFloat);
    }
  }

  lemma {:induction false} AtomBlockReads<R>(rows: seq<string>, n: nat, parseFloat: string -> Option<R>)
    requires AtomBlock(rows, n, parseFloat).Ok?
    ensures RowsRead(rows, n, parseFloat)
    ensures forall k :: 0 <= k < n ==>
      Some(AtomBlock(rows, n, parseFloat).value[k]) == AtomRow(rows[k], k + 1, parseFloat)
  {
    if n > 0 {
      var prev := AtomBlock(rows, n - 1, parseFloat);
      assert prev.Ok?;
      AtomBlockReads(rows, n - 1, parseFloat);
      var a := AtomRow(rows[n - 1], n, parseFloat);
      var atoms := prev.value + [a.value];
      assert AtomBlock(rows, n, parseFloat).value == atoms;
      forall k | 0 <= k < n - 1 ensures atoms[k] == prev.value[k] {
      }
    }
  }

  lemma {:induction false} AtomBlockFails<R>(rows: seq<string>, n: nat, parseFloat: string -> Option<R>)
    requires !AtomBlock(rows, n, parseFloat).Ok?
    ensures !RowsRead(rows, n, parseFloat)
  {
    assert n > 0;
    if AtomBlock(rows, n - 1, parseFloat).Ok? {
      if n <= |rows| {
        assert AtomRow(rows[n - 1], n, parseFloat).None?;
      }
    } else {
      AtomBlockFails(rows, n - 1, parseFloat);
      if n <= |rows| {
        var k :| 0 <= k < n - 1 && AtomRow(rows[k], k + 1, parseFloat).None?;
      }
    }
  }

  /** Atoms are numbered 1..n in file order and take their symbol from their line's 4th field. */
  lemma AtomIdsAndSymbols<R>(rows: seq<string>, n: nat, parseFloat: string -> Option<R>)
    requires AtomBlock(rows, n, parseFloat).Ok?
    ensures n <= |rows|
    ensures forall k :: 0 <= k < n ==>
      AtomBlock(rows, n, parseFloat).value[k].id == k + 1 && |SplitWs(rows[k])| >= 4
      && AtomBlock(rows, n, parseFloat).value[k].symbol == SplitWs(rows[k])[3]
  {
    AtomBlockOk(rows, n, parseFloat);
  }

  /** The symbols of a list of atoms, in order. */
  function Symbols<R>(atoms: seq<Atom<R>>): (r: seq<string>)
    ensures |r| == |atoms| && forall k :: 0 <= k < |atoms| ==> r[k] == atoms[k].symbol
  {
    seq(|atoms|, k requires 0 <= k < |atoms| => atoms[k].symbol)
  }

  /** The coordinates of a list of atoms, in order. */
  function Coordinates<R>(atoms: seq<Atom<R>>): (r: seq<(R, R, R)>)
    ensures |r| == |atoms| && forall k :: 0 <= k < |atoms| ==> r[k] == (atoms[k].x, atoms[k].y, atoms[k].z)
  {
    seq(|atoms|, k requires 0 <= k < |atoms| => (atoms[k].x, atoms[k].y, atoms[k].z))
  }

  /** Reads the atom block line by line. */
  method ReadAtoms<R>(elementRows: seq<string>, atomNo: nat, parseFloat: string -> Option<R>)
    returns (r: Result<seq<Atom<R>>>)
    ensures r == AtomBlock(elementRows, atomNo, parseFloat)
  {
    var atoms := [];
    var i := 0;
    while i < atomNo
      invariant 0 <= i <= atomNo
      invariant AtomBlock(elementRows, i, parseFloat) == Ok(atoms)
    {
      if i >= |elementRows| {
        AtomBlockTooShort(elementRows, i, atomNo, parseFloat);
        return Err("list index out of range");
      }
      var atom := AtomRow(elementRows[i], i + 1, parseFloat);
      if atom.None? {
        AtomBlockStops(elementRows, i, atomNo, parseFloat);
        return Err("atom line cannot be read");
      }
      atoms := atoms + [atom.value];
      i := i + 1;
    }
    return Ok(atoms);
  }

  lemma AtomBlockTooShort<R>(rows: seq<string>, i: nat, n: nat, parseFloat: string -> Option<R>)
    requires |rows| <= i < n && AtomBlock(rows, i, parseFloat).Ok?
    ensures AtomBlock(rows, n, parseFloat) == Err("list index out of range")
    decreases n - i
  {
    if i < n - 1 {
      AtomBlockTooShort(rows, i, n - 1, parseFloat);
    }
  }

  lemma AtomBlockStops<R>(rows: seq<string>, i: nat, n: nat, parseFloat: string -> Option<R>)
    requires i < n && i < |rows| && AtomBlock(rows, i, parseFloat).Ok? && AtomRow(rows[i], i + 1, parseFloat).None?
    ensures AtomBlock(rows, n, parseFloat) == Err("atom line cannot be read")
    decreases n - i
  {
    if i < n - 1 {
      AtomBlockStops(rows, i, n - 1, parseFloat);
    }
  }
}
