/**
 * The PubChem JSON side of `molparser.py`: the property list, the three bond columns
 * turned into the bond matrix, and the bond block built from that matrix.
 */
module JsonParser {
  import opened Wrappers
  import opened PyText
  import opened PyDict
  import opened BondBlocks
  import opened AtomIds

  // ---------------------------------------------------------------------------------
  // Properties
  // ---------------------------------------------------------------------------------

  /** One entry of `props`: its `['urn']['label']` and the values of its `value` dict, in order. */
  datatype PropEntry<V> = PropEntry(key: string, values: seq<V>)

  /** Every entry has at least one value. */
  predicate AllValued<V>(data: seq<PropEntry<V>>) {
    forall i :: 0 <= i < |data| ==> data[i].values != []
  }

  /** The (label, first value) pair of each entry. */
  function Firsts<V>(data: seq<PropEntry<V>>): (r: seq<(string, V)>)
    requires AllValued(data)
    ensures |r| == |data|
    ensures forall i :: 0 <= i < |data| ==> r[i] == (data[i].key, data[i].values[0])
  {
    seq(|data|, i requires 0 <= i < |data| => (data[i].key, data[i].values[0]))
  }

  /**
   * `__json_parser_props`: each key mapped to the first of its values, a later entry
   * overwriting an earlier one with the same key; an entry without values fails.
   */
  function PropsOf<V>(data: seq<PropEntry<V>>): Result<Dict<string, V>> {
    if AllValued(data) then Ok(FromPairs(Firsts(data))) else Err("list index out of range")
  }

  /**
   * The properties are read exactly when every entry has a value. Then the keys are the
   * labels, in order of first appearance, and each label holds the first value of the
   * last entry carrying it.
   */
  lemma PropsLastWins<V>(data: seq<PropEntry<V>>)
    ensures PropsOf(data).Ok? <==> forall i :: 0 <= i < |data| ==> data[i].values != []
    ensures PropsOf(data).Ok? ==>
      var d := PropsOf(data).value;
      d.Valid()
      && (forall k :: k in d.keys <==> exists i :: 0 <= i < |data| && data[i].key == k)
      && forall i :: 0 <= i < |data| && (forall j :: i < j < |data| ==> data[j].key != data[i].key) ==>
           d.Get(data[i].key) == Some(data[i].values[0])
  {
    if AllValued(data) {
      PairsLastWins(data, Firsts(data));
    }
  }

  /** `PropsLastWins` for any list of (label, first value) pairs of the entries. */
  lemma {:induction false} PairsLastWins<V>(data: seq<PropEntry<V>>, pairs: seq<(string, V)>)
    requires AllValued(data) && |pairs| == |data|
    requires forall i :: 0 <= i < |data| ==> pairs[i] == (data[i].key, data[i].values[0])
    ensures FromPairs(pairs).Valid()
    ensures forall k :: k in FromPairs(pairs).keys <==> exists i :: 0 <= i < |data| && data[i].key == k
    ensures forall i :: 0 <= i < |data| && (forall j :: i < j < |data| ==> data[j].key != data[i].key) ==>
      FromPairs(pairs).Get(data[i].key) == Some(data[i].values[0])
  {
    forall k ensures k in FromPairs(pairs).keys <==> exists i :: 0 <= i < |data| && data[i].key == k {
      FromPairsLastWins(pairs, k);
    }
    forall i | 0 <= i < |data| && (forall j :: i < j < |data| ==> data[j].key != data[i].key) {
      PairLastWins(data, pairs, i);
    }
  }

  /** The last entry with a given label decides that label's value. */
  lemma {:induction false} PairLastWins<V>(data: seq<PropEntry<V>>, pairs: seq<(string, V)>, i: nat)
    requires AllValued(data) && |pairs| == |data| && i < |data|
    requires forall i :: 0 <= i < |data| ==> pairs[i] == (data[i].key, data[i].values[0])
    requires forall j :: i < j < |data| ==> data[j].key != data[i].key
    ensures FromPairs(pairs).Get(data[i].key) == Some(data[i].values[0])
  {
    FromPairsLastWins(pairs, data[i].key);
    LastValueAt(pairs, i);
  }

  /** The loop of `__json_parser_props`, assigning `res[label]` entry by entry. */
  method JsonParserProps<V>(data: seq<PropEntry<V>>) returns (r: Result<Dict<string, V>>)
    ensures r == PropsOf(data)
  {
    var res: Dict<string, V> := EmptyDict();
    var i := 0;
    while i < |data|
      invariant 0 <= i <= |data|
      invariant AllValued(data[..i])
      invariant res == FromPairs(Firsts(data[..i]))
    {
      if data[i].values == [] {
        assert !AllValued(data);
        return Err("list index out of range");
      }
      FirstsSnoc(data, i);
      FromPairsSnoc(Firsts(data[..i]), data[i].key, data[i].values[0]);
      res := Put(res, data[i].key, data[i].values[0]);
      i := i + 1;
    }
    assert data[..i] == data;
    return Ok(res);
  }

  lemma FirstsSnoc<V>(data: seq<PropEntry<V>>, i: nat)
    requires i < |data| && AllValued(data[..i]) && data[i].values != []
    ensures AllValued(data[..i + 1])
    ensures Firsts(data[..i + 1]) == Firsts(data[..i]) + [(data[i].key, data[i].values[0])]
  {
    assert data[..i + 1] == data[..i] + [data[i]];
  }

  // ---------------------------------------------------------------------------------
  // Bond columns
  // ---------------------------------------------------------------------------------

  /**
   * `__json_parser_bonds`: the transposed array of the columns `aid1`, `aid2` and `order`;
   * columns of unequal length make no matrix.
   */
  function BondMatrix(aid1: seq<int>, aid2: seq<int>, order: seq<int>): (r: Result<seq<Bond>>)
    ensures r.Ok? <==> |aid1| == |aid2| == |order|
  {
    if |aid1| == |aid2| == |order| then
      Ok(seq(|aid1|, k requires 0 <= k < |aid1| => (aid1[k], aid2[k], order[k])))
    else Err("setting an array element with a sequence")
  }

  /** The three columns of a bond matrix. */
  function Columns(m: seq<Bond>): (seq<int>, seq<int>, seq<int>) {
    (seq(|m|, k requires 0 <= k < |m| => m[k].0),
     seq(|m|, k requires 0 <= k < |m| => m[k].1),
     seq(|m|, k requires 0 <= k < |m| => m[k].2))
  }

  /** Row k of the matrix is bond k: its columns are the three input columns again. */
  lemma BondMatrixColumns(aid1: seq<int>, aid2: seq<int>, order: seq<int>)
    requires |aid1| == |aid2| == |order|
    ensures Columns(BondMatrix(aid1, aid2, order).value) == (aid1, aid2, order)
  {
    var c := Columns(BondMatrix(aid1, aid2, order).value);
    assert c.0 == aid1 && c.1 == aid2 && c.2 == order;
  }

  /** Every bond matrix is the matrix of its own columns. */
  lemma ColumnsBondMatrix(m: seq<Bond>)
    ensures BondMatrix(Columns(m).0, Columns(m).1, Columns(m).2) == Ok(m)
  {
    var c := Columns(m);
    assert BondMatrix(c.0, c.1, c.2).value == m;
  }

  // ---------------------------------------------------------------------------------
  // Bond block
  // ---------------------------------------------------------------------------------

  /**
   * A bond as `__json_atom_bondblock` files it under its first atom: the second atom's id
   * and symbol, the two symbols joined by `-`, the bond order, and the two ids joined by `-`.
   */
  datatype JsonBond = JsonBond(id2: int, symbol2: string, name: string, order: int, bondId: string)

  /**
   * A bond-matrix row read against the element list. Its first column always reads; the
   * rest only matters for a row filed under an atom, and fails when the second atom's
   * index is out of range, negative indices counting from the end.
   */
  function JsonRow(elements: seq<string>, row: Bond): Row<JsonBond> {
    var a := row.0;
    Row(Some(a),
      if 1 <= a <= |elements| then
        match PyIndex(elements, row.1 - 1)
        case Some(symbol2) =>
          Some(JsonBond(row.1, symbol2, elements[a - 1] + "-" + symbol2, row.2, IntToString(a) + "-" + IntToString(row.1)))
        case None => None
      else None)
  }

  /** Bond-matrix rows read against the element list. */
  function JsonRead(elements: seq<string>): (r: Bond -> Row<JsonBond>)
    ensures forall row :: r(row).head == Some(row.0)
    ensures forall row :: r(row).entry.Some? ==>
      1 <= row.0 <= |elements| && r(row).entry.value.id2 == row.1 && r(row).entry.value.order == row.2
  {
    row => JsonRow(elements, row)
  }

  /**
   * `__json_atom_bondblock`: the bond block of atoms 1..atomNo over the first `bondNo`
   * rows of the matrix. It fails when there are fewer elements or fewer rows than that,
   * or when a filed row's second atom is not in the element list.
   */
  function JsonBondBlock(atomNo: int, bondNo: int, elements: seq<string>, bondMatrix: seq<Bond>)
    : (r: Result<seq<AtomBonds<JsonBond>>>)
    ensures atomNo > |elements| ==> r.Err?
    ensures atomNo <= 0 ==> r == Ok([])
  {
    if atomNo > |elements| then Err("list index out of range")
    else BlockOf(elements[..RowCount(atomNo)], bondMatrix, JsonRead(elements), bondNo)
  }

  /** The nested loop over the atoms and the matrix rows of `__json_atom_bondblock`. */
  method JsonAtomBondBlock(atomNo: int, bondNo: int, elements: seq<string>, bondMatrix: seq<Bond>)
    returns (r: Result<seq<AtomBonds<JsonBond>>>)
    ensures r.Err? <==> JsonBondBlock(atomNo, bondNo, elements, bondMatrix).Err?
    ensures r.Ok? ==> r == JsonBondBlock(atomNo, bondNo, elements, bondMatrix)
  {
    if atomNo > |elements| {
      return Err("list index out of range");
    }
    var atomList := elements[..RowCount(atomNo)];
    r := BondBlockLoop(atomList, bondMatrix, JsonRead(elements), bondNo);
  }

  /**
   * A bond block that was built, for at least one atom, groups the first `bondNo` rows by
   * their first column: entries in ascending atom id, one per atom with a row, each row
   * once, in row order.
   */
  lemma JsonBondBlockShape(atomNo: int, bondNo: int, elements: seq<string>, bondMatrix: seq<Bond>)
    requires atomNo >= 1 && JsonBondBlock(atomNo, bondNo, elements, bondMatrix).Ok?
    ensures atomNo <= |elements| && RowCount(bondNo) <= |bondMatrix|
    ensures Grouped(elements[..atomNo], Rows(bondMatrix, JsonRead(elements)), RowCount(bondNo),
                    JsonBondBlock(atomNo, bondNo, elements, bondMatrix).value)
  {
    BlockOfShape(elements[..atomNo], bondMatrix, JsonRead(elements), bondNo);
  }

  /**
   * Each bond filed under atom `e.id` comes from one of the first `bondNo` rows, that row
   * joining atom `e.id` to atom `b.id2` with order `b.order`; its name joins the two
   * symbols and its id the two ids with `-`.
   */
  lemma JsonBondEntries(atomNo: int, bondNo: int, elements: seq<string>, bondMatrix: seq<Bond>, k: nat, b: JsonBond)
    requires atomNo >= 1 && JsonBondBlock(atomNo, bondNo, elements, bondMatrix).Ok?
    requires k < |JsonBondBlock(atomNo, bondNo, elements, bondMatrix).value|
    requires b in JsonBondBlock(atomNo, bondNo, elements, bondMatrix).value[k].bonds
    ensures var e := JsonBondBlock(atomNo, bondNo, elements, bondMatrix).value[k];
      1 <= e.id <= atomNo && e.symbol == elements[e.id - 1]
      && PyIndex(elements, b.id2 - 1) == Some(b.symbol2)
      && b.name == e.symbol + "-" + b.symbol2
      && b.bondId == IntToString(e.id) + "-" + IntToString(b.id2)
      && exists j :: 0 <= j < RowCount(bondNo) && j < |bondMatrix| && bondMatrix[j] == (e.id, b.id2, b.order)
  {
    var block := JsonBondBlock(atomNo, bondNo, elements, bondMatrix).value;
    var rows := Rows(bondMatrix, JsonRead(elements));
    var m := RowCount(bondNo);
    JsonBondBlockShape(atomNo, bondNo, elements, bondMatrix);
    var e := block[k];
    FiledMembers(rows, e.id, m, b);
    var j :| 0 <= j < m && rows[j].head == Some(e.id) && rows[j].entry == Some(b);
    assert rows[j] == JsonRow(elements, bondMatrix[j]);
  }
}
