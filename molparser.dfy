/**
 * The V2000 Molfile/SDfile reader of `molinfo/docs/molparser.py` (`MolParser.sdf_parser`)
 * and its property-value analyser (`__var_analyzer`).
 *
 * An SDfile record is three header lines, a counts line, the atom block, the bond block,
 * the line `M  END` and then data items `> <NAME>` followed by their value lines. The
 * data items reach the parser as (name, body) pairs already cut out of the text.
 * Coordinates are an opaque payload `R`, read by a caller-supplied `parseFloat`.
 */
module MolParser {
  import opened Wrappers
  import opened PyText
  import opened PyDict
  import opened BondBlocks
  import Structure
  import opened SdfValues
  import opened SdfCounts
  import opened SdfAtoms

  // ---------------------------------------------------------------------------------
  // Bond block
  // ---------------------------------------------------------------------------------

  /**
   * A bond as filed under its first atom: the second atom's id and symbol, the two symbols
   * written together, and the bond order.
   */
  datatype SdfBond = SdfBond(id2: int, symbol2: string, name: string, order: int)

  /**
   * The second atom and the order of a bond line's fields `t`, for a bond whose first atom
   * has symbol `symbol1`; the second atom is looked up with Python's negative indexing.
   */
  function BondFields(symbols: seq<string>, symbol1: string, t: seq<string>): (r: Option<SdfBond>)
    ensures r.Some? ==> (|t| >= 3 && ParseInt(t[1]) == Some(r.value.id2) && ParseInt(t[2]) == Some(r.value.order)
      && PyIndex(symbols, r.value.id2 - 1) == Some(r.value.symbol2) && r.value.name == symbol1 + r.value.symbol2)
    ensures r.None? ==>
      |t| < 3 || ParseInt(t[1]).None? || ParseInt(t[2]).None? || PyIndex(symbols, ParseInt(t[1]).value - 1).None?
  {
    if |t| < 3 then None
    else match (ParseInt(t[1]), ParseInt(t[2]))
      case (Some(id2), Some(order)) =>
        (match PyIndex(symbols, id2 - 1)
         case Some(symbol2) => Some(SdfBond(id2, symbol2, symbol1 + symbol2, order))
         case None => None)
      case _ => None
  }

  /**
   * A bond line read against the atom symbols. Its first field is read for every line;
   * the rest only for a line whose first field names one of the atoms.
   */
  function SdfRow(symbols: seq<string>, line: string): Row<SdfBond> {
    var t := SplitWs(line);
    var head := if |t| >= 1 then ParseInt(t[0]) else None;
    Row(head, if head.Some? && 1 <= head.value <= |symbols| then BondFields(symbols, symbols[head.value - 1], t) else None)
  }

  /**
   * The bond block of the atoms `symbols` over the first `bondNo` bond lines. With atoms
   * present it fails when there are fewer lines than that, or when a line cannot be read.
   */
  function SdfBonds(symbols: seq<string>, bondRows: seq<string>, bondNo: int): (r: Result<seq<AtomBonds<SdfBond>>>)
    ensures symbols == [] ==> r == Ok([])
    ensures symbols != [] && r.Ok? ==>
      RowCount(bondNo) <= |bondRows| && Grouped(symbols, Rows(bondRows, SdfRead(symbols)), RowCount(bondNo), r.value)
  {
    var block := BlockOf(symbols, bondRows, SdfRead(symbols), bondNo);
    if symbols != [] && block.Ok? then
      BlockOfShape(symbols, bondRows, SdfRead(symbols), bondNo);
      block
    else block
  }

  /** Bond lines read against the atom symbols. */
  function SdfRead(symbols: seq<string>): string -> Row<SdfBond> {
    line => SdfRow(symbols, line)
  }

  /** The nested loop over atoms and bond lines of `sdf_parser`. */
  method SdfBondBlock(atomList: seq<string>, bondRows: seq<string>, bondNo: int)
    returns (r: Result<seq<AtomBonds<SdfBond>>>)
    ensures r.Err? <==> SdfBonds(atomList, bondRows, bondNo).Err?
    ensures r.Ok? ==> r == SdfBonds(atomList, bondRows, bondNo)
  {
    r := BondBlockLoop(atomList, bondRows, SdfRead(atomList), bondNo);
  }

  // ---------------------------------------------------------------------------------
  // The record
  // ---------------------------------------------------------------------------------

  /** The result dict of `sdf_parser`, less the centred coordinates. */
  datatype SdfRecord<R> = SdfRecord(
    headerBlock: seq<string>,
    countsLine: string,
    atomNumbers: int,
    cid: Option<PropValue>,
    name: PropValue,
    formula: PropValue,
    mass: Option<PropValue>,
    atomNames: seq<string>,
    atomElements: seq<string>,
    bondNumbers: int,
    atomBlock: seq<Atom<R>>,
    bondBlock: seq<AtomBonds<SdfBond>>,
    xyzList: seq<(R, R, R)>,
    compoundProperties: Dict<string, PropValue>)

  /** The names of the data items the record reads. */
  const CidKey := "PUBCHEM_COMPOUND_CID"
  const NameKey := "PUBCHEM_IUPAC_NAME"
  const FormulaKey := "PUBCHEM_MOLECULAR_FORMULA"
  const ExactMassKey := "PUBCHEM_EXACT_MASS"
  const WeightKey := "PUBCHEM_MOLECULAR_WEIGHT"

  /** `d.get(k)` with a default for a missing key. */
  function GetOr(d: Dict<string, PropValue>, k: string, default: PropValue): PropValue {
    match d.Get(k) case Some(v) => v case None => default
  }

  /** The formula written from the atom symbols, as `create_formula` writes it. */
  function AtomFormula(symbols: seq<string>): string {
    Strip(Structure.Render(Structure.Tally(symbols)))
  }

  /**
   * `sdf_parser` on the text of one record and its data items. The connection table is
   * the lines from index 4 up to the first `M  END`.
   */
  function Parse<R>(source: string, items: seq<(string, string)>, parseFloat: string -> Option<R>): (r: Result<SdfRecord<R>>)
    ensures r.Ok? ==>
      |SplitLines(source)| >= 4 && r.value.countsLine == SplitLines(source)[3]
      && Contains(r.value.countsLine, "V2000") && "M  END" in SplitLines(source) && r.value.atomNumbers > 0
  {
    ParseLines(SplitLines(source), items, parseFloat)
  }

  /** The checks on the line list: a counts line with `V2000` and an `M  END` line. */
  function ParseLines<R>(lines: seq<string>, items: seq<(string, string)>, parseFloat: string -> Option<R>): (r: Result<SdfRecord<R>>)
    ensures r.Ok? ==>
      |lines| >= 4 && r.value.countsLine == lines[3] && Contains(lines[3], "V2000") && "M  END" in lines
      && r.value.atomNumbers > 0
  {
    if |lines| < 4 then Err("list index out of range")
    else if !Contains(lines[3], "V2000") then Err("SDF file version is not compatible with this method, import 2000 version.")
    else match IndexOf(lines, "M  END")
      case None => Err("'M  END' is not in list")
      case Some(mEnd) => ParseTable(lines, Slice(lines, 4, mEnd), items, parseFloat)
  }

  /**
   * The counts, the atom block (the first atom-count lines of the table) and the bond
   * block (the lines that follow it).
   */
  function ParseTable<R>(lines: seq<string>, table: seq<string>, items: seq<(string, string)>, parseFloat: string -> Option<R>): (r: Result<SdfRecord<R>>)
    requires |lines| >= 4
    ensures r.Ok? ==>
      CountsFrom(SplitWs(lines[3]), table).Ok?
      && r.value.atomNumbers == CountsFrom(SplitWs(lines[3]), table).value.atoms > 0
      && r.value.bondNumbers == CountsFrom(SplitWs(lines[3]), table).value.bonds
      && r.value.countsLine == lines[3] && r.value.headerBlock == lines[..3]
  {
    match CountsFrom(SplitWs(lines[3]), table)
    case Err(e) => Err(e)
    case Ok(counts) =>
      var n := counts.atoms;
      if n <= 0 then Err("atom elements list is empty")
      else match AtomBlock(Slice(table, 0, n), n, parseFloat)
        case Err(e) => Err(e)
        case Ok(atoms) =>
          match SdfBonds(Symbols(atoms), table[n..], counts.bonds)
          case Err(e) => Err(e)
          case Ok(block) => Ok(Record(lines, counts, atoms, block, FromPairs(Normalized(items))))
  }

  /** The record's fields, with the fallbacks for missing data items. */
  function Record<R>(lines: seq<string>, counts: Counts, atoms: seq<Atom<R>>, block: seq<AtomBonds<SdfBond>>,
                     props: Dict<string, PropValue>): SdfRecord<R>
    requires |lines| >= 4
  {
    var atomList := Symbols(atoms);
    SdfRecord(
      lines[..3], lines[3], counts.atoms,
      props.Get(CidKey),
      GetOr(props, NameKey, Text("")),
      GetOr(props, FormulaKey, Text(AtomFormula(atomList))),
      if props.Get(ExactMassKey).Some? then props.Get(ExactMassKey)
      else props.Get(WeightKey),
      atomList, atomList, counts.bonds, atoms, block, Coordinates(atoms), props)
  }

  /** `sdf_parser`: reads the counts, the atoms, the data items, the formula and the bonds in turn. */
  method SdfParser<R>(sdfSource: string, items: seq<(string, string)>, parseFloat: string -> Option<R>)
    returns (r: Result<SdfRecord<R>>)
    ensures r.Err? <==> Parse(sdfSource, items, parseFloat).Err?
    ensures r.Ok? ==> r == Parse(sdfSource, items, parseFloat)
  {
    var sdfSourceList := SplitLines(sdfSource);
    if |sdfSourceList| < 4 {
      return Err("list index out of range");
    }
    var headerBlock := sdfSourceList[..3];
    var countsLine := sdfSourceList[3];
    if !Contains(countsLine, "V2000") {
      return Err("SDF file version is not compatible with this method, import 2000 version.");
    }
    var mEnd := IndexOf(sdfSourceList, "M  END");
    if mEnd.None? {
      return Err("'M  END' is not in list");
    }
    var connectionTable := Slice(sdfSourceList, 4, mEnd.value);
    assert Parse(sdfSource, items, parseFloat) == ParseTable(sdfSourceList, connectionTable, items, parseFloat);
    var counts := ReadCounts(countsLine, connectionTable);
    if counts.Err? {
      return Err(counts.error);
    }
    var atomNo := counts.value.atoms;
    var bondNo := counts.value.bonds;
    var compoundProperties := VarAnalyzer(items);
    var loopCount: nat := if atomNo < 0 then 0 else atomNo;
    var atoms := ReadAtoms(Slice(connectionTable, 0, loopCount), loopCount, parseFloat);
    if atoms.Err? {
      return Err(atoms.error);
    }
    var atomList := Symbols(atoms.value);
    var matFormula := Structure.CreateFormula(atomList);
    if matFormula.Err? {
      return Err(matFormula.error);
    }
    var bondRows := connectionTable[atomNo..];
    var bondList := SdfBondBlock(atomList, bondRows, bondNo);
    if bondList.Err? {
      return Err(bondList.error);
    }
    assert ParseTable(sdfSourceList, connectionTable, items, parseFloat)
      == Ok(Record(sdfSourceList, counts.value, atoms.value, bondList.value, compoundProperties));
    var mass := compoundProperties.Get(ExactMassKey);
    if mass.None? {
      mass := compoundProperties.Get(WeightKey);
    }
    r := Ok(SdfRecord(
      headerBlock, countsLine, atomNo,
      compoundProperties.Get(CidKey),
      GetOr(compoundProperties, NameKey, Text("")),
      GetOr(compoundProperties, FormulaKey, Text(matFormula.value)),
      mass,
      atomList, atomList, bondNo, atoms.value, bondList.value, Coordinates(atoms.value), compoundProperties));
  }

  // ---------------------------------------------------------------------------------
  // What a successful parse guarantees
  // ---------------------------------------------------------------------------------

  /** A successful parse has passed the line checks and parsed the connection table. */
  lemma ParseLinesOk<R>(lines: seq<string>, items: seq<(string, string)>, parseFloat: string -> Option<R>)
    requires ParseLines(lines, items, parseFloat).Ok?
    ensures |lines| >= 4 && Contains(lines[3], "V2000") && IndexOf(lines, "M  END").Some?
    ensures ParseTable(lines, Slice(lines, 4, IndexOf(lines, "M  END").value), items, parseFloat)
      == ParseLines(lines, items, parseFloat)
  {
  }

  /** A successful table parse: the counts, atoms and bonds each read, and the record built from them. */
  lemma ParseTableOk<R>(lines: seq<string>, table: seq<string>, items: seq<(string, string)>, parseFloat: string -> Option<R>)
    requires |lines| >= 4 && ParseTable(lines, table, items, parseFloat).Ok?
    ensures CountsFrom(SplitWs(lines[3]), table).Ok?
    ensures var counts := CountsFrom(SplitWs(lines[3]), table).value;
      1 <= counts.atoms <= |table| && AtomBlock(table[..counts.atoms], counts.atoms, parseFloat).Ok?
      && SdfBonds(Symbols(AtomBlock(table[..counts.atoms], counts.atoms, parseFloat).value), table[counts.atoms..], counts.bonds).Ok?
      && ParseTable(lines, table, items, parseFloat).value
        == Record(lines, counts, AtomBlock(table[..counts.atoms], counts.atoms, parseFloat).value,
             SdfBonds(Symbols(AtomBlock(table[..counts.atoms], counts.atoms, parseFloat).value), table[counts.atoms..], counts.bonds).value,
             FromPairs(Normalized(items)))
  {
    var counts := CountsFrom(SplitWs(lines[3]), table).value;
    var n := counts.atoms;
    assert |Slice(table, 0, n)| <= |table|;
    assert Slice(table, 0, n) == table[..n];
  }

  /**
   * A record is read only from a line list with at least four lines, `V2000` on the
   * counts line and an exact `M  END` line; the counts come from the counts line and the
   * lines between index 4 and `M  END`, and the atom count is positive.
   */
  lemma ParseChecks<R>(lines: seq<string>, items: seq<(string, string)>, parseFloat: string -> Option<R>)
    requires ParseLines(lines, items, parseFloat).Ok?
    ensures |lines| >= 4 && Contains(lines[3], "V2000") && IndexOf(lines, "M  END").Some?
    ensures var mEnd := IndexOf(lines, "M  END").value;
      var r := ParseLines(lines, items, parseFloat).value;
      r.headerBlock == lines[..3] && r.countsLine == lines[3]
      && 1 <= r.atomNumbers && 4 + r.atomNumbers <= mEnd
      && CountsFrom(SplitWs(lines[3]), lines[4..mEnd]) == Ok(Counts(r.atomNumbers, r.bondNumbers))
  {
    ParseLinesOk(lines, items, parseFloat);
    var mEnd := IndexOf(lines, "M  END").value;
    var table := Slice(lines, 4, mEnd);
    ParseTableOk(lines, table, items, parseFloat);
    var n := CountsFrom(SplitWs(lines[3]), table).value.atoms;
    assert 4 + n - 1 < mEnd;
    assert table == lines[4..mEnd];
  }

  /**
   * The atoms of a record are the lines from index 4 on, numbered 1..n in file order;
   * the symbol and coordinate lists are theirs, in the same order.
   */
  lemma ParseAtoms<R>(lines: seq<string>, items: seq<(string, string)>, parseFloat: string -> Option<R>)
    requires ParseLines(lines, items, parseFloat).Ok?
    ensures var r := ParseLines(lines, items, parseFloat).value;
      |r.atomBlock| == r.atomNumbers && r.atomNames == Symbols(r.atomBlock) && r.atomElements == r.atomNames
      && r.xyzList == Coordinates(r.atomBlock)
      && forall k :: 0 <= k < r.atomNumbers ==> 4 + k < |lines| && Some(r.atomBlock[k]) == AtomRow(lines[4 + k], k + 1, parseFloat)
  {
    ParseLinesOk(lines, items, parseFloat);
    var table := Slice(lines, 4, IndexOf(lines, "M  END").value);
    TableAtoms(lines, table, items, parseFloat);
  }

  lemma TableAtoms<R>(lines: seq<string>, table: seq<string>, items: seq<(string, string)>, parseFloat: string -> Option<R>)
    requires |lines| >= 4 && ParseTable(lines, table, items, parseFloat).Ok?
    ensures var r := ParseTable(lines, table, items, parseFloat).value;
      |r.atomBlock| == r.atomNumbers <= |table| && r.atomNames == Symbols(r.atomBlock) && r.atomElements == r.atomNames
      && r.xyzList == Coordinates(r.atomBlock)
      && forall k :: 0 <= k < r.atomNumbers ==> Some(r.atomBlock[k]) == AtomRow(table[k], k + 1, parseFloat)
  {
    ParseTableOk(lines, table, items, parseFloat);
    var counts := CountsFrom(SplitWs(lines[3]), table).value;
    var n := counts.atoms;
    var atoms := AtomBlock(table[..n], n, parseFloat).value;
    AtomBlockOk(table[..n], n, parseFloat);
    forall k | 0 <= k < n ensures Some(atoms[k]) == AtomRow(table[k], k + 1, parseFloat) {
      assert table[..n][k] == table[k];
    }
  }

  /**
   * The bond block of a record groups the first bond-count lines after the atoms, all of
   * them before `M  END`: entries in strictly ascending atom id, each with the atom's own
   * symbol and exactly the bonds whose line names that atom first, in file order; an atom
   * gets an entry exactly when at least one such line exists.
   */
  lemma ParseBonds<R>(lines: seq<string>, items: seq<(string, string)>, parseFloat: string -> Option<R>)
    requires ParseLines(lines, items, parseFloat).Ok?
    ensures IndexOf(lines, "M  END").Some?
    ensures var r := ParseLines(lines, items, parseFloat).value;
      var mEnd := IndexOf(lines, "M  END").value;
      var n := r.atomNumbers;
      var m := RowCount(r.bondNumbers);
      1 <= n && 4 + n + m <= mEnd
      && Grouped(r.atomNames, Rows(lines[4 + n..mEnd], SdfRead(r.atomNames)), m, r.bondBlock)
  {
    ParseChecks(lines, items, parseFloat);
    var mEnd := IndexOf(lines, "M  END").value;
    var table := Slice(lines, 4, mEnd);
    assert table == lines[4..mEnd];
    TableBonds(lines, table, items, parseFloat);
    var r := ParseLines(lines, items, parseFloat).value;
    assert table[r.atomNumbers..] == lines[4 + r.atomNumbers..mEnd];
  }

  lemma TableBonds<R>(lines: seq<string>, table: seq<string>, items: seq<(string, string)>, parseFloat: string -> Option<R>)
    requires |lines| >= 4 && ParseTable(lines, table, items, parseFloat).Ok?
    ensures var r := ParseTable(lines, table, items, parseFloat).value;
      var n := r.atomNumbers;
      var m := RowCount(r.bondNumbers);
      n == |r.atomNames| && 1 <= n && n + m <= |table|
      && Grouped(r.atomNames, Rows(table[n..], SdfRead(r.atomNames)), m, r.bondBlock)
  {
    ParseTableOk(lines, table, items, parseFloat);
    var counts := CountsFrom(SplitWs(lines[3]), table).value;
    var n := counts.atoms;
    var atoms := AtomBlock(table[..n], n, parseFloat).value;
    BlockOfShape(Symbols(atoms), table[n..], SdfRead(Symbols(atoms)), counts.bonds);
  }

  /**
   * The data items of a record hold, for each name, its last normalised value; the name
   * falls back to the empty text, the formula to the one written from the atom symbols and
   * the exact mass to the molecular weight.
   */
  lemma ParseFallbacks<R>(lines: seq<string>, items: seq<(string, string)>, parseFloat: string -> Option<R>)
    requires ParseLines(lines, items, parseFloat).Ok?
    ensures var r := ParseLines(lines, items, parseFloat).value;
      var data := Normalized(items);
      r.compoundProperties.Valid()
      && (forall k :: r.compoundProperties.Get(k) == LastValue(data, k))
      && r.cid == LastValue(data, CidKey)
      && r.name == (match LastValue(data, NameKey) case Some(v) => v case None => Text(""))
      && r.formula == (match LastValue(data, FormulaKey)
                       case Some(v) => v case None => Text(AtomFormula(r.atomNames)))
      && r.mass == (if LastValue(data, ExactMassKey).Some? then LastValue(data, ExactMassKey)
                    else LastValue(data, WeightKey))
  {
    ParseLinesOk(lines, items, parseFloat);
    var table := Slice(lines, 4, IndexOf(lines, "M  END").value);
    ParseTableOk(lines, table, items, parseFloat);
    var counts := CountsFrom(SplitWs(lines[3]), table).value;
    var atoms := AtomBlock(table[..counts.atoms], counts.atoms, parseFloat).value;
    var block := SdfBonds(Symbols(atoms), table[counts.atoms..], counts.bonds).value;
    RecordFallbacks(lines, counts, atoms, block, items);
  }

  lemma RecordFallbacks<R>(lines: seq<string>, counts: Counts, atoms: seq<Atom<R>>, block: seq<AtomBonds<SdfBond>>,
                           items: seq<(string, string)>)
    requires |lines| >= 4
    ensures var r := Record(lines, counts, atoms, block, FromPairs(Normalized(items)));
      var data := Normalized(items);
      r.compoundProperties.Valid()
      && (forall k :: r.compoundProperties.Get(k) == LastValue(data, k))
      && r.cid == LastValue(data, CidKey)
      && r.name == (match LastValue(data, NameKey) case Some(v) => v case None => Text(""))
      && r.formula == (match LastValue(data, FormulaKey) case Some(v) => v case None => Text(AtomFormula(r.atomNames)))
      && r.mass == (if LastValue(data, ExactMassKey).Some? then LastValue(data, ExactMassKey)
                    else LastValue(data, WeightKey))
  {
    var data := Normalized(items);
    forall k ensures FromPairs(data).Get(k) == LastValue(data, k) {
      FromPairsLastWins(data, k);
    }
  }
}
