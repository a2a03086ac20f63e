/** The counts line of a V2000 SDfile record: its atom and bond numbers. */
module SdfCounts {
  import opened Wrappers
  import opened PyText

  /** Atom and bond counts as read from the counts line. */
  datatype Counts = Counts(atoms: int, bonds: int)

  /** The first line at or after `from` that is shorter than line 0. */
  function FirstShorter(table: seq<string>, from: nat): (r: Option<nat>)
    requires |table| > 0 && from <= |table|
    ensures r.Some? ==> from <= r.value < |table| && |table[r.value]| < |table[0]|
    ensures r.Some? ==> forall l :: from <= l < r.value ==> |table[l]| >= |table[0]|
    ensures r.None? ==> forall l :: from <= l < |table| ==> |table[l]| >= |table[0]|
    decreases |table| - from
  {
    if from == |table| then None
    else if |table[from]| < |table[0]| then Some(from)
    else FirstShorter(table, from + 1)
  }

  /**
   * The bond count read from a counts field in which the atom and bond counts have run
   * together, as the source reads it: the piece of `field` after the first occurrence of
   * the atom count's decimal text, up to its next occurrence.
   */
  function SplitBondCount(field: string, atoms: nat): (r: Option<int>)
    ensures r.Some? ==> Contains(field, NatToString(atoms))
  {
    var pieces := SplitOn(field, NatToString(atoms));
    SplitOnSecond(field, NatToString(atoms));
    if |pieces| < 2 then None else ParseInt(pieces[1])
  }

  /**
   * The bond count of a counts field that is the atom count's decimal text followed by the
   * bond count's: the text after the leading atom count.
   */
  function MergedBondCount(field: string, atoms: nat): Option<int> {
    var a := NatToString(atoms);
    if |a| <= |field| && field[..|a|] == a then ParseInt(field[|a|..]) else None
  }

  /** Reading the merged field back gives the bond count for every pair of counts. */
  lemma MergedBondCountRoundTrip(atoms: nat, bonds: nat)
    ensures MergedBondCount(NatToString(atoms) + NatToString(bonds), atoms) == Some(bonds)
  {
    var a := NatToString(atoms);
    var f := a + NatToString(bonds);
    assert f[..|a|] == a && f[|a|..] == NatToString(bonds);
    ParseIntToString(bonds);
  }

  /**
   * The source's reading is right whenever the atom count's text does not occur in the
   * bond count's: the piece after the leading atom count then runs to the end of the field.
   */
  lemma SplitBondCountAgrees(atoms: nat, bonds: nat)
    requires !Contains(NatToString(bonds), NatToString(atoms))
    ensures SplitBondCount(NatToString(atoms) + NatToString(bonds), atoms) == Some(bonds)
    ensures SplitBondCount(NatToString(atoms) + NatToString(bonds), atoms)
         == MergedBondCount(NatToString(atoms) + NatToString(bonds), atoms)
  {
    var a := NatToString(atoms);
    var b := NatToString(bonds);
    var f := a + b;
    assert f[0..|a|] == a;
    assert OccursAt(f, a, 0);
    assert Find(f, a) == Some(0);
    assert f[|a|..] == b;
    SplitOnSecond(f, a);
    ParseIntToString(bonds);
    MergedBondCountRoundTrip(atoms, bonds);
  }

  /** The source's reading takes 99 atoms and 199 bonds ("99199") for one bond. */
  lemma SplitBondCountMisreads()
    ensures SplitBondCount("99199", 99) == Some(1)
    ensures MergedBondCount("99199", 99) == Some(199)
  {
    SplitReads99199();
    MergedReads99199();
  }

  lemma SplitReads99199()
    ensures SplitBondCount("99199", 99) == Some(1)
  {
    Digits99();
    Split99199();
    ParseIntToString(1);
    assert IntToString(1) == "1";
  }

  lemma MergedReads99199()
    ensures MergedBondCount("99199", 99) == Some(199)
  {
    MergedBondCountRoundTrip(99, 199);
    Digits99();
  }

  lemma Digits99()
    ensures NatToString(99) == "99" && NatToString(199) == "199"
  {
  }

  lemma Split99199()
    ensures SplitOn("99199", "99")[1] == "1"
  {
    var f := "99199";
    assert f[0..2] == "99";
    assert Find(f, "99") == Some(0);
    var rest := f[2..];
    assert rest == "199" && rest[1..3] == "99";
    assert rest[0..2][0] == '1';
    assert !OccursAt(rest, "99", 0);
    assert OccursAt(rest, "99", 1);
    assert Find(rest, "99") == Some(1);
    SplitOnSecond(f, "99");
  }

  /** The source's reading fails on 100 atoms and 100 bonds ("100100"). */
  lemma SplitBondCountFails()
    ensures SplitBondCount("100100", 100) == None
    ensures MergedBondCount("100100", 100) == Some(100)
  {
    SplitReads100100();
    MergedReads100100();
  }

  lemma SplitReads100100()
    ensures SplitBondCount("100100", 100) == None
  {
    assert NatToString(100) == "100";
    Split100100();
  }

  lemma MergedReads100100()
    ensures MergedBondCount("100100", 100) == Some(100)
  {
    assert NatToString(100) == "100";
    MergedBondCountRoundTrip(100, 100);
  }

  lemma Split100100()
    ensures SplitOn("100100", "100")[1] == ""
  {
    var g := "100100";
    assert g[0..3] == "100";
    assert Find(g, "100") == Some(0);
    var rest := g[3..];
    assert rest == "100" && rest[0..3] == "100";
    assert Find(rest, "100") == Some(0);
    SplitOnSecond(g, "100");
  }

  /**
   * The counts: fields 0 and 1 of a 10-field counts line; for a 9-field line, the atom
   * count is the index of the first table line shorter than the first one and the bond
   * count is read from the merged field 0 as the source reads it (`SplitBondCount`); any
   * other field count is an error.
   */
  function CountsFrom(fields: seq<string>, table: seq<string>): Result<Counts> {
    if |fields| == 10 then
      match (ParseInt(fields[0]), ParseInt(fields[1]))
      case (Some(a), Some(b)) => Ok(Counts(a, b))
      case _ => Err("invalid literal for int()")
    else if |fields| == 9 then
      if table == [] then Err("list index out of range")
      else match FirstShorter(table, 0)
        case None => Err("atomNo referenced before assignment")
        case Some(l) =>
          match SplitBondCount(fields[0], l)
          case None => Err("bond count cannot be read")
          case Some(b) => Ok(Counts(l, b))
    else Err("3rd line of the sdf file is not coded correctly.")
  }

  /** The counts of a 10-field line are its first two fields read as integers. */
  lemma CountsTenFields(fields: seq<string>, table: seq<string>)
    requires |fields| == 10
    ensures CountsFrom(fields, table).Ok? <==> ParseInt(fields[0]).Some? && ParseInt(fields[1]).Some?
    ensures CountsFrom(fields, table).Ok? ==>
      CountsFrom(fields, table).value == Counts(ParseInt(fields[0]).value, ParseInt(fields[1]).value)
  {
  }

  /**
   * A 9-field line succeeds exactly when a table line is shorter than the first; the atom
   * count is then the first such index, which is never 0.
   */
  lemma CountsNineFields(fields: seq<string>, table: seq<string>)
    requires |fields| == 9
    ensures CountsFrom(fields, table).Ok? ==>
      var a := CountsFrom(fields, table).value.atoms;
      1 <= a < |table| && |table[a]| < |table[0]| && (forall l :: 0 <= l < a ==> |table[l]| >= |table[0]|)
    ensures (table == [] || forall l :: 0 <= l < |table| ==> |table[l]| >= |table[0]|) ==>
      CountsFrom(fields, table).Err?
  {
    if table != [] && FirstShorter(table, 0).Some? {
      assert FirstShorter(table, 0).value != 0;
    }
  }

  /**
   * A 9-field line whose first field is the atom count's text followed by the bond
   * count's reads both counts back, provided the atom count's text does not occur in
   * the bond count's (otherwise the source misreads it: `SplitBondCountMisreads`).
   */
  lemma CountsNineFieldsMerged(fields: seq<string>, table: seq<string>, atoms: nat, bonds: nat)
    requires |fields| == 9 && table != [] && FirstShorter(table, 0) == Some(atoms)
    requires fields[0] == NatToString(atoms) + NatToString(bonds)
    requires !Contains(NatToString(bonds), NatToString(atoms))
    ensures CountsFrom(fields, table) == Ok(Counts(atoms, bonds))
  {
    SplitBondCountAgrees(atoms, bonds);
  }

  /** Any counts line with other than 9 or 10 fields is rejected. */
  lemma CountsOtherFields(fields: seq<string>, table: seq<string>)
    requires |fields| != 9 && |fields| != 10
    ensures CountsFrom(fields, table).Err?
  {
  }

  /** Reads the counts line, scanning the table for the first short line in the 9-field case. */
  method ReadCounts(countsLine: string, table: seq<string>) returns (r: Result<Counts>)
    ensures r == CountsFrom(SplitWs(countsLine), table)
  {
    var countsLineList := SplitWs(countsLine);
    if |countsLineList| == 10 {
      var a := ParseInt(countsLineList[0]);
      var b := ParseInt(countsLineList[1]);
      if a.None? || b.None? {
        return Err("invalid literal for int()");
      }
      return Ok(Counts(a.value, b.value));
    } else if |countsLineList| == 9 {
      if |table| == 0 {
        return Err("list index out of range");
      }
      var firstRecordSize := |table[0]|;
      var l := 0;
      while l < |table|
        invariant 0 <= l <= |table|
        invariant FirstShorter(table, 0) == FirstShorter(table, l)
      {
        if |table[l]| < firstRecordSize {
          var b := SplitBondCount(countsLineList[0], l);
          if b.None? {
            return Err("bond count cannot be read");
          }
          return Ok(Counts(l, b.value));
        }
        l := l + 1;
      }
      return Err("atomNo referenced before assignment");
    } else {
      return Err("3rd line of the sdf file is not coded correctly.");
    }
  }
}
