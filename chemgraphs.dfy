/**
 * The pattern graphs of pyMolinfo's `ChemGraphs`: one constant per `graph_*`
 * constructor. Symbols starting with `XX` are wildcards for the matcher; the alkyl
 * halides take the halogen symbol as a parameter.
 */
module ChemGraphs {
  import opened NxGraph
  import opened PatternGraphs

  /** `graph_hydroxyl`. */
  function Hydroxyl(): (r: Pattern)
    ensures WellFormed(r)
  {
    Pattern(["O", "H"],
      [Bond(1, 2, "OH", 1)])
  }

  /** `graph_carbonyl`. */
  function Carbonyl(): (r: Pattern)
    ensures WellFormed(r)
  {
    Pattern(["C", "O"],
      [Bond(1, 2, "CO", 2)])
  }

  /** `graph_carboxyl`. */
  function Carboxyl(): (r: Pattern)
    ensures WellFormed(r)
  {
    Pattern(["C", "O", "O", "H"],
      [Bond(1, 2, "CO", 2),
      Bond(1, 3, "CO", 1),
      Bond(3, 4, "OH", 1)])
  }

  /** `graph_N_H`. */
  function NH(): (r: Pattern)
    ensures WellFormed(r)
  {
    Pattern(["N", "H"],
      [Bond(1, 2, "NH", 1)])
  }

  /** `graph_C_N_single_bond`. */
  function CNSingleBond(): (r: Pattern)
    ensures WellFormed(r)
  {
    Pattern(["C", "N"],
      [Bond(1, 2, "CN", 1)])
  }

  /** `graph_N_O_single_bond`. */
  function NOSingleBond(): (r: Pattern)
    ensures WellFormed(r)
  {
    Pattern(["N", "O"],
      [Bond(1, 2, "NO", 1)])
  }

  /** `graph_C_O_single_bond`. */
  function COSingleBond(): (r: Pattern)
    ensures WellFormed(r)
  {
    Pattern(["C", "O"],
      [Bond(1, 2, "CO", 1)])
  }

  /** `graph_C_N_triple_bond`. */
  function CNTripleBond(): (r: Pattern)
    ensures WellFormed(r)
  {
    Pattern(["C", "N"],
      [Bond(1, 2, "CN", 3)])
  }

  /** `graph_methyl`. */
  function Methyl(): (r: Pattern)
    ensures WellFormed(r)
  {
    Pattern(["C", "H", "H", "H", "XX"],
      [Bond(1, 2, "CH", 1),
      Bond(1, 3, "CH", 1),
      Bond(1, 4, "CH", 1),
      Bond(1, 5, "CXX", 1)])
  }

  /** `graph_methylene`. */
  function Methylene(): (r: Pattern)
    ensures WellFormed(r)
  {
    Pattern(["C", "H", "H", "C", "C"],
      [Bond(1, 2, "CH", 1),
      Bond(1, 3, "CH", 1),
      Bond(1, 4, "CC", 1),
      Bond(1, 5, "CC", 1)])
  }

  /** `graph_methine`. */
  function Methine(): (r: Pattern)
    ensures WellFormed(r)
  {
    Pattern(["C", "H", "XX", "XX", "XX"],
      [Bond(1, 2, "CH", 1),
      Bond(1, 3, "CXX", 1),
      Bond(1, 4, "CXX", 1),
      Bond(1, 5, "CXX", 1)])
  }

  /** `graph_ether`. */
  function Ether(): (r: Pattern)
    ensures WellFormed(r)
  {
    Pattern(["C", "O", "C"],
      [Bond(1, 2, "CO", 1),
      Bond(2, 3, "OC", 1)])
  }

  /** `graph_alkane`. */
  function Alkane(): (r: Pattern)
    ensures WellFormed(r)
  {
    Pattern(["C", "C"],
      [Bond(1, 2, "CC", 1)])
  }

  /** `graph_alkene`. */
  function Alkene(): (r: Pattern)
    ensures WellFormed(r)
  {
    Pattern(["C", "C"],
      [Bond(1, 2, "CC", 2)])
  }

  /** `graph_alkyne`. */
  function Alkyne(): (r: Pattern)
    ensures WellFormed(r)
  {
    Pattern(["C", "C"],
      [Bond(1, 2, "CC", 3)])
  }

  /** `graph_arene`. */
  function Arene(): (r: Pattern)
    ensures WellFormed(r)
  {
    Pattern(["C", "C", "C", "C", "C", "C"],
      [Bond(1, 2, "CC", 1),
      Bond(2, 3, "CC", 2),
      Bond(3, 4, "CC", 1),
      Bond(4, 5, "CC", 2),
      Bond(5, 6, "CC", 1),
      Bond(6, 1, "CC", 2)])
  }

  /** `graph_aldehyde`. */
  function Aldehyde(): (r: Pattern)
    ensures WellFormed(r)
  {
    Pattern(["C", "H", "O", "C"],
      [Bond(1, 2, "CH", 1),
      Bond(1, 3, "CO", 2),
      Bond(1, 4, "CC", 1)])
  }

  /** `graph_ketone`. */
  function Ketone(): (r: Pattern)
    ensures WellFormed(r)
  {
    Pattern(["C", "O", "C", "C"],
      [Bond(1, 2, "CO", 2),
      Bond(1, 3, "CC", 1),
      Bond(1, 4, "CC", 1)])
  }

  /** `graph_carboxylic_acid`. */
  function CarboxylicAcid(): (r: Pattern)
    ensures WellFormed(r)
  {
    Pattern(["C", "O", "O", "H", "XX"],
      [Bond(1, 2, "CO", 2),
      Bond(1, 3, "CO", 1),
      Bond(3, 4, "OH", 1),
      Bond(1, 5, "CXX", 1)])
  }

  /** `graph_ester`. */
  function Ester(): (r: Pattern)
    ensures WellFormed(r)
  {
    Pattern(["C", "O", "O", "C", "C"],
      [Bond(1, 2, "CO", 2),
      Bond(1, 3, "CO", 1),
      Bond(3, 4, "OC", 1),
      Bond(1, 5, "CC", 1)])
  }

  /** `graph_amide`. */
  function Amide(): (r: Pattern)
    ensures WellFormed(r)
  {
    Pattern(["C", "O", "N", "H", "H", "XX"],
      [Bond(1, 2, "CO", 2),
      Bond(1, 3, "CN", 1),
      Bond(3, 4, "NH", 1),
      Bond(3, 5, "NH", 1),
      Bond(1, 6, "CXX", 1)])
  }

  /** `graph_primary_amide`: the same graph as `graph_amide`. */
  function PrimaryAmide(): (r: Pattern)
    ensures WellFormed(r)
  {
    Amide()
  }

  /** `graph_secondary_amide`. */
  function SecondaryAmide(): (r: Pattern)
    ensures WellFormed(r)
  {
    Pattern(["C", "O", "N", "H", "C", "XX"],
      [Bond(1, 2, "CO", 2),
      Bond(1, 3, "CN", 1),
      Bond(3, 4, "NH", 1),
      Bond(3, 5, "NC", 1),
      Bond(1, 6, "CXX", 1)])
  }

  /** `graph_tertiary_amide`. */
  function TertiaryAmide(): (r: Pattern)
    ensures WellFormed(r)
  {
    Pattern(["C", "O", "N", "C", "C", "XX"],
      [Bond(1, 2, "CO", 2),
      Bond(1, 3, "CN", 1),
      Bond(3, 4, "NC", 1),
      Bond(3, 5, "NC", 1),
      Bond(1, 6, "CXX", 1)])
  }

  /** `graph_primary_amine`. */
  function PrimaryAmine(): (r: Pattern)
    ensures WellFormed(r)
  {
    Pattern(["N", "H", "H", "C"],
      [Bond(1, 2, "NH", 1),
      Bond(1, 3, "NH", 1),
      Bond(1, 4, "NC", 1)])
  }

  /** `graph_secondary_amine`. */
  function SecondaryAmine(): (r: Pattern)
    ensures WellFormed(r)
  {
    Pattern(["N", "H", "C", "C"],
      [Bond(1, 2, "NH", 1),
      Bond(1, 3, "NC", 1),
      Bond(1, 4, "NC", 1)])
  }

  /** `graph_tertiary_amine`. */
  function TertiaryAmine(): (r: Pattern)
    ensures WellFormed(r)
  {
    Pattern(["N", "C", "C", "C"],
      [Bond(1, 2, "NC", 1),
      Bond(1, 3, "NC", 1),
      Bond(1, 4, "NC", 1)])
  }

  /** `graph_nitrile`. */
  function Nitrile(): (r: Pattern)
    ensures WellFormed(r)
  {
    Pattern(["C", "N", "C"],
      [Bond(1, 2, "CN", 3),
      Bond(1, 3, "NC", 1)])
  }

  /** `graph_thiol`. */
  function Thiol(): (r: Pattern)
    ensures WellFormed(r)
  {
    Pattern(["S", "H", "XX"],
      [Bond(1, 2, "SH", 1),
      Bond(1, 3, "SXX", 1)])
  }

  /** `graph_alkyl_halide`. */
  function AlkylHalide(halid: string): (r: Pattern)
    ensures WellFormed(r)
  {
    Pattern(["C", halid],
      [Bond(1, 2, "C" + halid, 1)])
  }

  /** `graph_primary_alkyl_halide`. */
  function PrimaryAlkylHalide(halid: string): (r: Pattern)
    ensures WellFormed(r)
  {
    Pattern(["C", "C", "H", "H", "H", halid],
      [Bond(1, 2, "CC", 1),
      Bond(1, 3, "CH", 1),
      Bond(1, 4, "CH", 1),
      Bond(1, 5, "CH", 1),
      Bond(2, 6, "C" + halid, 1)])
  }

  /** `graph_secondary_alkyl_halide`. */
  function SecondaryAlkylHalide(): (r: Pattern)
    ensures WellFormed(r)
  {
    Pattern(["C", "C", "C", "H", "H", "X"],
      [Bond(1, 2, "CC", 1),
      Bond(1, 3, "CC", 1),
      Bond(1, 4, "CH", 1),
      Bond(1, 5, "CH", 1),
      Bond(2, 6, "CX", 1)])
  }

  /** `graph_tertiary_alkyl_halide`. */
  function TertiaryAlkylHalide(): (r: Pattern)
    ensures WellFormed(r)
  {
    Pattern(["C", "C", "C", "C", "X"],
      [Bond(1, 2, "CC", 1),
      Bond(1, 3, "CC", 1),
      Bond(1, 4, "CC", 1),
      Bond(1, 5, "CX", 1)])
  }

  /** `graph_primary_alcohol`. */
  function PrimaryAlcohol(): (r: Pattern)
    ensures WellFormed(r)
  {
    Pattern(["C", "H", "H", "O", "H"],
      [Bond(1, 2, "CH", 1),
      Bond(1, 3, "CH", 1),
      Bond(1, 4, "CO", 1),
      Bond(4, 5, "OH", 1)])
  }

  /** `graph_primary_alcohol_double_bond`. */
  function PrimaryAlcoholDoubleBond(): (r: Pattern)
    ensures WellFormed(r)
  {
    Pattern(["C", "H", "C", "O", "H"],
      [Bond(1, 2, "CH", 1),
      Bond(1, 3, "CC", 2),
      Bond(1, 4, "CO", 1),
      Bond(4, 5, "OH", 1)])
  }

  /** `graph_secondary_alcohol`. */
  function SecondaryAlcohol(): (r: Pattern)
    ensures WellFormed(r)
  {
    Pattern(["C", "C", "C", "H", "O", "H"],
      [Bond(1, 2, "CC", 1),
      Bond(1, 3, "CC", 1),
      Bond(1, 4, "CH", 1),
      Bond(1, 5, "CO", 1),
      Bond(5, 6, "OH", 1)])
  }

  /** `graph_secondary_alcohol_double_bond`. */
  function SecondaryAlcoholDoubleBond(): (r: Pattern)
    ensures WellFormed(r)
  {
    Pattern(["C", "C", "C", "O", "H"],
      [Bond(1, 2, "CC", 1),
      Bond(1, 3, "CC", 2),
      Bond(1, 4, "CO", 1),
      Bond(4, 5, "OH", 1)])
  }

  /** `graph_tertiary_alcohol`. */
  function TertiaryAlcohol(): (r: Pattern)
    ensures WellFormed(r)
  {
    Pattern(["C", "C", "C", "C", "O", "H"],
      [Bond(1, 2, "CC", 1),
      Bond(1, 3, "CC", 1),
      Bond(1, 4, "CC", 1),
      Bond(1, 5, "CO", 1),
      Bond(5, 6, "OH", 1)])
  }

  /** `graph_alkane_CH_bond`. */
  function AlkaneCHBond(): (r: Pattern)
    ensures WellFormed(r)
  {
    Pattern(["C", "C", "H", "H", "H"],
      [Bond(1, 2, "CC", 1),
      Bond(1, 3, "CH", 1),
      Bond(1, 4, "CH", 1),
      Bond(1, 5, "CH", 1)])
  }

  /** `graph_alkene_CH_bond`. */
  function AlkeneCHBond(): (r: Pattern)
    ensures WellFormed(r)
  {
    Pattern(["C", "C", "H", "H"],
      [Bond(1, 2, "CC", 2),
      Bond(1, 3, "CH", 1),
      Bond(1, 4, "CH", 1)])
  }

  /** `graph_aromatic_CH_bond`. */
  function AromaticCHBond(): (r: Pattern)
    ensures WellFormed(r)
  {
    Pattern(["C", "C", "C", "H"],
      [Bond(1, 2, "CC", 2),
      Bond(1, 3, "CC", 1),
      Bond(1, 4, "CH", 1)])
  }

  /** `graph_alkyne_CH_bond`. */
  function AlkyneCHBond(): (r: Pattern)
    ensures WellFormed(r)
  {
    Pattern(["C", "C", "H"],
      [Bond(1, 2, "CC", 3),
      Bond(1, 3, "CH", 1)])
  }

  /** `graph_aldehyde_CH_bond`. */
  function AldehydeCHBond(): (r: Pattern)
    ensures WellFormed(r)
  {
    Pattern(["C", "H", "O", "XX"],
      [Bond(1, 2, "CH", 1),
      Bond(1, 3, "CO", 2),
      Bond(1, 4, "CXX", 1)])
  }

  /** `graph_epoxide`. */
  function Epoxide(): (r: Pattern)
    ensures WellFormed(r)
  {
    Pattern(["C", "O", "C"],
      [Bond(1, 2, "CO", 1),
      Bond(2, 3, "CO", 1),
      Bond(1, 3, "CC", 1)])
  }

  /** The bond list of a two-atom pattern joins only its nodes 1 and 2. */
  lemma PairBonds(p: Pattern, i: int, j: int)
    requires |p.bonds| == 1 && p.bonds[0].u == 1 && p.bonds[0].v == 2
    ensures (exists b :: b in p.bonds && Links(b, i, j)) <==> (i == 1 && j == 2) || (i == 2 && j == 1)
  {
    if (i == 1 && j == 2) || (i == 2 && j == 1) {
      assert p.bonds[0] in p.bonds && Links(p.bonds[0], i, j);
    }
  }

  /** The graph of a two-atom pattern has the one edge 1-2. */
  lemma PairLinks(p: Pattern)
    requires |p.bonds| == 1 && p.bonds[0].u == 1 && p.bonds[0].v == 2
    ensures forall i, j :: Linked(Build(p), i, j) <==> (i == 1 && j == 2) || (i == 2 && j == 1)
  {
    forall i, j ensures Linked(Build(p), i, j) <==> (i == 1 && j == 2) || (i == 2 && j == 1) {
      BuildLinked(p, i, j);
      PairBonds(p, i, j);
    }
  }

  /** `graph_hydroxyl` is O (node 1) and H (node 2) joined by a single bond, and nothing else. */
  lemma HydroxylShape()
    ensures var g := Build(Hydroxyl());
      g.order == Ids(2) && Atom(g, 1, "O") && Atom(g, 2, "H") && Joined(g, 1, 2, 1)
      && forall i, j :: Linked(g, i, j) <==> (i == 1 && j == 2) || (i == 2 && j == 1)
  {
    var p := Hydroxyl();
    BuildNodes(p);
    assert Atom(Build(p), 0 + 1, p.symbols[0]);
    assert Atom(Build(p), 1 + 1, p.symbols[1]);
    BuildLinked(p, 1, 2);
    PairLinks(p);
  }

  /** `graph_carbonyl` is C (node 1) and O (node 2) joined by a double bond, and nothing else. */
  lemma CarbonylShape()
    ensures var g := Build(Carbonyl());
      g.order == Ids(2) && Atom(g, 1, "C") && Atom(g, 2, "O") && Joined(g, 1, 2, 2)
      && forall i, j :: Linked(g, i, j) <==> (i == 1 && j == 2) || (i == 2 && j == 1)
  {
    var p := Carbonyl();
    BuildNodes(p);
    assert Atom(Build(p), 0 + 1, p.symbols[0]);
    assert Atom(Build(p), 1 + 1, p.symbols[1]);
    BuildLinked(p, 1, 2);
    PairLinks(p);
  }

  /** `graph_C_N_triple_bond` is C (node 1) and N (node 2) joined by a triple bond, and nothing else. */
  lemma CNTripleBondShape()
    ensures var g := Build(CNTripleBond());
      g.order == Ids(2) && Atom(g, 1, "C") && Atom(g, 2, "N") && Joined(g, 1, 2, 3)
      && forall i, j :: Linked(g, i, j) <==> (i == 1 && j == 2) || (i == 2 && j == 1)
  {
    var p := CNTripleBond();
    BuildNodes(p);
    assert Atom(Build(p), 0 + 1, p.symbols[0]);
    assert Atom(Build(p), 1 + 1, p.symbols[1]);
    BuildLinked(p, 1, 2);
    PairLinks(p);
  }

  /** `graph_arene` has six C atoms, nodes 1..6. */
  lemma AreneAtoms()
    ensures var g := Build(Arene());
      g.order == Ids(6) && Atom(g, 1, "C") && Atom(g, 2, "C") && Atom(g, 3, "C")
      && Atom(g, 4, "C") && Atom(g, 5, "C") && Atom(g, 6, "C")
  {
    var p := Arene();
    BuildNodes(p);
    assert Atom(Build(p), 0 + 1, p.symbols[0]);
    assert Atom(Build(p), 1 + 1, p.symbols[1]);
    assert Atom(Build(p), 2 + 1, p.symbols[2]);
    assert Atom(Build(p), 3 + 1, p.symbols[3]);
    assert Atom(Build(p), 4 + 1, p.symbols[4]);
    assert Atom(Build(p), 5 + 1, p.symbols[5]);
  }

  lemma AreneBonds(i: int, j: int)
    ensures (exists b :: b in Arene().bonds && Links(b, i, j))
      <==> 1 <= i <= 6 && 1 <= j <= 6 && (j == i % 6 + 1 || i == j % 6 + 1)
  {
    var bs := Arene().bonds;
    assert forall k :: 0 <= k < 6 ==> bs[k].u == k + 1 && bs[k].v == (k + 1) % 6 + 1;
    if 1 <= i <= 6 && 1 <= j <= 6 && (j == i % 6 + 1 || i == j % 6 + 1) {
      var k := if j == i % 6 + 1 then i - 1 else j - 1;
      assert bs[k] in bs && Links(bs[k], i, j);
    }
  }

  /** `graph_arene`'s edges are exactly those of the six-ring 1-2-3-4-5-6-1. */
  lemma AreneRing()
    ensures forall i, j :: Linked(Build(Arene()), i, j) <==>
      1 <= i <= 6 && 1 <= j <= 6 && (j == i % 6 + 1 || i == j % 6 + 1)
  {
    forall i, j ensures Linked(Build(Arene()), i, j) <==> 1 <= i <= 6 && 1 <= j <= 6 && (j == i % 6 + 1 || i == j % 6 + 1) {
      BuildLinked(Arene(), i, j);
      AreneBonds(i, j);
    }
  }

  /**
   * Going round `graph_arene`'s ring the bond types alternate single, double, single, ...,
   * the closing bond 6-1 being double.
   */
  lemma AreneAlternates()
    ensures var g := Build(Arene());
      Joined(g, 1, 2, 1) && Joined(g, 2, 3, 2) && Joined(g, 3, 4, 1)
      && Joined(g, 4, 5, 2) && Joined(g, 5, 6, 1) && Joined(g, 6, 1, 2)
  {
    BuildLinked(Arene(), 1, 2);
    BuildLinked(Arene(), 2, 3);
    BuildLinked(Arene(), 3, 4);
    BuildLinked(Arene(), 4, 5);
    BuildLinked(Arene(), 5, 6);
    BuildLinked(Arene(), 6, 1);
  }

  /** The bond list of a pattern whose bonds are 1-2, 1-3, 1-4, 1-5, in that order: a star. */
  lemma StarBonds(p: Pattern, i: int, j: int)
    requires |p.bonds| == 4 && forall k :: 0 <= k < 4 ==> p.bonds[k].u == 1 && p.bonds[k].v == k + 2
    ensures (exists b :: b in p.bonds && Links(b, i, j)) <==> (i == 1 && 2 <= j <= 5) || (j == 1 && 2 <= i <= 5)
  {
    if (i == 1 && 2 <= j <= 5) || (j == 1 && 2 <= i <= 5) {
      var k := if i == 1 then j - 2 else i - 2;
      assert p.bonds[k] in p.bonds && Links(p.bonds[k], i, j);
    }
  }

  /** The graph of such a pattern joins node 1 to each of nodes 2-5, each by a single bond, and nothing else. */
  lemma StarLinks(p: Pattern)
    requires |p.bonds| == 4 && forall k :: 0 <= k < 4 ==> p.bonds[k].u == 1 && p.bonds[k].v == k + 2
    requires forall b :: b in p.bonds ==> b.kind == 1
    ensures forall i, j :: Linked(Build(p), i, j) <==> (i == 1 && 2 <= j <= 5) || (j == 1 && 2 <= i <= 5)
    ensures forall i, j :: Linked(Build(p), i, j) ==> Joined(Build(p), i, j, 1)
  {
    forall i, j ensures Linked(Build(p), i, j) <==> (i == 1 && 2 <= j <= 5) || (j == 1 && 2 <= i <= 5) {
      BuildLinked(p, i, j);
      StarBonds(p, i, j);
    }
    BuildKinds(p, 1);
  }

  /** `graph_methyl` is C (node 1) single-bonded to three H (nodes 2-4) and a wildcard (node 5). */
  lemma MethylAtoms()
    ensures var g := Build(Methyl());
      g.order == Ids(5) && Atom(g, 1, "C") && Atom(g, 2, "H") && Atom(g, 3, "H") && Atom(g, 4, "H")
      && Atom(g, 5, "XX") && IsWildcard("XX")
  {
    var p := Methyl();
    BuildNodes(p);
    assert Atom(Build(p), 0 + 1, p.symbols[0]);
    assert Atom(Build(p), 1 + 1, p.symbols[1]);
    assert Atom(Build(p), 2 + 1, p.symbols[2]);
    assert Atom(Build(p), 3 + 1, p.symbols[3]);
    assert Atom(Build(p), 4 + 1, p.symbols[4]);
  }

  /** `graph_methyl` joins node 1 to each of nodes 2-5 by a single bond, and nothing else. */
  lemma MethylLinks()
    ensures var g := Build(Methyl());
      (forall i, j :: Linked(g, i, j) <==> (i == 1 && 2 <= j <= 5) || (j == 1 && 2 <= i <= 5))
      && forall i, j :: Linked(g, i, j) ==> Joined(g, i, j, 1)
  {
    StarLinks(Methyl());
  }

  /** `graph_methine` is C (node 1) single-bonded to one H (node 2) and three wildcards (nodes 3-5). */
  lemma MethineAtoms()
    ensures var g := Build(Methine());
      g.order == Ids(5) && Atom(g, 1, "C") && Atom(g, 2, "H")
      && Atom(g, 3, "XX") && Atom(g, 4, "XX") && Atom(g, 5, "XX")
  {
    var p := Methine();
    BuildNodes(p);
    assert Atom(Build(p), 0 + 1, p.symbols[0]);
    assert Atom(Build(p), 1 + 1, p.symbols[1]);
    assert Atom(Build(p), 2 + 1, p.symbols[2]);
    assert Atom(Build(p), 3 + 1, p.symbols[3]);
    assert Atom(Build(p), 4 + 1, p.symbols[4]);
  }

  /** `graph_methine` joins node 1 to each of nodes 2-5 by a single bond, and nothing else. */
  lemma MethineLinks()
    ensures var g := Build(Methine());
      (forall i, j :: Linked(g, i, j) <==> (i == 1 && 2 <= j <= 5) || (j == 1 && 2 <= i <= 5))
      && forall i, j :: Linked(g, i, j) ==> Joined(g, i, j, 1)
  {
    StarLinks(Methine());
  }

  lemma EpoxideBonds(i: int, j: int)
    ensures (exists b :: b in Epoxide().bonds && Links(b, i, j)) <==> 1 <= i <= 3 && 1 <= j <= 3 && i != j
  {
    var bs := Epoxide().bonds;
    if 1 <= i <= 3 && 1 <= j <= 3 && i != j {
      var k := if i + j == 3 then 0 else if i + j == 5 then 1 else 2;
      assert bs[k] in bs && Links(bs[k], i, j);
    }
  }

  lemma EpoxideLinks()
    ensures forall i, j :: Linked(Build(Epoxide()), i, j) <==> 1 <= i <= 3 && 1 <= j <= 3 && i != j
  {
    forall i, j ensures Linked(Build(Epoxide()), i, j) <==> 1 <= i <= 3 && 1 <= j <= 3 && i != j {
      BuildLinked(Epoxide(), i, j);
      EpoxideBonds(i, j);
    }
  }

  /** `graph_epoxide` is the three-ring C-O-C closed by a C-C bond, every bond single. */
  lemma EpoxideRing()
    ensures var g := Build(Epoxide());
      g.order == Ids(3) && Atom(g, 1, "C") && Atom(g, 2, "O") && Atom(g, 3, "C")
      && (forall i, j :: Linked(g, i, j) <==> 1 <= i <= 3 && 1 <= j <= 3 && i != j)
      && forall i, j :: Linked(g, i, j) ==> Joined(g, i, j, 1)
  {
    var p := Epoxide();
    BuildNodes(p);
    assert Atom(Build(p), 0 + 1, p.symbols[0]);
    assert Atom(Build(p), 1 + 1, p.symbols[1]);
    assert Atom(Build(p), 2 + 1, p.symbols[2]);
    EpoxideLinks();
    BuildKinds(p, 1);
  }

  /** `graph_alkyl_halide(halid)` is C single-bonded to the given halogen, the bond named after both. */
  lemma AlkylHalideShape(halid: string)
    ensures var g := Build(AlkylHalide(halid));
      Atom(g, 1, "C") && Atom(g, 2, halid) && Joined(g, 1, 2, 1) && g.edges[{IntKey(1), IntKey(2)}].symbol == "C" + halid
  {
    var p := AlkylHalide(halid);
    BuildAtom(p, 1);
    BuildAtom(p, 2);
    assert p.bonds[0] in p.bonds;
    BetweenLast(p.bonds, 1, 2);
    BuildLinked(p, 1, 2);
  }

  /** `graph_primary_alkyl_halide(halid)` puts the given halogen on node 6, single-bonded to the carbon at node 2. */
  lemma PrimaryAlkylHalideShape(halid: string)
    ensures var g := Build(PrimaryAlkylHalide(halid));
      Atom(g, 2, "C") && Atom(g, 6, halid) && Joined(g, 2, 6, 1) && g.edges[{IntKey(2), IntKey(6)}].symbol == "C" + halid
  {
    var p := PrimaryAlkylHalide(halid);
    BuildAtom(p, 2);
    BuildAtom(p, 6);
    assert p.bonds[4] in p.bonds;
    BetweenLast(p.bonds, 2, 6);
    BuildLinked(p, 2, 6);
  }

  /**
   * The secondary and tertiary alkyl halides bind the literal symbol `X`, which is not a
   * wildcard: they match only an atom whose symbol is `X`.
   */
  lemma LiteralHalogen()
    ensures Atom(Build(SecondaryAlkylHalide()), 6, "X") && Joined(Build(SecondaryAlkylHalide()), 2, 6, 1)
    ensures Atom(Build(TertiaryAlkylHalide()), 5, "X") && Joined(Build(TertiaryAlkylHalide()), 1, 5, 1)
    ensures !IsWildcard("X")
  {
    BuildAtom(SecondaryAlkylHalide(), 6);
    BuildLinked(SecondaryAlkylHalide(), 2, 6);
    BuildAtom(TertiaryAlkylHalide(), 5);
    BuildLinked(TertiaryAlkylHalide(), 1, 5);
  }

  /** The carboxylic acid's node 5 and the thiol's node 3 are wildcards, single-bonded to node 1. */
  lemma WildcardNeighbours()
    ensures Atom(Build(CarboxylicAcid()), 5, "XX") && Joined(Build(CarboxylicAcid()), 1, 5, 1)
    ensures Atom(Build(Thiol()), 3, "XX") && Joined(Build(Thiol()), 1, 3, 1)
    ensures IsWildcard("XX")
  {
    BuildAtom(CarboxylicAcid(), 5);
    BuildLinked(CarboxylicAcid(), 1, 5);
    BuildAtom(Thiol(), 3);
    BuildLinked(Thiol(), 1, 3);
  }

}
