/**
 * The pattern graphs of molinfo's `ChemGraphs`, an older version of the library: a
 * subset of the constructors, identical to pyMolinfo's except that the carboxylic
 * acid, the amides and the thiol bind a concrete `C` where pyMolinfo has the `XX`
 * wildcard. No symbol here is a wildcard.
 */
module MolinfoChemGraphs {
  import opened NxGraph
  import opened PatternGraphs
  import ChemGraphs

  /** `graph_hydroxyl`, the same graph as pyMolinfo's. */
  function Hydroxyl(): (r: Pattern)
    ensures WellFormed(r) && NoWildcard(r)
  {
    ChemGraphs.Hydroxyl()
  }

  /** `graph_carbonyl`, the same graph as pyMolinfo's. */
  function Carbonyl(): (r: Pattern)
    ensures WellFormed(r) && NoWildcard(r)
  {
    ChemGraphs.Carbonyl()
  }

  /** `graph_carboxyl`, the same graph as pyMolinfo's. */
  function Carboxyl(): (r: Pattern)
    ensures WellFormed(r) && NoWildcard(r)
  {
    ChemGraphs.Carboxyl()
  }

  /** `graph_ether`, the same graph as pyMolinfo's. */
  function Ether(): (r: Pattern)
    ensures WellFormed(r) && NoWildcard(r)
  {
    ChemGraphs.Ether()
  }

  /** `graph_alkane`, the same graph as pyMolinfo's. */
  function Alkane(): (r: Pattern)
    ensures WellFormed(r) && NoWildcard(r)
  {
    ChemGraphs.Alkane()
  }

  /** `graph_alkene`, the same graph as pyMolinfo's. */
  function Alkene(): (r: Pattern)
    ensures WellFormed(r) && NoWildcard(r)
  {
    ChemGraphs.Alkene()
  }

  /** `graph_alkyne`, the same graph as pyMolinfo's. */
  function Alkyne(): (r: Pattern)
    ensures WellFormed(r) && NoWildcard(r)
  {
    ChemGraphs.Alkyne()
  }

  /** `graph_arene`, the same graph as pyMolinfo's. */
  function Arene(): (r: Pattern)
    ensures WellFormed(r) && NoWildcard(r)
  {
    ChemGraphs.Arene()
  }

  /** `graph_aldehyde`, the same graph as pyMolinfo's. */
  function Aldehyde(): (r: Pattern)
    ensures WellFormed(r) && NoWildcard(r)
  {
    ChemGraphs.Aldehyde()
  }

  /** `graph_ketone`, the same graph as pyMolinfo's. */
  function Ketone(): (r: Pattern)
    ensures WellFormed(r) && NoWildcard(r)
  {
    ChemGraphs.Ketone()
  }

  /** `graph_carboxylic_acid`. */
  function CarboxylicAcid(): (r: Pattern)
    ensures WellFormed(r) && NoWildcard(r)
  {
    Pattern(["C", "O", "O", "H", "C"],
      [Bond(1, 2, "CO", 2),
      Bond(1, 3, "CO", 1),
      Bond(3, 4, "OH", 1),
      Bond(1, 5, "CC", 1)])
  }

  /** `graph_ester`, the same graph as pyMolinfo's. */
  function Ester(): (r: Pattern)
    ensures WellFormed(r) && NoWildcard(r)
  {
    ChemGraphs.Ester()
  }

  /** `graph_amide`. */
  function Amide(): (r: Pattern)
    ensures WellFormed(r) && NoWildcard(r)
  {
    Pattern(["C", "O", "N", "H", "H", "C"],
      [Bond(1, 2, "CO", 2),
      Bond(1, 3, "CN", 1),
      Bond(3, 4, "NH", 1),
      Bond(3, 5, "NH", 1),
      Bond(1, 6, "CC", 1)])
  }

  /** `graph_primary_amide`: the same graph as `graph_amide`. */
  function PrimaryAmide(): (r: Pattern)
    ensures WellFormed(r) && NoWildcard(r)
  {
    Amide()
  }

  /** `graph_secondary_amide`. */
  function SecondaryAmide(): (r: Pattern)
    ensures WellFormed(r) && NoWildcard(r)
  {
    Pattern(["C", "O", "N", "H", "C", "C"],
      [Bond(1, 2, "CO", 2),
      Bond(1, 3, "CN", 1),
      Bond(3, 4, "NH", 1),
      Bond(3, 5, "NC", 1),
      Bond(1, 6, "CC", 1)])
  }

  /** `graph_tertiary_amide`. */
  function TertiaryAmide(): (r: Pattern)
    ensures WellFormed(r) && NoWildcard(r)
  {
    Pattern(["C", "O", "N", "C", "C", "C"],
      [Bond(1, 2, "CO", 2),
      Bond(1, 3, "CN", 1),
      Bond(3, 4, "NC", 1),
      Bond(3, 5, "NC", 1),
      Bond(1, 6, "CC", 1)])
  }

  /** `graph_primary_amine`, the same graph as pyMolinfo's. */
  function PrimaryAmine(): (r: Pattern)
    ensures WellFormed(r) && NoWildcard(r)
  {
    ChemGraphs.PrimaryAmine()
  }

  /** `graph_secondary_amine`, the same graph as pyMolinfo's. */
  function SecondaryAmine(): (r: Pattern)
    ensures WellFormed(r) && NoWildcard(r)
  {
    ChemGraphs.SecondaryAmine()
  }

  /** `graph_tertiary_amine`, the same graph as pyMolinfo's. */
  function TertiaryAmine(): (r: Pattern)
    ensures WellFormed(r) && NoWildcard(r)
  {
    ChemGraphs.TertiaryAmine()
  }

  /** `graph_nitrile`, the same graph as pyMolinfo's. */
  function Nitrile(): (r: Pattern)
    ensures WellFormed(r) && NoWildcard(r)
  {
    ChemGraphs.Nitrile()
  }

  /** `graph_thiol`. */
  function Thiol(): (r: Pattern)
    ensures WellFormed(r) && NoWildcard(r)
  {
    Pattern(["S", "H", "C"],
      [Bond(1, 2, "SH", 1),
      Bond(1, 3, "SC", 1)])
  }

  /** `graph_alkyl_halide`, the same graph as pyMolinfo's. */
  function AlkylHalide(halid: string): (r: Pattern)
    ensures WellFormed(r) && (!IsWildcard(halid) ==> NoWildcard(r))
  {
    ChemGraphs.AlkylHalide(halid)
  }

  /** `graph_primary_alkyl_halide`, the same graph as pyMolinfo's. */
  function PrimaryAlkylHalide(halid: string): (r: Pattern)
    ensures WellFormed(r) && (!IsWildcard(halid) ==> NoWildcard(r))
  {
    ChemGraphs.PrimaryAlkylHalide(halid)
  }

  /** `graph_secondary_alkyl_halide`, the same graph as pyMolinfo's. */
  function SecondaryAlkylHalide(): (r: Pattern)
    ensures WellFormed(r) && NoWildcard(r)
  {
    ChemGraphs.SecondaryAlkylHalide()
  }

  /** `graph_tertiary_alkyl_halide`, the same graph as pyMolinfo's. */
  function TertiaryAlkylHalide(): (r: Pattern)
    ensures WellFormed(r) && NoWildcard(r)
  {
    ChemGraphs.TertiaryAlkylHalide()
  }

  /** `graph_primary_alcohol`, the same graph as pyMolinfo's. */
  function PrimaryAlcohol(): (r: Pattern)
    ensures WellFormed(r) && NoWildcard(r)
  {
    ChemGraphs.PrimaryAlcohol()
  }

  /** `graph_secondary_alcohol`, the same graph as pyMolinfo's. */
  function SecondaryAlcohol(): (r: Pattern)
    ensures WellFormed(r) && NoWildcard(r)
  {
    ChemGraphs.SecondaryAlcohol()
  }

  /** `graph_tertiary_alcohol`, the same graph as pyMolinfo's. */
  function TertiaryAlcohol(): (r: Pattern)
    ensures WellFormed(r) && NoWildcard(r)
  {
    ChemGraphs.TertiaryAlcohol()
  }

  /** molinfo's carboxylic acid adds the same bonds as pyMolinfo's (same end points, order and types); one node symbol differs. */
  lemma CarboxylicAcidSameBonds()
    ensures SameEnds(CarboxylicAcid().bonds, ChemGraphs.CarboxylicAcid().bonds)
    ensures CarboxylicAcid().symbols == ChemGraphs.CarboxylicAcid().symbols[4 := "C"]
  {
  }

  /**
   * molinfo's carboxylic acid differs from pyMolinfo's only at node 5, a concrete carbon where
   * pyMolinfo has the `XX` wildcard.
   */
  lemma CarboxylicAcidConcrete()
    ensures Atom(Build(CarboxylicAcid()), 5, "C") && Atom(Build(ChemGraphs.CarboxylicAcid()), 5, "XX")
  {
    BuildAtom(CarboxylicAcid(), 5);
    BuildAtom(ChemGraphs.CarboxylicAcid(), 5);
  }

  /** Both carboxylic acid graphs have the same edges, with the same types. */
  lemma CarboxylicAcidSameEdges(i: int, j: int)
    ensures Linked(Build(CarboxylicAcid()), i, j) <==> Linked(Build(ChemGraphs.CarboxylicAcid()), i, j)
    ensures forall kind :: Joined(Build(CarboxylicAcid()), i, j, kind) <==> Joined(Build(ChemGraphs.CarboxylicAcid()), i, j, kind)
  {
    CarboxylicAcidSameBonds();
    SameLinks(CarboxylicAcid(), ChemGraphs.CarboxylicAcid(), i, j);
  }

  /** molinfo's amide adds the same bonds as pyMolinfo's (same end points, order and types); one node symbol differs. */
  lemma AmideSameBonds()
    ensures SameEnds(Amide().bonds, ChemGraphs.Amide().bonds)
    ensures Amide().symbols == ChemGraphs.Amide().symbols[5 := "C"]
  {
  }

  /**
   * molinfo's amide differs from pyMolinfo's only at node 6, a concrete carbon where
   * pyMolinfo has the `XX` wildcard.
   */
  lemma AmideConcrete()
    ensures Atom(Build(Amide()), 6, "C") && Atom(Build(ChemGraphs.Amide()), 6, "XX")
  {
    BuildAtom(Amide(), 6);
    BuildAtom(ChemGraphs.Amide(), 6);
  }

  /** Both amide graphs have the same edges, with the same types. */
  lemma AmideSameEdges(i: int, j: int)
    ensures Linked(Build(Amide()), i, j) <==> Linked(Build(ChemGraphs.Amide()), i, j)
    ensures forall kind :: Joined(Build(Amide()), i, j, kind) <==> Joined(Build(ChemGraphs.Amide()), i, j, kind)
  {
    AmideSameBonds();
    SameLinks(Amide(), ChemGraphs.Amide(), i, j);
  }

  /** molinfo's secondary amide adds the same bonds as pyMolinfo's (same end points, order and types); one node symbol differs. */
  lemma SecondaryAmideSameBonds()
    ensures SameEnds(SecondaryAmide().bonds, ChemGraphs.SecondaryAmide().bonds)
    ensures SecondaryAmide().symbols == ChemGraphs.SecondaryAmide().symbols[5 := "C"]
  {
  }

  /**
   * molinfo's secondary amide differs from pyMolinfo's only at node 6, a concrete carbon where
   * pyMolinfo has the `XX` wildcard.
   */
  lemma SecondaryAmideConcrete()
    ensures Atom(Build(SecondaryAmide()), 6, "C") && Atom(Build(ChemGraphs.SecondaryAmide()), 6, "XX")
  {
    BuildAtom(SecondaryAmide(), 6);
    BuildAtom(ChemGraphs.SecondaryAmide(), 6);
  }

  /** Both secondary amide graphs have the same edges, with the same types. */
  lemma SecondaryAmideSameEdges(i: int, j: int)
    ensures Linked(Build(SecondaryAmide()), i, j) <==> Linked(Build(ChemGraphs.SecondaryAmide()), i, j)
    ensures forall kind :: Joined(Build(SecondaryAmide()), i, j, kind) <==> Joined(Build(ChemGraphs.SecondaryAmide()), i, j, kind)
  {
    SecondaryAmideSameBonds();
    SameLinks(SecondaryAmide(), ChemGraphs.SecondaryAmide(), i, j);
  }

  /** molinfo's tertiary amide adds the same bonds as pyMolinfo's (same end points, order and types); one node symbol differs. */
  lemma TertiaryAmideSameBonds()
    ensures SameEnds(TertiaryAmide().bonds, ChemGraphs.TertiaryAmide().bonds)
    ensures TertiaryAmide().symbols == ChemGraphs.TertiaryAmide().symbols[5 := "C"]
  {
  }

  /**
   * molinfo's tertiary amide differs from pyMolinfo's only at node 6, a concrete carbon where
   * pyMolinfo has the `XX` wildcard.
   */
  lemma TertiaryAmideConcrete()
    ensures Atom(Build(TertiaryAmide()), 6, "C") && Atom(Build(ChemGraphs.TertiaryAmide()), 6, "XX")
  {
    BuildAtom(TertiaryAmide(), 6);
    BuildAtom(ChemGraphs.TertiaryAmide(), 6);
  }

  /** Both tertiary amide graphs have the same edges, with the same types. */
  lemma TertiaryAmideSameEdges(i: int, j: int)
    ensures Linked(Build(TertiaryAmide()), i, j) <==> Linked(Build(ChemGraphs.TertiaryAmide()), i, j)
    ensures forall kind :: Joined(Build(TertiaryAmide()), i, j, kind) <==> Joined(Build(ChemGraphs.TertiaryAmide()), i, j, kind)
  {
    TertiaryAmideSameBonds();
    SameLinks(TertiaryAmide(), ChemGraphs.TertiaryAmide(), i, j);
  }

  /** molinfo's thiol adds the same bonds as pyMolinfo's (same end points, order and types); one node symbol differs. */
  lemma ThiolSameBonds()
    ensures SameEnds(Thiol().bonds, ChemGraphs.Thiol().bonds)
    ensures Thiol().symbols == ChemGraphs.Thiol().symbols[2 := "C"]
  {
  }

  /**
   * molinfo's thiol differs from pyMolinfo's only at node 3, a concrete carbon where
   * pyMolinfo has the `XX` wildcard.
   */
  lemma ThiolConcrete()
    ensures Atom(Build(Thiol()), 3, "C") && Atom(Build(ChemGraphs.Thiol()), 3, "XX")
  {
    BuildAtom(Thiol(), 3);
    BuildAtom(ChemGraphs.Thiol(), 3);
  }

  /** Both thiol graphs have the same edges, with the same types. */
  lemma ThiolSameEdges(i: int, j: int)
    ensures Linked(Build(Thiol()), i, j) <==> Linked(Build(ChemGraphs.Thiol()), i, j)
    ensures forall kind :: Joined(Build(Thiol()), i, j, kind) <==> Joined(Build(ChemGraphs.Thiol()), i, j, kind)
  {
    ThiolSameBonds();
    SameLinks(Thiol(), ChemGraphs.Thiol(), i, j);
  }

  /** molinfo's `graph_hydroxyl` is pyMolinfo's: O (node 1) and H (node 2) joined by a single bond, and nothing else. */
  lemma HydroxylShape()
    ensures var g := Build(Hydroxyl());
      g.order == Ids(2) && Atom(g, 1, "O") && Atom(g, 2, "H") && Joined(g, 1, 2, 1)
      && forall i, j :: Linked(g, i, j) <==> (i == 1 && j == 2) || (i == 2 && j == 1)
  {
    ChemGraphs.HydroxylShape();
  }

  /**
   * molinfo's `graph_arene` is pyMolinfo's: six C atoms on the ring 1-2-3-4-5-6-1, the
   * bond types alternating single, double, ..., the closing bond 6-1 being double.
   */
  lemma AreneShape()
    ensures var g := Build(Arene());
      g.order == Ids(6) && Atom(g, 1, "C") && Atom(g, 2, "C") && Atom(g, 3, "C")
      && Atom(g, 4, "C") && Atom(g, 5, "C") && Atom(g, 6, "C")
      && (forall i, j :: Linked(g, i, j) <==> 1 <= i <= 6 && 1 <= j <= 6 && (j == i % 6 + 1 || i == j % 6 + 1))
      && Joined(g, 1, 2, 1) && Joined(g, 2, 3, 2) && Joined(g, 3, 4, 1)
      && Joined(g, 4, 5, 2) && Joined(g, 5, 6, 1) && Joined(g, 6, 1, 2)
  {
    ChemGraphs.AreneAtoms();
    ChemGraphs.AreneRing();
    ChemGraphs.AreneAlternates();
  }

  lemma TertiaryAlcoholBonds(i: int, j: int)
    ensures (exists b :: b in TertiaryAlcohol().bonds && Links(b, i, j))
      <==> (i == 1 && 2 <= j <= 5) || (j == 1 && 2 <= i <= 5) || (i == 5 && j == 6) || (i == 6 && j == 5)
  {
    var bs := TertiaryAlcohol().bonds;
    if (i == 1 && 2 <= j <= 5) || (j == 1 && 2 <= i <= 5) || (i == 5 && j == 6) || (i == 6 && j == 5) {
      var k := if i == 1 then j - 2 else if j == 1 then i - 2 else 4;
      assert bs[k] in bs && Links(bs[k], i, j);
    }
  }

  /** `graph_tertiary_alcohol`'s edges: C (node 1) to three C (nodes 2-4) and to O (node 5), and O to H (node 6), all single. */
  lemma TertiaryAlcoholLinks()
    ensures var g := Build(TertiaryAlcohol());
      (forall i, j :: Linked(g, i, j) <==>
        (i == 1 && 2 <= j <= 5) || (j == 1 && 2 <= i <= 5) || (i == 5 && j == 6) || (i == 6 && j == 5))
      && forall i, j :: Linked(g, i, j) ==> Joined(g, i, j, 1)
  {
    var p := TertiaryAlcohol();
    forall i, j ensures Linked(Build(p), i, j) <==> (i == 1 && 2 <= j <= 5) || (j == 1 && 2 <= i <= 5) || (i == 5 && j == 6) || (i == 6 && j == 5) {
      BuildLinked(p, i, j);
      TertiaryAlcoholBonds(i, j);
    }
    BuildKinds(p, 1);
  }

  /** `graph_tertiary_alcohol`'s atoms: four C (nodes 1-4), O (node 5) and H (node 6). */
  lemma TertiaryAlcoholAtoms()
    ensures var g := Build(TertiaryAlcohol());
      g.order == Ids(6) && Atom(g, 1, "C") && Atom(g, 2, "C") && Atom(g, 3, "C")
      && Atom(g, 4, "C") && Atom(g, 5, "O") && Atom(g, 6, "H")
  {
    var p := TertiaryAlcohol();
    BuildNodes(p);
    assert Atom(Build(p), 0 + 1, p.symbols[0]);
    assert Atom(Build(p), 1 + 1, p.symbols[1]);
    assert Atom(Build(p), 2 + 1, p.symbols[2]);
    assert Atom(Build(p), 3 + 1, p.symbols[3]);
    assert Atom(Build(p), 4 + 1, p.symbols[4]);
    assert Atom(Build(p), 5 + 1, p.symbols[5]);
  }

}
