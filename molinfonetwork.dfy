/**
 * molinfo's `Network` (the older package): a fixed library of functional-group patterns
 * and a presence check over the compound graph with plain symbol equality as the node
 * test. Nothing is stored between calls: the graph is built and handed to the presence check.
 */
module MolinfoNetwork {
  import opened Wrappers
  import opened PatternGraphs
  import opened FunctionalGroups
  import opened GroupRequests
  import MolinfoChemGraphs
  import Compound

  /** `function_group_list`, in declaration order. */
  function MolinfoLibrary(): (r: Library)
    ensures |r| == 24
  {
    [ ("hydroxyl", [MolinfoChemGraphs.Hydroxyl()]),
      ("carbonyl", [MolinfoChemGraphs.Carbonyl()]),
      ("carboxyl", [MolinfoChemGraphs.Carboxyl()]),
      ("ether", [MolinfoChemGraphs.Ether()]),
      ("alcohols", [MolinfoChemGraphs.PrimaryAlcohol(), MolinfoChemGraphs.SecondaryAlcohol(),
                    MolinfoChemGraphs.TertiaryAlcohol()]),
      ("alkane", [MolinfoChemGraphs.Alkane()]),
      ("alkene", [MolinfoChemGraphs.Alkene()]),
      ("alkyne", [MolinfoChemGraphs.Alkyne()]),
      ("arene", [MolinfoChemGraphs.Arene()]),
      ("aldehyde", [MolinfoChemGraphs.Aldehyde()]),
      ("ketone", [MolinfoChemGraphs.Ketone()]),
      ("carboxylic_acid", [MolinfoChemGraphs.CarboxylicAcid()]),
      ("ester", [MolinfoChemGraphs.Ester()]),
      ("amide", [MolinfoChemGraphs.PrimaryAmide(), MolinfoChemGraphs.SecondaryAmide(),
                 MolinfoChemGraphs.TertiaryAmide()]),
      ("primary_amide", [MolinfoChemGraphs.PrimaryAmide()]),
      ("secondary_amide", [MolinfoChemGraphs.SecondaryAmide()]),
      ("tertiary_amide", [MolinfoChemGraphs.TertiaryAmide()]),
      ("amine", [MolinfoChemGraphs.PrimaryAmine(), MolinfoChemGraphs.SecondaryAmine(),
                 MolinfoChemGraphs.TertiaryAmine()]),
      ("primary_amine", [MolinfoChemGraphs.PrimaryAmine()]),
      ("secondary_amine", [MolinfoChemGraphs.SecondaryAmine()]),
      ("tertiary_amine", [MolinfoChemGraphs.TertiaryAmine()]),
      ("nitrile", [MolinfoChemGraphs.Nitrile()]),
      ("thiol", [MolinfoChemGraphs.Thiol()]),
      ("alkyl_halids", [MolinfoChemGraphs.AlkylHalide("F"), MolinfoChemGraphs.AlkylHalide("Cl"),
                        MolinfoChemGraphs.AlkylHalide("Br"), MolinfoChemGraphs.AlkylHalide("I"),
                        MolinfoChemGraphs.PrimaryAlkylHalide("F"), MolinfoChemGraphs.PrimaryAlkylHalide("Cl"),
                        MolinfoChemGraphs.PrimaryAlkylHalide("Br"), MolinfoChemGraphs.PrimaryAlkylHalide("I")]) ]
  }

  /** The presence check's evaluation of one step, with plain symbol equality. */
  function Checked(G: Target, lib: Library): Eval {
    EvalOf(Checking, G, lib, SameSymbol)
  }

  /** `Network(...)`: a network over the compound with molinfo's library. */
  method New(atomElements: seq<string>, atomCount: nat, atomBonds1d: seq<Compound.FlatBond>) returns (n: Network)
    ensures n.library == MolinfoLibrary()
    ensures n.atomElements == atomElements && n.atomCount == atomCount && n.atomBonds1d == atomBonds1d
  {
    n := new Network(atomElements, atomCount, atomBonds1d, MolinfoLibrary());
  }

  /**
   * The compound's atoms and bonds and the functional-group table, all fixed when the
   * network is made.
   */
  class Network {
    const atomElements: seq<string>
    /** `len(xyzList)`: the number of atoms `create_graph` adds. */
    const atomCount: nat
    const atomBonds1d: seq<Compound.FlatBond>
    const library: Library

    /** `__init__` given its functional-group table (`New` passes the library). */
    constructor (atomElements: seq<string>, atomCount: nat, atomBonds1d: seq<Compound.FlatBond>, library: Library)
      ensures this.atomElements == atomElements && this.atomCount == atomCount && this.atomBonds1d == atomBonds1d
      ensures this.library == library
    {
      this.atomElements := atomElements;
      this.atomCount := atomCount;
      this.atomBonds1d := atomBonds1d;
      this.library := library;
    }

    /**
     * `check_functional_group`: one entry per known name, in request order, whose result
     * says some variant of the group embeds in `G`; unknown names are skipped.
     */
    method CheckFunctionalGroup(G: Target, names: seq<string>) returns (res: seq<Entry>)
      ensures res == Outputs(Checked(G, library), NameUnits(names))
      ensures Groups(res) == Known(library, names)
    {
      res := [];
      for i := 0 to |names|
        invariant res == Outputs(Checked(G, library), NameUnits(names[..i]))
      {
        OutputsSnoc(Checked(G, library), names, i);
        var ps := Lookup(library, names[i]);
        if ps.Some? {
          var found := AnyVariant(G, Graphs(ps.value), SameSymbol);
          res := res + [Found(names[i], found)];
        }
      }
      assert names[..|names|] == names;
      NameOutputs(library, Checked(G, library), names);
    }

    /**
     * `create_graph`: nodes 1..n with the stripped element symbols, one edge per bond
     * entry; too few element symbols raise. The graph is returned, not stored.
     */
    method CreateGraph() returns (r: Result<Target>)
      ensures r == CompoundGraph(atomElements, atomCount, atomBonds1d)
    {
      r := FunctionalGroups.CreateGraph(atomElements, atomCount, atomBonds1d);
    }

    /**
     * `check_functional_groups`: an empty request means every group of the table; the
     * compound graph is built first, and too few element symbols raise there.
     */
    method CheckFunctionalGroups(names: seq<string>) returns (r: Result<seq<Entry>>)
      ensures r.Ok? <==> atomCount <= |atomElements|
      ensures r.Ok? ==> r.value == Outputs(Checked(CompoundGraph(atomElements, atomCount, atomBonds1d).value, library),
        NameUnits(if names == [] then Keys(library) else names))
      ensures r.Ok? && names == [] ==> Groups(r.value) == Keys(library)
      ensures r.Ok? && names != [] ==> Groups(r.value) == Known(library, names)
    {
      var request := if names == [] then Keys(library) else names;
      var g := CreateGraph();
      if g.Err? {
        return Err(g.error);
      }
      var res := CheckFunctionalGroup(g.value, request);
      if names == [] {
        KnownAll(library, Keys(library));
      }
      r := Ok(res);
    }
  }

  /** One more name at the end of the request adds that name's entry, if any, at the end. */
  lemma OutputsSnoc(eval: Eval, names: seq<string>, i: int)
    requires 0 <= i < |names|
    ensures Outputs(eval, NameUnits(names[..i + 1])) == Outputs(eval, NameUnits(names[..i])) + Here(eval, LibName(names[i]))
  {
    assert NameUnits(names[..i + 1]) == NameUnits(names[..i]) + [LibName(names[i])];
    OutputsAppend(eval, NameUnits(names[..i]), [LibName(names[i])]);
  }

  lemma {:induction false} OutputsAppend(eval: Eval, a: seq<Unit>, b: seq<Unit>)
    ensures Outputs(eval, a + b) == Outputs(eval, a) + Outputs(eval, b)
    decreases |a|
  {
    if a == [] {
      assert a + b == b;
    } else {
      assert (a + b)[0] == a[0] && (a + b)[1..] == a[1..] + b;
      OutputsAppend(eval, a[1..], b);
    }
  }
}
