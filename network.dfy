/**
 * pyMolinfo's `Network`: the compound's atoms and bonds, the library of functional-group
 * patterns, and the state the checks leave behind — the names of the last report, the
 * registry of custom groups, and the compound graph. The presence check, the count and the
 * search walk the compound graph with the wildcard node test.
 */
module Network {
  import opened Wrappers
  import opened NxGraph
  import opened PatternGraphs
  import opened FunctionalGroups
  import opened GroupRequests
  import ChemGraphs
  import Compound

  /** `function_group_list`, in declaration order. */
  function PyLibrary(): (r: Library)
    ensures |r| == 41
  {
    [ ("hydroxyl", [ChemGraphs.Hydroxyl()]),
      ("carbonyl", [ChemGraphs.Carbonyl()]),
      ("carboxyl", [ChemGraphs.Carboxyl()]),
      ("N-H", [ChemGraphs.NH()]),
      ("C-N", [ChemGraphs.CNSingleBond()]),
      ("N-O", [ChemGraphs.NOSingleBond()]),
      ("C-O", [ChemGraphs.COSingleBond()]),
      ("C#N", [ChemGraphs.CNTripleBond()]),
      ("methyl-group", [ChemGraphs.Methyl()]),
      ("methylene-group", [ChemGraphs.Methylene()]),
      ("methine-group", [ChemGraphs.Methine()]),
      ("ether", [ChemGraphs.Ether()]),
      ("pst-alcohols", [ChemGraphs.PrimaryAlcohol(), ChemGraphs.SecondaryAlcohol(),
                        ChemGraphs.TertiaryAlcohol(), ChemGraphs.SecondaryAlcoholDoubleBond(),
                        ChemGraphs.PrimaryAlcoholDoubleBond()]),
      ("primary-alcohol", [ChemGraphs.PrimaryAlcohol(), ChemGraphs.PrimaryAlcoholDoubleBond()]),
      ("secondary-alcohol", [ChemGraphs.SecondaryAlcohol(), ChemGraphs.SecondaryAlcoholDoubleBond()]),
      ("tertiary-alcohol", [ChemGraphs.TertiaryAlcohol()]),
      ("alkane", [ChemGraphs.Alkane()]),
      ("alkane CH bond (sp3)", [ChemGraphs.AlkaneCHBond()]),
      ("alkene", [ChemGraphs.Alkene()]),
      ("alkene CH bond (sp2)", [ChemGraphs.AlkeneCHBond()]),
      ("aromatic CH bond (sp2)", [ChemGraphs.AromaticCHBond()]),
      ("aldehyde CH bond (sp2)", [ChemGraphs.AldehydeCHBond()]),
      ("alkyne", [ChemGraphs.Alkyne()]),
      ("alkyne CH bond (sp)", [ChemGraphs.AlkyneCHBond()]),
      ("arene", [ChemGraphs.Arene()]),
      ("aldehyde", [ChemGraphs.Aldehyde()]),
      ("ketone", [ChemGraphs.Ketone()]),
      ("carboxylic-acid", [ChemGraphs.CarboxylicAcid()]),
      ("ester", [ChemGraphs.Ester()]),
      ("pst-amide", [ChemGraphs.PrimaryAmide(), ChemGraphs.SecondaryAmide(), ChemGraphs.TertiaryAmide()]),
      ("primary-amide", [ChemGraphs.PrimaryAmide()]),
      ("secondary-amide", [ChemGraphs.SecondaryAmide()]),
      ("tertiary-amide", [ChemGraphs.TertiaryAmide()]),
      ("pst-amine", [ChemGraphs.PrimaryAmine(), ChemGraphs.SecondaryAmine(), ChemGraphs.TertiaryAmine()]),
      ("primary-amine", [ChemGraphs.PrimaryAmine()]),
      ("secondary-amine", [ChemGraphs.SecondaryAmine()]),
      ("tertiary-amine", [ChemGraphs.TertiaryAmine()]),
      ("nitrile", [ChemGraphs.Nitrile()]),
      ("thiol", [ChemGraphs.Thiol()]),
      ("alkyl-halids", [ChemGraphs.AlkylHalide("F"), ChemGraphs.AlkylHalide("Cl"),
                        ChemGraphs.AlkylHalide("Br"), ChemGraphs.AlkylHalide("I"),
                        ChemGraphs.PrimaryAlkylHalide("F"), ChemGraphs.PrimaryAlkylHalide("Cl"),
                        ChemGraphs.PrimaryAlkylHalide("Br"), ChemGraphs.PrimaryAlkylHalide("I")]),
      ("epoxide", [ChemGraphs.Epoxide()]) ]
  }

  /** The request actually walked: an empty request means every library group. */
  function Chosen(lib: Library, items: seq<Request>): (r: seq<Request>)
    ensures items != [] ==> r == items
    ensures items == [] ==> |r| == |lib| && forall k :: 0 <= k < |lib| ==> r[k] == Named(lib[k].0)
  {
    if items == [] then Requests(Keys(lib)) else items
  }

  /** `Network(...)`: a network over the compound with pyMolinfo's library. */
  method New(atomElements: seq<string>, atomCount: nat, atomBonds1d: seq<Compound.FlatBond>) returns (n: Network)
    ensures fresh(n) && n.library == PyLibrary() && n.functionalGroups == Keys(PyLibrary())
    ensures n.atomElements == atomElements && n.atomCount == atomCount && n.atomBonds1d == atomBonds1d
    ensures n.Reg() == Registry([], map[]) && n.compoundGraph == None && n.Valid()
  {
    n := new Network(atomElements, atomCount, atomBonds1d, PyLibrary());
  }

  class Network {
    const atomElements: seq<string>
    /** `len(xyzList)`: the number of atoms `create_graph` adds. */
    const atomCount: nat
    const atomBonds1d: seq<Compound.FlatBond>
    const library: Library

    var functionalGroups: seq<string>
    var customFunctionalGroups: seq<string>
    var customFunctionalGroupList: map<string, seq<Custom>>
    var compoundGraph: Option<Target>

    /** The custom-group registry held in the two custom fields. */
    function Reg(): Registry
      reads this
    {
      Registry(customFunctionalGroups, customFunctionalGroupList)
    }

    ghost predicate Valid()
      reads this
    {
      RegistryValid(Reg())
    }

    /**
     * `__init__` given its functional-group table (`New` passes the library): the table's
     * names are the initial `functional_groups`, and nothing is registered or built yet.
     */
    constructor (atomElements: seq<string>, atomCount: nat, atomBonds1d: seq<Compound.FlatBond>, library: Library)
      ensures this.atomElements == atomElements && this.atomCount == atomCount && this.atomBonds1d == atomBonds1d
      ensures this.library == library && functionalGroups == Keys(library)
      ensures Reg() == Registry([], map[]) && compoundGraph == None
      ensures Valid()
    {
      this.atomElements := atomElements;
      this.atomCount := atomCount;
      this.atomBonds1d := atomBonds1d;
      this.library := library;
      functionalGroups := Keys(library);
      customFunctionalGroups := [];
      customFunctionalGroupList := map[];
      compoundGraph := None;
    }

    /** `update_custom_functional_group`: a key not yet registered is appended with `[value]`. */
    method UpdateCustomFunctionalGroup(key: string, value: Custom)
      modifies this
      ensures Reg() == Register(old(Reg()), key, value)
      ensures old(Valid()) ==> Valid()
      ensures functionalGroups == old(functionalGroups) && compoundGraph == old(compoundGraph)
    {
      if old(Valid()) {
        RegisterValid(Reg(), key, value);
      }
      if key !in customFunctionalGroups {
        customFunctionalGroups := customFunctionalGroups + [key];
        customFunctionalGroupList := customFunctionalGroupList[key := [value]];
      }
    }

    /**
     * `create_graph`: nodes 1..n with the stripped element symbols, one edge per bond
     * entry; the graph is stored as `compound_graph`. Too few element symbols raise.
     */
    method CreateGraph() returns (r: Result<Target>)
      modifies this
      ensures r == CompoundGraph(atomElements, atomCount, atomBonds1d)
      ensures compoundGraph == if r.Ok? then Some(r.value) else old(compoundGraph)
      ensures functionalGroups == old(functionalGroups) && Reg() == old(Reg())
    {
      r := FunctionalGroups.CreateGraph(atomElements, atomCount, atomBonds1d);
      if r.Ok? {
        compoundGraph := Some(r.value);
      }
    }

    /**
     * One step of either walk: a known name is matched variant by variant, a custom dict is
     * registered and then matched; a list value raises.
     */
    method Step(mode: Mode, G: Target, u: Unit) returns (v: Option<Result<Entry>>)
      modifies this
      ensures v == Evaluate(mode, G, library, NodeMatch, u)
      ensures Reg() == After(mode, u, old(Reg()))
      ensures functionalGroups == old(functionalGroups) && compoundGraph == old(compoundGraph)
    {
      match u
      case LibName(name) =>
        var ps := Lookup(library, name);
        if ps.None? {
          return None;
        }
        var vs := Graphs(ps.value);
        if mode == Checking {
          var found := AnyVariant(G, vs, NodeMatch);
          v := Some(Ok(Found(name, found)));
        } else {
          var found, count := CountVariants(G, vs, NodeMatch);
          v := Some(Ok(Counted(name, found, count)));
        }
      case CustomEntry(key, value) =>
        if value.GraphOf? || mode == Counting {
          UpdateCustomFunctionalGroup(key, value);
        }
        if value.NameList? {
          if mode == Counting {
            v := Some(Err(NotAGraph));
          } else if |value.names| != 2 {
            v := Some(Err("custom functional group must have 2 elements"));
          } else {
            v := Some(Err("AttributeError: 'str' object has no attribute 'nodes'"));
          }
          return;
        }
        if mode == Checking {
          var found := AnyVariant(G, [value.graph], NodeMatch);
          v := Some(Ok(Found(key, found)));
        } else {
          var found, count := CountVariants(G, [value.graph], NodeMatch);
          v := Some(Ok(Counted(key, found, count)));
        }
    }

    /** The step at `todo[j]`, with the walk's remaining work before and after it. */
    method Advance(mode: Mode, G: Target, ghost goal: Run, ghost todo: seq<Unit>, j: nat, u: Unit, list: seq<Entry>)
      returns (list1: seq<Entry>, err: Option<string>)
      requires j < |todo| && todo[j] == u
      requires goal == Then(list, RunUnits(mode, EvalOf(mode, G, library, NodeMatch), todo[j..], Reg()))
      modifies this
      ensures err.None? ==> goal == Then(list1, RunUnits(mode, EvalOf(mode, G, library, NodeMatch), todo[j + 1..], Reg()))
      ensures err.Some? ==> goal == Run(Err(err.value), Reg())
      ensures functionalGroups == old(functionalGroups) && compoundGraph == old(compoundGraph)
    {
      RunStep(mode, EvalOf(mode, G, library, NodeMatch), todo, j, list, Reg());
      var v := Step(mode, G, u);
      match v
      case None =>
        list1, err := list, None;
      case Some(Err(e)) =>
        list1, err := list, Some(e);
      case Some(Ok(x)) =>
        list1, err := list + [x], None;
    }

    /** One item of the request: a name, or every dict of a `CustomChemGraph` in turn. */
    method WalkItem(mode: Mode, G: Target, ghost goal: Run, items: seq<Request>, i: nat, list: seq<Entry>)
      returns (list1: seq<Entry>, err: Option<string>)
      requires i < |items|
      requires goal == Then(list, RunUnits(mode, EvalOf(mode, G, library, NodeMatch), Units(items[i..]), Reg()))
      modifies this
      ensures err.None? ==> goal == Then(list1, RunUnits(mode, EvalOf(mode, G, library, NodeMatch), Units(items[i + 1..]), Reg()))
      ensures err.Some? ==> goal == Run(Err(err.value), Reg())
      ensures functionalGroups == old(functionalGroups) && compoundGraph == old(compoundGraph)
    {
      ghost var todo := Units(items[i..]);
      UnitsStep(items, i);
      match items[i]
      case Named(name) =>
        assert todo[0] == LibName(name) && todo[1..] == Units(items[i + 1..]);
        list1, err := Advance(mode, G, goal, todo, 0, LibName(name), list);
      case CustomSet(es) =>
        assert todo[0..] == todo;
        list1, err := list, None;
        for j := 0 to |es|
          invariant err == None
          invariant goal == Then(list1, RunUnits(mode, EvalOf(mode, G, library, NodeMatch), todo[j..], Reg()))
          invariant functionalGroups == old(functionalGroups) && compoundGraph == old(compoundGraph)
        {
          list1, err := Advance(mode, G, goal, todo, j, CustomEntry(es[j].0, es[j].1), list1);
          if err.Some? {
            return;
          }
        }
        assert todo[|es|..] == Units(items[i + 1..]);
    }

    /**
     * The loop of `check_functional_group` (presence) or `count_functional_group` (count):
     * item by item, and dict by dict inside a `CustomChemGraph`. On success the report's
     * names become `functional_groups`; an exception leaves them as they were, with the
     * custom groups registered so far kept.
     */
    method Walk(mode: Mode, G: Target, items: seq<Request>) returns (r: Result<seq<Entry>>)
      modifies this
      ensures r == RunUnits(mode, EvalOf(mode, G, library, NodeMatch), Units(items), old(Reg())).out
      ensures Reg() == RunUnits(mode, EvalOf(mode, G, library, NodeMatch), Units(items), old(Reg())).reg
      ensures functionalGroups == if r.Ok? then Groups(r.value) else old(functionalGroups)
      ensures compoundGraph == old(compoundGraph)
    {
      ghost var eval := EvalOf(mode, G, library, NodeMatch);
      ghost var goal := RunUnits(mode, eval, Units(items), Reg());
      var list: seq<Entry> := [];
      assert items[0..] == items;
      ThenEnds(mode, eval, list, goal, Reg());
      for i := 0 to |items|
        invariant goal == Then(list, RunUnits(mode, eval, Units(items[i..]), Reg()))
        invariant functionalGroups == old(functionalGroups) && compoundGraph == old(compoundGraph)
      {
        var err;
        list, err := WalkItem(mode, G, goal, items, i, list);
        if err.Some? {
          return Err(err.value);
        }
      }
      assert items[|items|..] == [];
      ThenEnds(mode, eval, list, goal, Reg());
      r := Ok(list);
      functionalGroups := Groups(list);
    }

    /** `check_functional_group`. */
    method CheckFunctionalGroup(G: Target, items: seq<Request>) returns (r: Result<seq<Entry>>)
      modifies this
      ensures r == RunUnits(Checking, EvalOf(Checking, G, library, NodeMatch), Units(items), old(Reg())).out
      ensures Reg() == RunUnits(Checking, EvalOf(Checking, G, library, NodeMatch), Units(items), old(Reg())).reg
      ensures functionalGroups == if r.Ok? then Groups(r.value) else old(functionalGroups)
      ensures compoundGraph == old(compoundGraph)
    {
      r := Walk(Checking, G, items);
    }

    /** `count_functional_group`. */
    method CountFunctionalGroup(G: Target, items: seq<Request>) returns (r: Result<seq<Entry>>)
      modifies this
      ensures r == RunUnits(Counting, EvalOf(Counting, G, library, NodeMatch), Units(items), old(Reg())).out
      ensures Reg() == RunUnits(Counting, EvalOf(Counting, G, library, NodeMatch), Units(items), old(Reg())).reg
      ensures functionalGroups == if r.Ok? then Groups(r.value) else old(functionalGroups)
      ensures compoundGraph == old(compoundGraph)
    {
      r := Walk(Counting, G, items);
    }

    /**
     * `check_functional_groups`: build and store the compound graph, then run the presence
     * check or the count over the request (every library group when it is empty). With an
     * empty request the only exception is the graph's own, and afterwards
     * `functional_groups` is the library's names again, in library order.
     */
    method CheckFunctionalGroups(items: seq<Request>, count: bool) returns (r: Result<seq<Entry>>)
      modifies this
      ensures var g := CompoundGraph(atomElements, atomCount, atomBonds1d);
        var mode := if count then Counting else Checking;
        && (g.Err? ==> r == Err(g.error) && compoundGraph == old(compoundGraph) && Reg() == old(Reg()))
        && (g.Ok? ==>
          && compoundGraph == Some(g.value)
          && r == RunUnits(mode, EvalOf(mode, g.value, library, NodeMatch), Units(Chosen(library, items)), old(Reg())).out
          && Reg() == RunUnits(mode, EvalOf(mode, g.value, library, NodeMatch), Units(Chosen(library, items)), old(Reg())).reg)
      ensures functionalGroups == if r.Ok? then Groups(r.value) else old(functionalGroups)
      ensures items == [] ==> (r.Ok? <==> CompoundGraph(atomElements, atomCount, atomBonds1d).Ok?)
      ensures items == [] && r.Ok? ==> functionalGroups == Keys(library)
    {
      var request := if items == [] then Requests(Keys(library)) else items;
      var g := CreateGraph();
      if g.Err? {
        return Err(g.error);
      }
      var mode := if count then Counting else Checking;
      if count {
        r := CountFunctionalGroup(g.value, request);
      } else {
        r := CheckFunctionalGroup(g.value, request);
      }
      if items == [] {
        RunOutputs(mode, EvalOf(mode, g.value, library, NodeMatch), Units(request), old(Reg()));
        NamesNeverRaise(mode, g.value, library, NodeMatch, Keys(library));
        AllGroupsReported(mode, g.value, library, NodeMatch);
      }
    }

    /**
     * The graphs `search_within_main_graph` picks for `name`: the library variants when the
     * last report holds the name, overridden by the registered list of a custom group.
     */
    function Selected(name: string): (r: seq<Custom>)
      reads this
      ensures r != [] ==> (name in functionalGroups && name in Keys(library)) || name in customFunctionalGroups
    {
      var fromLibrary :=
        if name in functionalGroups && Lookup(library, name).Some? then Wrap(Graphs(Lookup(library, name).value)) else [];
      if name in customFunctionalGroups && name in customFunctionalGroupList then customFunctionalGroupList[name]
      else fromLibrary
    }

    /** The selection at the head of `search_within_main_graph`: a custom group wins over the library's. */
    method SelectGraphs(name: string) returns (sub: seq<Custom>)
      ensures sub == Selected(name)
    {
      sub := [];
      for i := 0 to |functionalGroups|
        invariant sub == if name in functionalGroups[..i] && Lookup(library, name).Some?
          then Wrap(Graphs(Lookup(library, name).value)) else []
      {
        assert functionalGroups[..i + 1] == functionalGroups[..i] + [functionalGroups[i]];
        if name == functionalGroups[i] {
          var ps := Lookup(library, name);
          if ps.Some? {
            sub := Wrap(Graphs(ps.value));
          }
        }
      }
      assert functionalGroups[..|functionalGroups|] == functionalGroups;
      ghost var fromLibrary := sub;
      for i := 0 to |customFunctionalGroups|
        invariant sub == if name in customFunctionalGroups[..i] && name in customFunctionalGroupList
          then customFunctionalGroupList[name] else fromLibrary
      {
        assert customFunctionalGroups[..i + 1] == customFunctionalGroups[..i] + [customFunctionalGroups[i]];
        if name == customFunctionalGroups[i] && name in customFunctionalGroupList {
          sub := customFunctionalGroupList[name];
        }
      }
      assert customFunctionalGroups[..|customFunctionalGroups|] == customFunctionalGroups;
    }

    /**
     * `search_within_main_graph`: every embedding of every selected graph into the stored
     * compound graph, each with the running count.
     */
    method SearchWithinMainGraph(name: string) returns (r: Result<seq<Hit>>)
      ensures r == Search(compoundGraph, Selected(name), NodeMatch)
    {
      var sub := SelectGraphs(name);
      if sub == [] {
        return Err("functional group not found!");
      }
      if compoundGraph.None? {
        return Err(NotAGraph);
      }
      for k := 0 to |sub|
        invariant forall l :: 0 <= l < k ==> sub[l].GraphOf?
      {
        if sub[k].NameList? {
          return Err(NotAGraph);
        }
      }
      var hits := CollectHits(MatcherOf(compoundGraph.value, NodeMatch), Unwrap(sub));
      r := Ok(hits);
    }
  }
}
