/**
 * pyMolinfo's `MolGraph`: one molecule given as a dict from its name to its bond tokens.
 * The graph is built by the same subgroup check and token loop as the custom groups, on
 * the single dict, and is then given the molecule's name.
 */
module MolGraph {
  import opened Wrappers
  import opened PyText
  import opened NxGraph
  import opened BondToken
  import CustomChemGraph

  type Group = CustomChemGraph.Group

  /** The fields `__init__` sets: `molecule_name`, `molecule_bonds` and the private graph. */
  datatype MolGraph = MolGraph(name: string, bonds: seq<string>, graph: GraphValue<NodeKey>)

  /** The subgroup lists of the single dict: only its stripped name has one. */
  function Sublists(molecule: Group): CustomChemGraph.Lists
    requires molecule != []
  {
    CustomChemGraph.Subgroups([molecule], [molecule[0].0])
  }

  /**
   * `generate_one_graph`: the graph of the keys whose list is empty, named after the
   * first key. A dict with no key raises IndexError; a key other than the stripped name
   * raises KeyError.
   */
  function OneGraph(molecule: Group): (r: Result<GraphValue<NodeKey>>)
    ensures molecule == [] ==> r.Err?
    ensures r.Ok? ==> r.value.name == molecule[0].0
  {
    if molecule == [] then Err("IndexError: list index out of range")
    else
      match CustomChemGraph.GroupGraph(Empty(), molecule, Sublists(molecule))
      case Err(e) => Err(e)
      case Ok(g) => Ok(g.(name := molecule[0].0))
  }

  /** `MolGraph(custom_molecule)`: name and bonds from the first item, then the graph. */
  function NewMolGraph(molecule: Group): (r: Result<MolGraph>)
    ensures r.Ok? <==> OneGraph(molecule).Ok?
    ensures r.Ok? ==> r.value.name == molecule[0].0 && r.value.bonds == molecule[0].1 && r.value.name == r.value.graph.name
  {
    if molecule == [] then Err("IndexError: list index out of range")
    else
      match OneGraph(molecule)
      case Err(e) => Err(e)
      case Ok(g) => Ok(MolGraph(molecule[0].0, molecule[0].1, g))
  }

  /** The single dict's detail keys are its first key. */
  lemma OneDict(molecule: Group)
    requires molecule != []
    ensures CustomChemGraph.FirstKeys([molecule], [molecule[0].0])
  {
    assert [molecule][0] == molecule;
  }

  /** The only list is the stripped name's, and it is non-empty exactly when a token equals the name, ignoring case. */
  lemma SublistsMeaning(molecule: Group)
    requires molecule != []
    ensures var n := Strip(molecule[0].0);
      (forall x :: x in Sublists(molecule) <==> x == n)
      && (Sublists(molecule)[n] != [] <==> CustomChemGraph.Cites(molecule, n))
  {
    CustomChemGraph.SingleDictLists(molecule, Strip);
  }

  /** A token equal to the molecule's name, ignoring case, leaves the graph empty: nothing but the name. */
  lemma SelfCitedIsEmpty(molecule: Group)
    requires molecule != [] && CustomChemGraph.Cites(molecule, Strip(molecule[0].0))
    requires OneGraph(molecule).Ok?
    ensures OneGraph(molecule) == Ok(GraphValue([], map[], map[], molecule[0].0))
  {
    var sub := Sublists(molecule);
    SublistsMeaning(molecule);
    assert CustomChemGraph.Buildable(molecule, sub);
    CustomChemGraph.ListedKeysAddNothing(Empty(), molecule, sub);
  }

  /**
   * A molecule with one stripped name not cited by its own tokens gets exactly the graph
   * of its tokens, named after it.
   */
  lemma UncitedIsTokens(name: string, bonds: seq<string>)
    requires Strip(name) == name && !CustomChemGraph.Cites([(name, bonds)], name)
    ensures OneGraph([(name, bonds)]).Ok? <==> AddTokens(Empty(), bonds).Ok?
    ensures OneGraph([(name, bonds)]).Ok? ==> OneGraph([(name, bonds)]).value == AddTokens(Empty(), bonds).value.(name := name)
  {
    var molecule := [(name, bonds)];
    var sub := Sublists(molecule);
    assert name in sub && sub[name] == [] by {
      SublistsMeaning(molecule);
    }
    CustomChemGraph.OneUnlistedKey(Empty(), name, bonds, sub);
  }

  /** A first key with surrounding white space has no list, so the graph loop raises KeyError. */
  lemma UnstrippedNameFails(molecule: Group)
    requires molecule != [] && Strip(molecule[0].0) != molecule[0].0
    ensures OneGraph(molecule).Err?
  {
    SublistsMeaning(molecule);
  }

  /** `generate_one_graph`, on its graph object `G`. */
  method GenerateOneGraph(molecule: Group) returns (r: Result<GraphValue<NodeKey>>)
    ensures r == OneGraph(molecule)
  {
    if molecule == [] {
      return Err("IndexError: list index out of range");
    }
    OneDict(molecule);
    var sub := CustomChemGraph.CollectSubgroups([molecule], [molecule[0].0]);
    var G := new Graph<NodeKey>();
    var err := CustomChemGraph.AddGroup(G, molecule, sub);
    if err.Some? {
      return Err(err.value);
    }
    G.SetName(molecule[0].0);
    r := Ok(G.Value());
  }

  /** `MolGraph.__init__`. */
  method Init(molecule: Group) returns (r: Result<MolGraph>)
    ensures r == NewMolGraph(molecule)
  {
    if molecule == [] {
      return Err("IndexError: list index out of range");
    }
    var g := GenerateOneGraph(molecule);
    if g.Err? {
      return Err(g.error);
    }
    r := Ok(MolGraph(molecule[0].0, molecule[0].1, g.value));
  }
}
