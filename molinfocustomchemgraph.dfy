/**
 * molinfo's `CustomChemGraph` (the older package): each input dict gets one fresh graph
 * that receives the tokens of all its keys, and every key of the dict is paired with
 * that graph. There is no subgroup handling.
 */
module MolinfoCustomChemGraph {
  import opened Wrappers
  import opened NxGraph
  import opened BondToken
  import CustomChemGraph

  type Group = CustomChemGraph.Group

  /** Every token of the dict has a bond character. */
  predicate Separated(items: Group) {
    forall i, k :: 0 <= i < |items| && 0 <= k < |items[i].1| ==> Separator(items[i].1[k]).Some?
  }

  /** The tokens of all keys of the dict, key after key. */
  function AllTokens(items: Group): seq<string>
    decreases |items|
  {
    if items == [] then [] else items[0].1 + AllTokens(items[1..])
  }

  /** The dict's graph after the loop over its keys, each key adding its tokens in turn. */
  function GroupGraph(g: GraphValue<NodeKey>, items: Group): (r: Result<GraphValue<NodeKey>>)
    ensures r.Ok? <==> Separated(items)
    decreases |items|
  {
    if items == [] then Ok(g)
    else
      var r :=
        match AddTokens(g, items[0].1)
        case Err(e) => Err(e)
        case Ok(g1) => GroupGraph(g1, items[1..]);
      assert forall i :: 1 <= i < |items| ==> items[i] == items[1..][i - 1];
      r
  }

  /** One dict's entries: every key paired with the dict's graph in its final state. */
  function GroupEntries(items: Group): (r: Result<seq<(string, GraphValue<NodeKey>)>>)
    ensures r.Ok? <==> Separated(items)
    ensures r.Ok? ==> |r.value| == |items| && forall i :: 0 <= i < |items| ==>
      r.value[i].0 == items[i].0 && r.value[i].1 == GroupGraph(Empty(), items).value
  {
    match GroupGraph(Empty(), items)
    case Err(e) => Err(e)
    case Ok(final) => Ok(seq(|items|, i requires 0 <= i < |items| => (items[i].0, final)))
  }

  /** `create_custom_graph`: the entries of all dicts in order; the first faulty token raises. */
  function CustomGraphs(groups: seq<Group>): (r: Result<seq<(string, GraphValue<NodeKey>)>>)
    ensures r.Ok? <==> forall j :: 0 <= j < |groups| ==> Separated(groups[j])
    decreases |groups|
  {
    if groups == [] then Ok([])
    else
      var r :=
        match GroupEntries(groups[0])
        case Err(e) => Err(e)
        case Ok(es) => CustomChemGraph.Prefixed(es, CustomGraphs(groups[1..]));
      assert forall j :: 1 <= j < |groups| ==> groups[j] == groups[1..][j - 1];
      r
  }

  /** Building key by key is building from all the dict's tokens at once. */
  lemma {:induction false} GroupGraphIsTokens(g: GraphValue<NodeKey>, items: Group)
    ensures GroupGraph(g, items) == AddTokens(g, AllTokens(items))
    decreases |items|
  {
    if items != [] {
      AddTokensAppend(g, items[0].1, AllTokens(items[1..]));
      if AddTokens(g, items[0].1).Ok? {
        GroupGraphIsTokens(AddTokens(g, items[0].1).value, items[1..]);
      }
    }
  }

  /**
   * All keys of one dict share one graph: the graph built from the tokens of all its
   * keys, so a key's graph also holds the atoms and bonds of the dict's other keys.
   */
  lemma KeysShareGraph(items: Group, a: int, b: int)
    requires GroupEntries(items).Ok? && 0 <= a < |items| && 0 <= b < |items|
    ensures GroupEntries(items).value[a].1 == GroupEntries(items).value[b].1
    ensures AddTokens(Empty(), AllTokens(items)) == Ok(GroupEntries(items).value[a].1)
  {
    GroupGraphIsTokens(Empty(), items);
  }

  /** The output has one entry per key of every dict, in input order. */
  lemma {:induction false} OneEntryPerKey(groups: seq<Group>)
    requires CustomGraphs(groups).Ok?
    ensures CustomChemGraph.KeysOf(CustomGraphs(groups).value) == CustomChemGraph.ItemKeys(groups)
    decreases |groups|
  {
    if groups != [] {
      var es := GroupEntries(groups[0]).value;
      var rest := CustomGraphs(groups[1..]).value;
      assert CustomGraphs(groups).value == es + rest;
      OneEntryPerKey(groups[1..]);
      assert CustomChemGraph.KeysOf(es) == CustomChemGraph.KeysOf(groups[0]);
      CustomChemGraph.KeysOfAppend(es, rest);
    }
  }

  /** The loop over one dict's keys, with its one graph object `G`. */
  method BuildGroup(items: Group) returns (r: Result<seq<(string, GraphValue<NodeKey>)>>)
    ensures r == GroupEntries(items)
  {
    var G := new Graph<NodeKey>();
    for i := 0 to |items|
      invariant G.Valid()
      invariant GroupGraph(G.Value(), items[i..]) == GroupGraph(Empty(), items)
    {
      assert items[i..][1..] == items[i + 1..];
      var err := AddBondTokens(G, items[i].1);
      if err.Some? {
        return Err(err.value);
      }
    }
    assert items[|items|..] == [];
    var final := G.Value();
    r := Ok(seq(|items|, i requires 0 <= i < |items| => (items[i].0, final)));
  }

  /** One turn of the loop over the dicts, in terms of what is left to do. */
  lemma CustomGraphsStep(groups: seq<Group>, j: int, list: seq<(string, GraphValue<NodeKey>)>)
    requires 0 <= j < |groups|
    ensures GroupEntries(groups[j]).Err? ==>
      CustomChemGraph.Prefixed(list, CustomGraphs(groups[j..])) == Err(GroupEntries(groups[j]).error)
    ensures GroupEntries(groups[j]).Ok? ==>
      CustomChemGraph.Prefixed(list, CustomGraphs(groups[j..]))
        == CustomChemGraph.Prefixed(list + GroupEntries(groups[j]).value, CustomGraphs(groups[j + 1..]))
  {
    assert groups[j..][0] == groups[j] && groups[j..][1..] == groups[j + 1..];
    var rest := CustomGraphs(groups[j + 1..]);
    if GroupEntries(groups[j]).Ok? && rest.Ok? {
      var es := GroupEntries(groups[j]).value;
      assert list + (es + rest.value) == (list + es) + rest.value;
    }
  }

  /** `create_custom_graph`. */
  method CreateCustomGraph(groups: seq<Group>) returns (r: Result<seq<(string, GraphValue<NodeKey>)>>)
    ensures r == CustomGraphs(groups)
  {
    var list: seq<(string, GraphValue<NodeKey>)> := [];
    assert groups[0..] == groups;
    assert CustomChemGraph.Prefixed(list, CustomGraphs(groups)) == CustomGraphs(groups) by {
      if CustomGraphs(groups).Ok? {
        assert list + CustomGraphs(groups).value == CustomGraphs(groups).value;
      }
    }
    for j := 0 to |groups|
      invariant CustomGraphs(groups) == CustomChemGraph.Prefixed(list, CustomGraphs(groups[j..]))
    {
      CustomGraphsStep(groups, j, list);
      var es := BuildGroup(groups[j]);
      if es.Err? {
        return Err(es.error);
      }
      list := list + es.value;
    }
    assert groups[|groups|..] == [];
    assert list + [] == list;
    r := Ok(list);
  }
}
