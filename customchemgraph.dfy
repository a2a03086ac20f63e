/**
 * pyMolinfo's `CustomChemGraph`: user-defined functional groups given as a list of
 * dicts, each mapping a group name to its bond tokens (`"C1-H2"`, `"C1=O1"`). A group
 * whose first token list names a group (case-insensitively) becomes a list of those
 * names; every other key gets a graph built from its tokens. All keys of one dict that
 * get a graph share that dict's single graph object.
 */
module CustomChemGraph {
  import opened Wrappers
  import opened PyText
  import opened NxGraph
  import opened BondToken

  /** One input dict: its `(name, bond tokens)` items in insertion order. */
  type Group = seq<(string, seq<string>)>

  /** What a key is paired with: the graph built from its tokens, or the group names its tokens cite. */
  datatype Custom = GraphOf(graph: GraphValue<NodeKey>) | NameList(names: seq<string>)

  /** The subgroup lists, keyed by stripped group name. */
  type Lists = map<string, seq<string>>

  /** Every dict has a first key. */
  predicate NonEmpty(groups: seq<Group>) {
    forall j :: 0 <= j < |groups| ==> groups[j] != []
  }

  predicate Distinct(s: seq<string>) {
    forall a, b :: 0 <= a < b < |s| ==> s[a] != s[b]
  }

  /**
   * A dict's first key as the subgroup lists are keyed: `strip` is `str.strip` (passed in
   * so that the folds below reason about it as an opaque normaliser).
   */
  function GroupName(fg: Group, strip: string -> string): string
    requires fg != []
  {
    strip(fg[0].0)
  }

  /** Some token of the dict's first list equals `name`, ignoring case. */
  predicate Cites(fg: Group, name: string)
    requires fg != []
  {
    exists t :: t in fg[0].1 && Lower(name) == Lower(t)
  }

  /**
   * The keys of `custom_group_details`: the first key of each dict, in the order first
   * seen (a key seen again keeps its place). A dict with no key raises IndexError.
   */
  function DetailKeys(groups: seq<Group>, seen: seq<string>): (r: Result<seq<string>>)
    ensures r.Ok? <==> NonEmpty(groups)
    ensures r.Ok? ==> forall k :: k in r.value <==> k in seen || exists j :: 0 <= j < |groups| && groups[j] != [] && groups[j][0].0 == k
    ensures r.Ok? && Distinct(seen) ==> Distinct(r.value)
    decreases |groups|
  {
    if groups == [] then Ok(seen)
    else if groups[0] == [] then Err("IndexError: list index out of range")
    else
      var r := DetailKeys(groups[1..], if groups[0][0].0 in seen then seen else seen + [groups[0][0].0]);
      assert forall j :: 1 <= j < |groups| ==> groups[j] == groups[1..][j - 1];
      r
  }

  /** `{str(k).strip(): [] for k in keys}`. */
  function EmptyLists(keys: seq<string>, strip: string -> string): (m: Lists)
    ensures forall k :: k in keys ==> strip(k) in m
    ensures forall n :: n in m ==> m[n] == []
  {
    map k | k in keys :: strip(k) := []
  }

  /** One copy of `name` for each token equal to it, ignoring case: the innermost loop. */
  function Mentions(name: string, tokens: seq<string>): (r: seq<string>)
    ensures forall x :: x in r ==> x == name
    ensures r != [] <==> exists t :: t in tokens && Lower(name) == Lower(t)
    decreases |tokens|
  {
    if tokens == [] then []
    else (if Lower(name) == Lower(tokens[0]) then [name] else []) + Mentions(name, tokens[1..])
  }

  /** Every dict's name has a list. */
  predicate Keyed(sub: Lists, groups: seq<Group>, strip: string -> string) {
    forall j :: 0 <= j < |groups| ==> groups[j] != [] && GroupName(groups[j], strip) in sub
  }

  /** The middle loop: each dict's list gets the mentions of `name` in its first token list. */
  function CollectGroups(sub: Lists, name: string, groups: seq<Group>, strip: string -> string): (r: Lists)
    requires Keyed(sub, groups, strip)
    ensures r.Keys == sub.Keys
    decreases |groups|
  {
    if groups == [] then sub
    else
      var g := GroupName(groups[0], strip);
      CollectGroups(sub[g := sub[g] + Mentions(name, groups[0][0].1)], name, groups[1..], strip)
  }

  /** The outer loop, over the stripped detail keys in order. */
  function CollectNames(sub: Lists, names: seq<string>, groups: seq<Group>, strip: string -> string): (r: Lists)
    requires Keyed(sub, groups, strip)
    ensures r.Keys == sub.Keys
    decreases |names|
  {
    if names == [] then sub
    else CollectNames(CollectGroups(sub, strip(names[0]), groups, strip), names[1..], groups, strip)
  }

  /** The names `name` adds to the list `g`, over the dicts named `g`, in dict order. */
  function MentionsIn(name: string, groups: seq<Group>, g: string, strip: string -> string): seq<string>
    requires NonEmpty(groups)
    decreases |groups|
  {
    if groups == [] then []
    else (if GroupName(groups[0], strip) == g then Mentions(name, groups[0][0].1) else []) + MentionsIn(name, groups[1..], g, strip)
  }

  /** The names all of `names` add to the list `g`, in order. */
  function NamedIn(names: seq<string>, groups: seq<Group>, g: string, strip: string -> string): seq<string>
    requires NonEmpty(groups)
    decreases |names|
  {
    if names == [] then [] else MentionsIn(strip(names[0]), groups, g, strip) + NamedIn(names[1..], groups, g, strip)
  }

  /** The middle loop appends exactly the mentions of `name` to each list. */
  lemma {:induction false} CollectGroupsIs(sub: Lists, name: string, groups: seq<Group>, g: string, strip: string -> string)
    requires Keyed(sub, groups, strip) && g in sub
    ensures CollectGroups(sub, name, groups, strip)[g] == sub[g] + MentionsIn(name, groups, g, strip)
    decreases |groups|
  {
    if groups != [] {
      var g0 := GroupName(groups[0], strip);
      var here := Mentions(name, groups[0][0].1);
      var sub' := sub[g0 := sub[g0] + here];
      assert CollectGroups(sub, name, groups, strip) == CollectGroups(sub', name, groups[1..], strip);
      CollectGroupsIs(sub', name, groups[1..], g, strip);
      var rest := MentionsIn(name, groups[1..], g, strip);
      if g0 == g {
        assert MentionsIn(name, groups, g, strip) == here + rest;
        AppendAssoc(sub[g], here, rest);
      } else {
        assert MentionsIn(name, groups, g, strip) == [] + rest;
      }
    }
  }

  /** The outer loop appends exactly the mentions of every name to each list. */
  lemma {:induction false} CollectNamesIs(sub: Lists, names: seq<string>, groups: seq<Group>, g: string, strip: string -> string)
    requires Keyed(sub, groups, strip) && g in sub
    ensures CollectNames(sub, names, groups, strip)[g] == sub[g] + NamedIn(names, groups, g, strip)
    decreases |names|
  {
    if names != [] {
      var sub' := CollectGroups(sub, strip(names[0]), groups, strip);
      CollectGroupsIs(sub, strip(names[0]), groups, g, strip);
      CollectNamesIs(sub', names[1..], groups, g, strip);
    }
  }

  /** `name` adds to list `g` exactly when some dict named `g` cites it, and adds only itself. */
  lemma {:induction false} MentionsInIff(name: string, groups: seq<Group>, g: string, strip: string -> string)
    requires NonEmpty(groups)
    ensures MentionsIn(name, groups, g, strip) != [] <==>
      exists j :: 0 <= j < |groups| && GroupName(groups[j], strip) == g && Cites(groups[j], name)
    ensures forall x :: x in MentionsIn(name, groups, g, strip) ==> x == name
    decreases |groups|
  {
    if groups != [] {
      MentionsInIff(name, groups[1..], g, strip);
      assert forall j :: 1 <= j < |groups| ==> groups[j] == groups[1..][j - 1];
    }
  }

  /** The list `g` gains something exactly when a dict named `g` cites one of the names. */
  lemma {:induction false} NamedInIff(names: seq<string>, groups: seq<Group>, g: string, strip: string -> string)
    requires NonEmpty(groups)
    ensures NamedIn(names, groups, g, strip) != [] <==>
      exists i, j :: 0 <= i < |names| && 0 <= j < |groups| && GroupName(groups[j], strip) == g && Cites(groups[j], strip(names[i]))
    ensures forall x :: x in NamedIn(names, groups, g, strip) ==> exists i :: 0 <= i < |names| && x == strip(names[i])
    decreases |names|
  {
    if names != [] {
      MentionsInIff(strip(names[0]), groups, g, strip);
      NamedInIff(names[1..], groups, g, strip);
      assert forall i :: 1 <= i < |names| ==> names[i] == names[1..][i - 1];
    }
  }

  /** The detail keys are exactly the dicts' first keys. */
  predicate FirstKeys(groups: seq<Group>, keys: seq<string>) {
    NonEmpty(groups)
    && (forall j :: 0 <= j < |groups| ==> groups[j][0].0 in keys)
    && (forall k :: k in keys ==> exists j :: 0 <= j < |groups| && groups[j][0].0 == k)
  }

  /** `g_sub_collection` once the three nested loops are done, for any normaliser. */
  function SubgroupsBy(groups: seq<Group>, keys: seq<string>, strip: string -> string): (sub: Lists)
    requires NonEmpty(groups) && forall j :: 0 <= j < |groups| ==> groups[j][0].0 in keys
  {
    CollectNames(EmptyLists(keys, strip), keys, groups, strip)
  }

  /** `g_sub_collection` once the three nested loops are done. */
  function Subgroups(groups: seq<Group>, keys: seq<string>): (sub: Lists)
    requires NonEmpty(groups) && forall j :: 0 <= j < |groups| ==> groups[j][0].0 in keys
  {
    SubgroupsBy(groups, keys, Strip)
  }

  /** Dict `j` cites dict `i`'s name. */
  predicate CitesGroup(groups: seq<Group>, j: int, i: int, strip: string -> string)
    requires NonEmpty(groups)
  {
    0 <= i < |groups| && 0 <= j < |groups| && Cites(groups[j], GroupName(groups[i], strip))
  }

  /** A cited detail key is some dict's name. */
  lemma CitedKeyIsGroup(groups: seq<Group>, keys: seq<string>, g: string, strip: string -> string)
    requires FirstKeys(groups, keys)
    requires exists i, j :: 0 <= i < |keys| && 0 <= j < |groups| && GroupName(groups[j], strip) == g && Cites(groups[j], strip(keys[i]))
    ensures exists i, j :: CitesGroup(groups, j, i, strip) && GroupName(groups[j], strip) == g
  {
    var i, j :| 0 <= i < |keys| && 0 <= j < |groups| && GroupName(groups[j], strip) == g && Cites(groups[j], strip(keys[i]));
    assert keys[i] in keys;
    var i' :| 0 <= i' < |groups| && groups[i'][0].0 == keys[i];
    assert CitesGroup(groups, j, i', strip);
  }

  /** A cited dict name is some detail key. */
  lemma CitedGroupIsKey(groups: seq<Group>, keys: seq<string>, g: string, strip: string -> string)
    requires FirstKeys(groups, keys)
    requires exists i, j :: CitesGroup(groups, j, i, strip) && GroupName(groups[j], strip) == g
    ensures exists i, j :: 0 <= i < |keys| && 0 <= j < |groups| && GroupName(groups[j], strip) == g && Cites(groups[j], strip(keys[i]))
  {
    var i, j :| CitesGroup(groups, j, i, strip) && GroupName(groups[j], strip) == g;
    assert groups[i][0].0 in keys;
    var i' :| 0 <= i' < |keys| && keys[i'] == groups[i][0].0;
    assert Cites(groups[j], strip(keys[i']));
  }

  /** Every listed name is some dict's name. */
  lemma ListedAreGroups(groups: seq<Group>, keys: seq<string>, g: string, strip: string -> string)
    requires FirstKeys(groups, keys)
    requires forall x :: x in NamedIn(keys, groups, g, strip) ==> exists i :: 0 <= i < |keys| && x == strip(keys[i])
    ensures forall x :: x in NamedIn(keys, groups, g, strip) ==> exists i :: 0 <= i < |groups| && x == GroupName(groups[i], strip)
  {
    forall x | x in NamedIn(keys, groups, g, strip) ensures exists i :: 0 <= i < |groups| && x == GroupName(groups[i], strip) {
      var i :| 0 <= i < |keys| && x == strip(keys[i]);
      assert keys[i] in keys;
      var i' :| 0 <= i' < |groups| && groups[i'][0].0 == keys[i];
      assert x == GroupName(groups[i'], strip);
    }
  }

  /** After the nested loops, a dict name's list is what the detail keys add to it. */
  lemma SubgroupIs(groups: seq<Group>, keys: seq<string>, g: string, strip: string -> string)
    requires FirstKeys(groups, keys)
    requires exists j :: 0 <= j < |groups| && GroupName(groups[j], strip) == g
    ensures g in SubgroupsBy(groups, keys, strip) && SubgroupsBy(groups, keys, strip)[g] == NamedIn(keys, groups, g, strip)
  {
    var e := EmptyLists(keys, strip);
    var j :| 0 <= j < |groups| && GroupName(groups[j], strip) == g;
    assert g in e;
    CollectNamesIs(e, keys, groups, g, strip);
  }

  /** What the detail keys add to list `g`: something exactly when a dict named `g` cites a dict name, and only dict names. */
  lemma NamedInMeaning(groups: seq<Group>, keys: seq<string>, g: string, strip: string -> string)
    requires FirstKeys(groups, keys)
    ensures NamedIn(keys, groups, g, strip) != [] <==> exists i, j :: CitesGroup(groups, j, i, strip) && GroupName(groups[j], strip) == g
    ensures forall x :: x in NamedIn(keys, groups, g, strip) ==> exists i :: 0 <= i < |groups| && x == GroupName(groups[i], strip)
  {
    NamedInIff(keys, groups, g, strip);
    if NamedIn(keys, groups, g, strip) != [] {
      CitedKeyIsGroup(groups, keys, g, strip);
    }
    if exists i, j :: CitesGroup(groups, j, i, strip) && GroupName(groups[j], strip) == g {
      CitedGroupIsKey(groups, keys, g, strip);
    }
    ListedAreGroups(groups, keys, g, strip);
  }

  /**
   * After the nested loops, the list of a dict's name is non-empty exactly when some
   * dict of that name has a token equal, ignoring case, to some dict's name; and it
   * holds only dict names.
   */
  lemma SubgroupIff(groups: seq<Group>, keys: seq<string>, g: string, strip: string -> string)
    requires FirstKeys(groups, keys)
    requires exists j :: 0 <= j < |groups| && GroupName(groups[j], strip) == g
    ensures g in SubgroupsBy(groups, keys, strip)
    ensures SubgroupsBy(groups, keys, strip)[g] != [] <==>
      exists i, j :: CitesGroup(groups, j, i, strip) && GroupName(groups[j], strip) == g
    ensures forall x :: x in SubgroupsBy(groups, keys, strip)[g] ==> exists i :: 0 <= i < |groups| && x == GroupName(groups[i], strip)
  {
    SubgroupIs(groups, keys, g, strip);
    NamedInMeaning(groups, keys, g, strip);
  }

  /** The innermost loop, appending to one list. */
  method MentionsLoop(acc: seq<string>, name: string, tokens: seq<string>) returns (r: seq<string>)
    ensures r == acc + Mentions(name, tokens)
  {
    r := acc;
    assert tokens[0..] == tokens;
    for k := 0 to |tokens|
      invariant r + Mentions(name, tokens[k..]) == acc + Mentions(name, tokens)
    {
      var here: seq<string> := if Lower(name) == Lower(tokens[k]) then [name] else [];
      MentionsStep(name, tokens, k);
      AppendAssoc(r, here, Mentions(name, tokens[k + 1..]));
      r := r + here;
    }
    assert tokens[|tokens|..] == [];
    assert r + [] == r;
  }

  lemma MentionsStep(name: string, tokens: seq<string>, k: int)
    requires 0 <= k < |tokens|
    ensures Mentions(name, tokens[k..])
      == (if Lower(name) == Lower(tokens[k]) then [name] else []) + Mentions(name, tokens[k + 1..])
  {
    assert tokens[k..][0] == tokens[k] && tokens[k..][1..] == tokens[k + 1..];
  }

  lemma AppendAssoc<T>(a: seq<T>, b: seq<T>, c: seq<T>)
    ensures a + (b + c) == (a + b) + c
  {
  }

  /** The middle loop, over the dicts. */
  method CollectGroupsLoop(sub: Lists, name: string, groups: seq<Group>, strip: string -> string) returns (r: Lists)
    requires Keyed(sub, groups, strip)
    ensures r == CollectGroups(sub, name, groups, strip)
  {
    r := sub;
    for j := 0 to |groups|
      invariant r.Keys == sub.Keys
      invariant CollectGroups(r, name, groups[j..], strip) == CollectGroups(sub, name, groups, strip)
    {
      assert groups[j..][1..] == groups[j + 1..];
      var g := GroupName(groups[j], strip);
      var list := MentionsLoop(r[g], name, groups[j][0].1);
      r := r[g := list];
    }
  }

  /** The three nested loops that fill `g_sub_collection`. */
  method CollectSubgroups(groups: seq<Group>, keys: seq<string>) returns (sub: Lists)
    requires NonEmpty(groups) && forall j :: 0 <= j < |groups| ==> groups[j][0].0 in keys
    ensures sub == Subgroups(groups, keys)
  {
    sub := CollectNamesLoop(EmptyLists(keys, Strip), keys, groups, Strip);
  }

  /** The outer loop, over the detail keys. */
  method CollectNamesLoop(sub0: Lists, keys: seq<string>, groups: seq<Group>, strip: string -> string) returns (sub: Lists)
    requires Keyed(sub0, groups, strip)
    ensures sub == CollectNames(sub0, keys, groups, strip)
  {
    sub := sub0;
    assert keys[0..] == keys;
    for i := 0 to |keys|
      invariant sub.Keys == sub0.Keys
      invariant CollectNames(sub, keys[i..], groups, strip) == CollectNames(sub0, keys, groups, strip)
    {
      assert keys[i..][0] == keys[i] && keys[i..][1..] == keys[i + 1..];
      sub := CollectGroupsLoop(sub, strip(keys[i]), groups, strip);
    }
    assert keys[|keys|..] == [];
  }

  /**
   * Every key of the dict has a list, and every token of a key whose list is empty has
   * a bond character: what the graph loop needs so as not to raise.
   */
  predicate Buildable(items: Group, sub: Lists) {
    forall i :: 0 <= i < |items| ==>
      items[i].0 in sub && (sub[items[i].0] == [] ==> forall k :: 0 <= k < |items[i].1| ==> Separator(items[i].1[k]).Some?)
  }

  /**
   * The dict's one graph after the loop over its keys: the tokens of each key whose list
   * is empty, in key order. A key with no list raises KeyError.
   */
  function GroupGraph(g: GraphValue<NodeKey>, items: Group, sub: Lists): (r: Result<GraphValue<NodeKey>>)
    ensures r.Ok? <==> Buildable(items, sub)
    decreases |items|
  {
    if items == [] then Ok(g)
    else
      var r :=
        if items[0].0 !in sub then Err("KeyError: " + items[0].0)
        else if sub[items[0].0] == [] then
          match AddTokens(g, items[0].1)
          case Err(e) => Err(e)
          case Ok(g1) => GroupGraph(g1, items[1..], sub)
        else GroupGraph(g, items[1..], sub);
      assert forall i :: 1 <= i < |items| ==> items[i] == items[1..][i - 1];
      r
  }

  /** The entries of one dict, once its graph is `final`: each key with its graph or its list. */
  function Entries(items: Group, sub: Lists, final: GraphValue<NodeKey>): (r: seq<(string, Custom)>)
    requires forall i :: 0 <= i < |items| ==> items[i].0 in sub
    ensures |r| == |items|
    ensures forall i :: 0 <= i < |items| ==>
      && r[i].0 == items[i].0
      && (r[i].1.GraphOf? <==> sub[items[i].0] == [])
      && (r[i].1.GraphOf? ==> r[i].1.graph == final)
      && (r[i].1.NameList? ==> r[i].1.names == sub[items[i].0])
    decreases |items|
  {
    if items == [] then []
    else
      var key := items[0].0;
      [(key, if sub[key] == [] then GraphOf(final) else NameList(sub[key]))] + Entries(items[1..], sub, final)
  }

  /**
   * One dict's entries: every key paired with its list when that is non-empty, and
   * otherwise with the dict's single graph in its final state, since every such entry
   * holds the same graph object.
   */
  function GroupEntries(items: Group, sub: Lists): (r: Result<seq<(string, Custom)>>)
    ensures r.Ok? <==> Buildable(items, sub)
  {
    match GroupGraph(Empty(), items, sub)
    case Err(e) => Err(e)
    case Ok(final) => Ok(Entries(items, sub, final))
  }

  /** The entries of all dicts in order; the first dict that raises decides the error. */
  function AllEntries(groups: seq<Group>, sub: Lists): (r: Result<seq<(string, Custom)>>)
    ensures r.Ok? <==> forall j :: 0 <= j < |groups| ==> Buildable(groups[j], sub)
    decreases |groups|
  {
    if groups == [] then Ok([])
    else
      var r :=
        match GroupEntries(groups[0], sub)
        case Err(e) => Err(e)
        case Ok(es) => Prefixed(es, AllEntries(groups[1..], sub));
      assert forall j :: 1 <= j < |groups| ==> groups[j] == groups[1..][j - 1];
      r
  }

  /** `r` with `xs` put in front of its entries. */
  function Prefixed<T>(xs: seq<T>, r: Result<seq<T>>): Result<seq<T>> {
    match r
    case Err(e) => Err(e)
    case Ok(ys) => Ok(xs + ys)
  }

  /** `create_custom_graph`: the detail keys, the subgroup lists, then the entries of every dict. */
  function CustomGraphs(groups: seq<Group>): (r: Result<seq<(string, Custom)>>)
    ensures !NonEmpty(groups) ==> r.Err?
  {
    match DetailKeys(groups, [])
    case Err(e) => Err(e)
    case Ok(keys) => AllEntries(groups, Subgroups(groups, keys))
  }

  /** The graph loop over one dict's keys, adding to the graph object `G`. */
  method AddGroup(G: Graph<NodeKey>, items: Group, sub: Lists) returns (err: Option<string>)
    requires G.Valid()
    modifies G
    ensures G.Valid()
    ensures err.None? <==> GroupGraph(old(G.Value()), items, sub).Ok?
    ensures err.None? ==> G.Value() == GroupGraph(old(G.Value()), items, sub).value
    ensures err.Some? ==> GroupGraph(old(G.Value()), items, sub) == Err(err.value)
  {
    for i := 0 to |items|
      invariant G.Valid()
      invariant GroupGraph(G.Value(), items[i..], sub) == GroupGraph(old(G.Value()), items, sub)
    {
      assert items[i..][1..] == items[i + 1..];
      var key := items[i].0;
      if key !in sub {
        return Some("KeyError: " + key);
      }
      if sub[key] == [] {
        err := AddBondTokens(G, items[i].1);
        if err.Some? {
          return;
        }
      }
    }
    assert items[|items|..] == [];
    err := None;
  }

  /** One dict's entries, built with its one graph object `G`. */
  method BuildGroup(items: Group, sub: Lists) returns (r: Result<seq<(string, Custom)>>)
    ensures r == GroupEntries(items, sub)
  {
    var G := new Graph<NodeKey>();
    var err := AddGroup(G, items, sub);
    if err.Some? {
      return Err(err.value);
    }
    r := Ok(Entries(items, sub, G.Value()));
  }

  /** One turn of the loop over the dicts, in terms of what is left to do. */
  lemma AllEntriesStep(groups: seq<Group>, sub: Lists, j: int, list: seq<(string, Custom)>)
    requires 0 <= j < |groups|
    ensures GroupEntries(groups[j], sub).Err? ==>
      Prefixed(list, AllEntries(groups[j..], sub)) == Err(GroupEntries(groups[j], sub).error)
    ensures GroupEntries(groups[j], sub).Ok? ==>
      Prefixed(list, AllEntries(groups[j..], sub)) == Prefixed(list + GroupEntries(groups[j], sub).value, AllEntries(groups[j + 1..], sub))
  {
    assert groups[j..][0] == groups[j] && groups[j..][1..] == groups[j + 1..];
    var rest := AllEntries(groups[j + 1..], sub);
    if GroupEntries(groups[j], sub).Ok? && rest.Ok? {
      var es := GroupEntries(groups[j], sub).value;
      assert list + (es + rest.value) == (list + es) + rest.value;
    }
  }

  /** The detail keys of dicts that all have a key are exactly their first keys. */
  lemma DetailKeysFirst(groups: seq<Group>)
    requires NonEmpty(groups)
    ensures DetailKeys(groups, []).Ok? && FirstKeys(groups, DetailKeys(groups, []).value)
  {
  }

  /** The loop over the dicts. */
  method BuildAll(groups: seq<Group>, sub: Lists) returns (r: Result<seq<(string, Custom)>>)
    ensures r == AllEntries(groups, sub)
  {
    var list: seq<(string, Custom)> := [];
    assert groups[0..] == groups;
    assert Prefixed(list, AllEntries(groups, sub)) == AllEntries(groups, sub) by {
      if AllEntries(groups, sub).Ok? {
        assert list + AllEntries(groups, sub).value == AllEntries(groups, sub).value;
      }
    }
    for j := 0 to |groups|
      invariant AllEntries(groups, sub) == Prefixed(list, AllEntries(groups[j..], sub))
    {
      AllEntriesStep(groups, sub, j, list);
      var es := BuildGroup(groups[j], sub);
      if es.Err? {
        return Err(es.error);
      }
      list := list + es.value;
    }
    assert groups[|groups|..] == [];
    assert list + [] == list;
    r := Ok(list);
  }

  /** `create_custom_graph`. */
  method CreateCustomGraph(groups: seq<Group>) returns (r: Result<seq<(string, Custom)>>)
    ensures r == CustomGraphs(groups)
  {
    var details := DetailKeys(groups, []);
    if details.Err? {
      return Err(details.error);
    }
    DetailKeysFirst(groups);
    var sub := CollectSubgroups(groups, details.value);
    r := BuildAll(groups, sub);
  }

  /** The subgroup lists are keyed by exactly the stripped detail keys. */
  lemma SubgroupsKeys(groups: seq<Group>, keys: seq<string>, n: string, strip: string -> string)
    requires NonEmpty(groups) && forall j :: 0 <= j < |groups| ==> groups[j][0].0 in keys
    ensures n in SubgroupsBy(groups, keys, strip) <==> exists k :: k in keys && n == strip(k)
  {
  }

  /** A single dict's subgroup lists: only its name has one, non-empty exactly when the dict cites its own name. */
  lemma SingleDictLists(fg: Group, strip: string -> string)
    requires fg != []
    ensures var n := GroupName(fg, strip);
      (forall x :: x in SubgroupsBy([fg], [fg[0].0], strip) <==> x == n)
      && (SubgroupsBy([fg], [fg[0].0], strip)[n] != [] <==> Cites(fg, n))
  {
    var n := GroupName(fg, strip);
    assert [fg][0] == fg;
    assert FirstKeys([fg], [fg[0].0]);
    SubgroupIff([fg], [fg[0].0], n, strip);
    forall x ensures x in SubgroupsBy([fg], [fg[0].0], strip) <==> x == n {
      SubgroupsKeys([fg], [fg[0].0], x, strip);
    }
    if Cites(fg, n) {
      assert CitesGroup([fg], 0, 0, strip);
    }
  }

  /** A single key whose list is empty adds exactly its tokens. */
  lemma OneUnlistedKey(g: GraphValue<NodeKey>, key: string, bonds: seq<string>, sub: Lists)
    requires key in sub && sub[key] == []
    ensures GroupGraph(g, [(key, bonds)], sub) == AddTokens(g, bonds)
  {
    assert [(key, bonds)][1..] == [];
  }

  /** Keys whose lists are all non-empty add nothing to the graph. */
  lemma {:induction false} ListedKeysAddNothing(g: GraphValue<NodeKey>, items: Group, sub: Lists)
    requires forall i :: 0 <= i < |items| ==> items[i].0 in sub && sub[items[i].0] != []
    ensures GroupGraph(g, items, sub) == Ok(g)
    decreases |items|
  {
    if items != [] {
      ListedKeysAddNothing(g, items[1..], sub);
    }
  }

  /** The keys of some `(key, value)` pairs, in order. */
  function KeysOf<V>(items: seq<(string, V)>): (r: seq<string>)
    ensures |r| == |items| && forall i :: 0 <= i < |items| ==> r[i] == items[i].0
  {
    seq(|items|, i requires 0 <= i < |items| => items[i].0)
  }

  /** The keys of all dicts, dict after dict. */
  function ItemKeys(groups: seq<Group>): seq<string>
    decreases |groups|
  {
    if groups == [] then [] else KeysOf(groups[0]) + ItemKeys(groups[1..])
  }

  /** A dict's entries have its keys. */
  lemma KeysOfEntries(items: Group, sub: Lists, final: GraphValue<NodeKey>)
    requires forall i :: 0 <= i < |items| ==> items[i].0 in sub
    ensures KeysOf(Entries(items, sub, final)) == KeysOf(items)
  {
    var es := Entries(items, sub, final);
    assert forall i :: 0 <= i < |items| ==> KeysOf(es)[i] == es[i].0 == items[i].0;
  }

  lemma KeysOfAppend<V>(a: seq<(string, V)>, b: seq<(string, V)>)
    ensures KeysOf(a + b) == KeysOf(a) + KeysOf(b)
  {
    assert forall i :: 0 <= i < |a + b| ==> KeysOf(a + b)[i] == (KeysOf(a) + KeysOf(b))[i];
  }

  /** The output has one entry per key of every dict, in input order. */
  lemma {:induction false} OneEntryPerKey(groups: seq<Group>, sub: Lists)
    requires AllEntries(groups, sub).Ok?
    ensures KeysOf(AllEntries(groups, sub).value) == ItemKeys(groups)
    decreases |groups|
  {
    if groups != [] {
      var ge := GroupEntries(groups[0], sub);
      var ra := AllEntries(groups[1..], sub);
      assert ge.Ok? && ra.Ok? && AllEntries(groups, sub).value == ge.value + ra.value;
      OneEntryPerKey(groups[1..], sub);
      var final := GroupGraph(Empty(), groups[0], sub).value;
      assert ge.value == Entries(groups[0], sub, final);
      KeysOfEntries(groups[0], sub, final);
      KeysOfAppend(ge.value, ra.value);
    }
  }

  /** Each output entry is entry `i` of dict `j`'s entries. */
  lemma {:induction false} EntryOrigin(groups: seq<Group>, sub: Lists, e: (string, Custom))
    requires AllEntries(groups, sub).Ok? && e in AllEntries(groups, sub).value
    ensures exists j, i ::
      0 <= j < |groups| && GroupEntries(groups[j], sub).Ok? && 0 <= i < |groups[j]| && e == GroupEntries(groups[j], sub).value[i]
    decreases |groups|
  {
    var es := GroupEntries(groups[0], sub).value;
    var rest := AllEntries(groups[1..], sub).value;
    if e in es {
      var i :| 0 <= i < |es| && es[i] == e;
    } else {
      assert e in rest;
      EntryOrigin(groups[1..], sub, e);
      var j, i :| 0 <= j < |groups[1..]| && GroupEntries(groups[1..][j], sub).Ok? && 0 <= i < |groups[1..][j]|
        && e == GroupEntries(groups[1..][j], sub).value[i];
      assert groups[1..][j] == groups[j + 1];
    }
  }

  /** The entries of one dict that hold a graph all hold the same one: the dict's graph after the loop. */
  lemma SharedGraph(items: Group, sub: Lists, a: int, b: int)
    requires GroupEntries(items, sub).Ok?
    requires 0 <= a < |items| && 0 <= b < |items|
    requires GroupEntries(items, sub).value[a].1.GraphOf? && GroupEntries(items, sub).value[b].1.GraphOf?
    ensures GroupEntries(items, sub).value[a].1 == GroupEntries(items, sub).value[b].1
    ensures GroupEntries(items, sub).value[a].1.graph == GroupGraph(Empty(), items, sub).value
  {
  }

  /** `create_custom_graph` pairs every key of every dict with something, in input order. */
  lemma CustomGraphsKeys(groups: seq<Group>)
    requires CustomGraphs(groups).Ok?
    ensures KeysOf(CustomGraphs(groups).value) == ItemKeys(groups)
  {
    var keys := DetailKeys(groups, []).value;
    OneEntryPerKey(groups, Subgroups(groups, keys));
  }

  /** Every subgroup list belongs to some dict's name. */
  lemma ListIsGroups(groups: seq<Group>, keys: seq<string>, n: string)
    requires FirstKeys(groups, keys) && n in Subgroups(groups, keys)
    ensures exists j :: 0 <= j < |groups| && n == GroupName(groups[j], Strip)
  {
    assert n in EmptyLists(keys, Strip);
    var k :| k in keys && n == Strip(k);
    var j :| 0 <= j < |groups| && groups[j][0].0 == k;
    assert n == GroupName(groups[j], Strip);
  }

  /** An output entry is some dict's entry: its key has a list, and it is that list or a graph. */
  lemma EntryFromList(groups: seq<Group>, sub: Lists, e: (string, Custom))
    requires AllEntries(groups, sub).Ok? && e in AllEntries(groups, sub).value
    ensures e.0 in sub && (e.1.NameList? <==> sub[e.0] != []) && (e.1.NameList? ==> e.1.names == sub[e.0])
  {
    EntryOrigin(groups, sub, e);
    var j, i :| 0 <= j < |groups| && GroupEntries(groups[j], sub).Ok? && 0 <= i < |groups[j]|
      && e == GroupEntries(groups[j], sub).value[i];
  }

  /**
   * What an output entry means: its key is some dict's (stripped) name, and it is a list
   * of names exactly when a dict of that name has a token equal, ignoring case, to some
   * dict's name; that list is then non-empty and holds only dict names.
   */
  lemma EntryMeaning(groups: seq<Group>, e: (string, Custom))
    requires CustomGraphs(groups).Ok? && e in CustomGraphs(groups).value
    ensures exists j :: 0 <= j < |groups| && e.0 == GroupName(groups[j], Strip)
    ensures e.1.NameList? <==> exists i, j :: CitesGroup(groups, j, i, Strip) && GroupName(groups[j], Strip) == e.0
    ensures e.1.NameList? ==> e.1.names != [] && forall x :: x in e.1.names ==> exists i :: 0 <= i < |groups| && x == GroupName(groups[i], Strip)
  {
    var keys := DetailKeys(groups, []).value;
    DetailKeysFirst(groups);
    EntryIsListed(groups, keys, e);
    SubgroupIff(groups, keys, e.0, Strip);
  }

  /** An output entry's key is a dict name with a list, and the entry is that list or a graph. */
  lemma EntryIsListed(groups: seq<Group>, keys: seq<string>, e: (string, Custom))
    requires FirstKeys(groups, keys)
    requires AllEntries(groups, Subgroups(groups, keys)).Ok? && e in AllEntries(groups, Subgroups(groups, keys)).value
    ensures exists j :: 0 <= j < |groups| && e.0 == GroupName(groups[j], Strip)
    ensures var sub := Subgroups(groups, keys);
      e.0 in sub && (e.1.NameList? <==> sub[e.0] != []) && (e.1.NameList? ==> e.1.names == sub[e.0])
  {
    EntryFromList(groups, Subgroups(groups, keys), e);
    ListIsGroups(groups, keys, e.0);
  }

  /** `list_functional_groups`: each pair as a dict of its own, in order. */
  method ListFunctionalGroups<V>(pairs: seq<(string, V)>) returns (r: seq<map<string, V>>)
    ensures |r| == |pairs|
    ensures forall i :: 0 <= i < |pairs| ==> r[i].Keys == {pairs[i].0} && r[i][pairs[i].0] == pairs[i].1
  {
    r := [];
    for i := 0 to |pairs|
      invariant |r| == i
      invariant forall k :: 0 <= k < i ==> r[k].Keys == {pairs[k].0} && r[k][pairs[k].0] == pairs[k].1
    {
      r := r + [map[pairs[i].0 := pairs[i].1]];
    }
  }
}
