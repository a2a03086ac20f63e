/**
 * The request walk of pyMolinfo's `check_functional_group` and `count_functional_group`:
 * the request list mixes library group names and `CustomChemGraph` objects; every known
 * name and every custom dict yields one report entry, in request order, unknown names are
 * skipped, and custom graphs are registered on the way. Also the running-count search of
 * `search_within_main_graph` and the group/subgroup split of a two-graph custom group.
 */
module GroupRequests {
  import opened Wrappers
  import opened NxGraph
  import opened PatternGraphs
  import opened SubgraphMatch
  import opened FunctionalGroups
  import CustomChemGraph

  type Custom = CustomChemGraph.Custom

  /**
   * An item of the request list: a group name, or a `CustomChemGraph` whose
   * `custom_functional_groups` are the one-key dicts `{key: value}` listed in `entries`.
   */
  datatype Request = Named(name: string) | CustomSet(entries: seq<(string, Custom)>)

  /** One step of the walk: a group name, or one custom dict. */
  datatype Unit = LibName(name: string) | CustomEntry(key: string, value: Custom)

  function EntryUnits(entries: seq<(string, Custom)>): (r: seq<Unit>)
    ensures |r| == |entries| && forall k :: 0 <= k < |entries| ==> r[k] == CustomEntry(entries[k].0, entries[k].1)
  {
    seq(|entries|, k requires 0 <= k < |entries| => CustomEntry(entries[k].0, entries[k].1))
  }

  function UnitsOf(item: Request): seq<Unit> {
    match item
    case Named(n) => [LibName(n)]
    case CustomSet(es) => EntryUnits(es)
  }

  /** The steps of a request list, item after item, dict after dict. */
  function Units(items: seq<Request>): seq<Unit>
    decreases |items|
  {
    if items == [] then [] else UnitsOf(items[0]) + Units(items[1..])
  }

  lemma UnitsStep(items: seq<Request>, i: int)
    requires 0 <= i < |items|
    ensures Units(items[i..]) == UnitsOf(items[i]) + Units(items[i + 1..])
  {
    assert items[i..][0] == items[i] && items[i..][1..] == items[i + 1..];
  }

  /** The requests for a list of group names. */
  function Requests(names: seq<string>): (r: seq<Request>)
    ensures |r| == |names| && forall k :: 0 <= k < |names| ==> r[k] == Named(names[k])
  {
    seq(|names|, k requires 0 <= k < |names| => Named(names[k]))
  }

  /**
   * A report entry: `{'function_group', 'result'}` from the presence check, or
   * `{'function_group', 'result', 'count'}` from the count.
   */
  datatype Entry = Found(group: string, result: bool) | Counted(group: string, result: bool, count: int)

  /** `[x['function_group'] for x in res_match]`. */
  function Groups(es: seq<Entry>): (r: seq<string>)
    ensures |r| == |es| && forall k :: 0 <= k < |es| ==> r[k] == es[k].group
  {
    seq(|es|, k requires 0 <= k < |es| => es[k].group)
  }

  // ---------------------------------------------------------------- custom registry

  /** `custom_functional_groups` and `custom_functional_group_list`. */
  datatype Registry = Registry(names: seq<string>, lists: map<string, seq<Custom>>)

  /** Names are registered once, and exactly the registered names have a list. */
  ghost predicate RegistryValid(reg: Registry) {
    (forall i, j :: 0 <= i < j < |reg.names| ==> reg.names[i] != reg.names[j])
    && (forall k :: k in reg.lists <==> k in reg.names)
  }

  /** `update_custom_functional_group(key, value)`: a new key gets the list `[value]`. */
  function Register(reg: Registry, key: string, value: Custom): (r: Registry)
    ensures key in r.names && (key !in reg.names ==> key in r.lists)
    ensures |reg.names| <= |r.names| && r.names[..|reg.names|] == reg.names
  {
    if key in reg.names then reg
    else
      assert (reg.names + [key])[..|reg.names|] == reg.names;
      Registry(reg.names + [key], reg.lists[key := [value]])
  }

  /** Registering keeps the registry valid, and a key keeps the first value it was given. */
  lemma RegisterValid(reg: Registry, key: string, value: Custom)
    requires RegistryValid(reg)
    ensures RegistryValid(Register(reg, key, value))
    ensures key !in reg.names ==> Register(reg, key, value).lists[key] == [value]
    ensures key in reg.names ==> Register(reg, key, value).lists[key] == reg.lists[key]
  {
  }

  /** Registering the same key again changes nothing. */
  lemma RegisterIdempotent(reg: Registry, key: string, v1: Custom, v2: Custom)
    ensures Register(Register(reg, key, v1), key, v2) == Register(reg, key, v1)
  {
  }

  // ---------------------------------------------------------------- the walk

  datatype Mode = Checking | Counting

  /** The graphs a step matches: the library variants of a known name, or the custom graph. */
  function Variants(lib: Library, u: Unit): seq<Target> {
    match u
    case LibName(n) => if Lookup(lib, n).Some? then Graphs(Lookup(lib, n).value) else []
    case CustomEntry(_, v) => if v.GraphOf? then [v.graph] else []
  }

  /** The name a step reports under. */
  function UnitName(u: Unit): string {
    match u
    case LibName(n) => n
    case CustomEntry(k, _) => k
  }

  /** The count-side error: the matcher is handed a list of names instead of a graph. */
  const NotAGraph := "GraphMatcher: pattern is not a graph"

  /**
   * What one step contributes: nothing for an unknown name, an entry, or the exception
   * raised for a list-valued custom dict.
   */
  function Evaluate(mode: Mode, G: Target, lib: Library, nodeOk: NodeTest, u: Unit): (r: Option<Result<Entry>>)
    ensures r.None? <==> u.LibName? && Lookup(lib, u.name).None?
    ensures r.Some? && r.value.Err? <==> u.CustomEntry? && u.value.NameList?
    ensures r.Some? && r.value.Ok? ==> r.value.value.group == UnitName(u) && (r.value.value.Counted? <==> mode.Counting?)
  {
    if u.LibName? && Lookup(lib, u.name).None? then None
    else if u.CustomEntry? && u.value.NameList? then
      if mode == Counting then Some(Err(NotAGraph))
      else if |u.value.names| != 2 then Some(Err("custom functional group must have 2 elements"))
      else Some(Err("AttributeError: 'str' object has no attribute 'nodes'"))
    else
      var vs := Variants(lib, u);
      if mode == Checking then Some(Ok(Found(UnitName(u), Present(G, vs, nodeOk))))
      else
        var c := |Footprints(G, vs, nodeOk)|;
        Some(Ok(Counted(UnitName(u), c > 0, c)))
  }

  /** A step's evaluation, as the walk sees it. */
  type Eval = Unit -> Option<Result<Entry>>

  function EvalOf(mode: Mode, G: Target, lib: Library, nodeOk: NodeTest): Eval {
    u => Evaluate(mode, G, lib, nodeOk, u)
  }

  /**
   * A custom dict is registered before it is matched; the presence check registers only
   * graph values, the count every value.
   */
  predicate Registers(mode: Mode, u: Unit) {
    u.CustomEntry? && (u.value.GraphOf? || mode == Counting)
  }

  function After(mode: Mode, u: Unit, reg: Registry): Registry {
    if Registers(mode, u) then Register(reg, u.key, u.value) else reg
  }

  /** The report, or the exception that ends the walk, with the registry at that point. */
  datatype Run = Run(out: Result<seq<Entry>>, reg: Registry)

  function RunUnits(mode: Mode, eval: Eval, units: seq<Unit>, reg: Registry): (r: Run)
    ensures r.out.Ok? ==> |r.out.value| <= |units|
    ensures units == [] ==> r == Run(Ok([]), reg)
    decreases |units|
  {
    if units == [] then Run(Ok([]), reg)
    else
      var reg1 := After(mode, units[0], reg);
      match eval(units[0])
      case None => RunUnits(mode, eval, units[1..], reg1)
      case Some(Err(e)) => Run(Err(e), reg1)
      case Some(Ok(x)) => Then([x], RunUnits(mode, eval, units[1..], reg1))
  }

  /** `list` put in front of the run's entries. */
  function Then(list: seq<Entry>, run: Run): Run {
    Run(CustomChemGraph.Prefixed(list, run.out), run.reg)
  }

  /** The walk before any step, and once every step is done. */
  lemma ThenEnds(mode: Mode, eval: Eval, list: seq<Entry>, run: Run, reg: Registry)
    ensures Then([], run) == run
    ensures Then(list, RunUnits(mode, eval, [], reg)) == Run(Ok(list), reg)
  {
    if run.out.Ok? {
      assert [] + run.out.value == run.out.value;
    }
    assert list + [] == list;
  }

  /** One step of the walk, as the loops see it. */
  lemma RunStep(mode: Mode, eval: Eval, units: seq<Unit>, j: int, list: seq<Entry>, reg: Registry)
    requires 0 <= j < |units|
    ensures var reg1 := After(mode, units[j], reg);
      Then(list, RunUnits(mode, eval, units[j..], reg)) ==
        match eval(units[j])
        case None => Then(list, RunUnits(mode, eval, units[j + 1..], reg1))
        case Some(Err(e)) => Run(Err(e), reg1)
        case Some(Ok(x)) => Then(list + [x], RunUnits(mode, eval, units[j + 1..], reg1))
  {
    assert units[j..][0] == units[j] && units[j..][1..] == units[j + 1..];
    var rest := RunUnits(mode, eval, units[j + 1..], After(mode, units[j], reg));
    if rest.out.Ok? {
      var v := eval(units[j]);
      if v.Some? && v.value.Ok? {
        assert list + ([v.value.value] + rest.out.value) == (list + [v.value.value]) + rest.out.value;
      }
    }
  }

  // ---------------------------------------------------------------- what the walk reports

  /** The entries of all steps, errors ignored: the reference for a walk that does not raise. */
  function Outputs(eval: Eval, units: seq<Unit>): seq<Entry>
    decreases |units|
  {
    if units == [] then [] else Here(eval, units[0]) + Outputs(eval, units[1..])
  }

  /** The entry of one step, if it yields one. */
  function Here(eval: Eval, u: Unit): seq<Entry> {
    var v := eval(u);
    if v.Some? && v.value.Ok? then [v.value.value] else []
  }

  /** Some step raises. */
  predicate Raises(eval: Eval, units: seq<Unit>) {
    exists k :: 0 <= k < |units| && eval(units[k]).Some? && eval(units[k]).value.Err?
  }

  /** The walk succeeds exactly when no step raises, and then reports every step's entry in order. */
  lemma {:induction false} RunOutputs(mode: Mode, eval: Eval, units: seq<Unit>, reg: Registry)
    ensures var run := RunUnits(mode, eval, units, reg);
      (run.out.Ok? <==> !Raises(eval, units))
      && (run.out.Ok? ==> run.out.value == Outputs(eval, units))
    decreases |units|
  {
    if units != [] {
      RunOutputs(mode, eval, units[1..], After(mode, units[0], reg));
      forall k | 1 <= k < |units| ensures units[k] == units[1..][k - 1] {
      }
      if Raises(eval, units[1..]) {
        var k :| 0 <= k < |units[1..]| && eval(units[1..][k]).Some? && eval(units[1..][k]).value.Err?;
        assert units[k + 1] == units[1..][k];
      }
    }
  }

  /** An entry is reported exactly when some step produces it. */
  lemma {:induction false} OutputsMember(eval: Eval, units: seq<Unit>, e: Entry)
    ensures e in Outputs(eval, units) <==> exists k :: 0 <= k < |units| && eval(units[k]) == Some(Ok(e))
    decreases |units|
  {
    if units != [] {
      OutputsMember(eval, units[1..], e);
      if e in Outputs(eval, units[1..]) {
        var k :| 0 <= k < |units[1..]| && eval(units[1..][k]) == Some(Ok(e));
        assert units[k + 1] == units[1..][k];
      }
      if exists k :: 0 <= k < |units| && eval(units[k]) == Some(Ok(e)) {
        var k :| 0 <= k < |units| && eval(units[k]) == Some(Ok(e));
        if k > 0 {
          assert units[1..][k - 1] == units[k];
        }
      }
    }
  }

  /**
   * What an entry means. It is reported under the step's name; its result says that some
   * graph of the step (a variant of the library group, or the custom graph) embeds in the
   * target; a count is the number of distinct target-atom sets such embeddings cover.
   */
  lemma EntryMeaning(mode: Mode, G: Target, lib: Library, nodeOk: NodeTest, u: Unit, e: Entry)
    requires Evaluate(mode, G, lib, nodeOk, u) == Some(Ok(e))
    requires u.CustomEntry? ==> u.value.GraphOf? && u.value.graph.Valid()
    ensures e.group == UnitName(u)
    ensures e.result <==> exists k, m :: 0 <= k < |Variants(lib, u)| && IsEmbedding(G, Variants(lib, u)[k], nodeOk, m)
    ensures e.Counted? ==> mode == Counting && e.count == |Footprints(G, Variants(lib, u), nodeOk)|
    ensures forall s :: s in Footprints(G, Variants(lib, u), nodeOk) <==>
      exists k, m :: 0 <= k < |Variants(lib, u)| && IsEmbedding(G, Variants(lib, u)[k], nodeOk, m) && m.Keys == s
  {
    var vs := Variants(lib, u);
    PresentIff(G, vs, nodeOk);
    CountedIffPresent(G, vs, nodeOk);
    forall s ensures s in Footprints(G, vs, nodeOk) <==>
      exists k, m :: 0 <= k < |vs| && IsEmbedding(G, vs[k], nodeOk, m) && m.Keys == s
    {
      FootprintsIff(G, vs, nodeOk, s);
    }
  }

  /** The group names among `names` that the library knows, in order. */
  function Known(lib: Library, names: seq<string>): (r: seq<string>)
    ensures forall n :: n in r <==> n in names && n in Keys(lib)
    decreases |names|
  {
    if names == [] then []
    else (if Lookup(lib, names[0]).Some? then [names[0]] else []) + Known(lib, names[1..])
  }

  /** The steps of a request of plain names. */
  function NameUnits(names: seq<string>): (r: seq<Unit>)
    ensures |r| == |names| && forall k :: 0 <= k < |names| ==> r[k] == LibName(names[k])
  {
    seq(|names|, k requires 0 <= k < |names| => LibName(names[k]))
  }

  lemma {:induction false} UnitsOfNames(names: seq<string>)
    ensures Units(Requests(names)) == NameUnits(names)
    decreases |names|
  {
    if names != [] {
      assert Requests(names)[1..] == Requests(names[1..]);
      UnitsOfNames(names[1..]);
      assert NameUnits(names) == [LibName(names[0])] + NameUnits(names[1..]);
    }
  }

  /** A name is reported under itself exactly when the library knows it. */
  ghost predicate ReportsKnown(lib: Library, eval: Eval) {
    forall n :: Groups(Here(eval, LibName(n))) == if Lookup(lib, n).Some? then [n] else []
  }

  lemma EvalReportsKnown(mode: Mode, G: Target, lib: Library, nodeOk: NodeTest)
    ensures ReportsKnown(lib, EvalOf(mode, G, lib, nodeOk))
  {
  }

  lemma {:induction false} NameOutputs(lib: Library, eval: Eval, names: seq<string>)
    requires ReportsKnown(lib, eval)
    ensures Groups(Outputs(eval, NameUnits(names))) == Known(lib, names)
    decreases |names|
  {
    if names != [] {
      NameOutputsCons(eval, names);
      NameOutputs(lib, eval, names[1..]);
      GroupsAppend(Here(eval, LibName(names[0])), Outputs(eval, NameUnits(names[1..])));
    }
  }

  lemma NameOutputsCons(eval: Eval, names: seq<string>)
    requires names != []
    ensures Outputs(eval, NameUnits(names)) == Here(eval, LibName(names[0])) + Outputs(eval, NameUnits(names[1..]))
  {
    var units := NameUnits(names);
    assert units[0] == LibName(names[0]) && units[1..] == NameUnits(names[1..]);
  }

  lemma GroupsAppend(a: seq<Entry>, b: seq<Entry>)
    ensures Groups(a + b) == Groups(a) + Groups(b)
  {
  }

  /**
   * A request of plain names yields one entry per known name, in request order; unknown
   * names are skipped.
   */
  lemma NamedOutputs(mode: Mode, G: Target, lib: Library, nodeOk: NodeTest, names: seq<string>)
    ensures Groups(Outputs(EvalOf(mode, G, lib, nodeOk), Units(Requests(names)))) == Known(lib, names)
  {
    UnitsOfNames(names);
    EvalReportsKnown(mode, G, lib, nodeOk);
    NameOutputs(lib, EvalOf(mode, G, lib, nodeOk), names);
  }

  /** A request of plain names never raises: an unknown name is skipped, a known one reported. */
  lemma NamesNeverRaise(mode: Mode, G: Target, lib: Library, nodeOk: NodeTest, names: seq<string>)
    ensures !Raises(EvalOf(mode, G, lib, nodeOk), Units(Requests(names)))
  {
    UnitsOfNames(names);
  }

  /** With no names given, every library group is reported, in library order. */
  lemma AllGroupsReported(mode: Mode, G: Target, lib: Library, nodeOk: NodeTest)
    ensures Groups(Outputs(EvalOf(mode, G, lib, nodeOk), Units(Requests(Keys(lib))))) == Keys(lib)
  {
    NamedOutputs(mode, G, lib, nodeOk, Keys(lib));
    KnownAll(lib, Keys(lib));
  }

  lemma {:induction false} KnownAll(lib: Library, names: seq<string>)
    requires forall n :: n in names ==> n in Keys(lib)
    ensures Known(lib, names) == names
    decreases |names|
  {
    if names != [] {
      assert names[0] in names;
      KnownAll(lib, names[1..]);
    }
  }

  /** `b` starts with `a`. */
  predicate Extends(a: seq<string>, b: seq<string>) {
    |a| <= |b| && b[..|a|] == a
  }

  lemma ExtendsTrans(a: seq<string>, b: seq<string>, c: seq<string>)
    requires Extends(a, b) && Extends(b, c)
    ensures Extends(a, c)
  {
    assert c[..|b|][..|a|] == c[..|a|];
  }

  lemma AfterValid(mode: Mode, u: Unit, reg: Registry)
    requires RegistryValid(reg)
    ensures RegistryValid(After(mode, u, reg)) && Extends(reg.names, After(mode, u, reg).names)
    ensures Registers(mode, u) ==> u.key in After(mode, u, reg).names
  {
    if Registers(mode, u) {
      RegisterValid(reg, u.key, u.value);
    }
  }

  /** The registry stays valid and only grows, whether or not the walk raises. */
  lemma {:induction false} RunRegistry(mode: Mode, eval: Eval, units: seq<Unit>, reg: Registry)
    requires RegistryValid(reg)
    ensures RegistryValid(RunUnits(mode, eval, units, reg).reg)
    ensures Extends(reg.names, RunUnits(mode, eval, units, reg).reg.names)
    decreases |units|
  {
    if units != [] {
      var reg1 := After(mode, units[0], reg);
      AfterValid(mode, units[0], reg);
      RunRegistry(mode, eval, units[1..], reg1);
      var final := RunUnits(mode, eval, units, reg).reg;
      assert final == reg1 || final == RunUnits(mode, eval, units[1..], reg1).reg;
      if final != reg1 {
        ExtendsTrans(reg.names, reg1.names, final.names);
      }
    }
  }

  /** A custom dict that is not registered makes its step raise. */
  ghost predicate RaisesUnregistered(mode: Mode, eval: Eval) {
    forall u: Unit :: u.CustomEntry? && !Registers(mode, u) ==> eval(u).Some? && eval(u).value.Err?
  }

  lemma EvalRaisesUnregistered(mode: Mode, G: Target, lib: Library, nodeOk: NodeTest)
    ensures RaisesUnregistered(mode, EvalOf(mode, G, lib, nodeOk))
  {
  }

  /** After a walk that does not raise, the registry holds every custom key of the request. */
  lemma {:induction false} RunRegistersAll(mode: Mode, eval: Eval, units: seq<Unit>, reg: Registry)
    requires RegistryValid(reg) && RaisesUnregistered(mode, eval)
    requires RunUnits(mode, eval, units, reg).out.Ok?
    ensures forall k :: 0 <= k < |units| && units[k].CustomEntry? ==> units[k].key in RunUnits(mode, eval, units, reg).reg.names
    decreases |units|
  {
    if units != [] {
      var reg1 := After(mode, units[0], reg);
      AfterValid(mode, units[0], reg);
      RunRegistersAll(mode, eval, units[1..], reg1);
      RunRegistry(mode, eval, units[1..], reg1);
      var final := RunUnits(mode, eval, units, reg).reg;
      assert final == RunUnits(mode, eval, units[1..], reg1).reg;
      forall k | 0 <= k < |units| && units[k].CustomEntry? ensures units[k].key in final.names {
        if k == 0 {
          assert Registers(mode, units[0]);
          assert final.names[..|reg1.names|] == reg1.names;
          assert units[0].key in final.names[..|reg1.names|];
        } else {
          assert units[1..][k - 1] == units[k];
        }
      }
    }
  }

  // ---------------------------------------------------------------- search

  /** One match found by `search_within_main_graph`: the pattern, the running count, the mapping. */
  datatype Hit = Hit(pattern: Target, count: int, mapping: map<NodeKey, NodeKey>)

  /** The hits of one pattern's mappings, counted on from `n`. */
  function Block(p: Target, n: int, ms: seq<map<NodeKey, NodeKey>>): (r: seq<Hit>)
    ensures |r| == |ms| && forall i :: 0 <= i < |ms| ==> r[i] == Hit(p, n + i + 1, ms[i])
  {
    seq(|ms|, i requires 0 <= i < |ms| => Hit(p, n + i + 1, ms[i]))
  }

  /** `subgraph_isomorphisms_iter()` against a fixed target, as the search loop calls it. */
  type Matcher = Target -> seq<map<NodeKey, NodeKey>>

  function MatcherOf(G: Target, nodeOk: NodeTest): Matcher {
    p => Embeddings(G, p, nodeOk)
  }

  /** The hits of the variants `vs`, the running count starting after `n`. */
  function Hits(emb: Matcher, vs: seq<Target>, n: int): (r: seq<Hit>)
    ensures forall i :: 0 <= i < |r| ==> r[i].count == n + i + 1
    decreases |vs|
  {
    if vs == [] then [] else Block(vs[0], n, emb(vs[0])) + Hits(emb, vs[1..], n + |emb(vs[0])|)
  }

  /**
   * The count is a running count over all variants, not de-duplicated: the `i`-th hit
   * carries `n + i + 1` and one of the mappings the matcher gives for its pattern.
   */
  lemma {:induction false} HitsFrom(emb: Matcher, vs: seq<Target>, n: int)
    ensures forall i :: 0 <= i < |Hits(emb, vs, n)| ==>
      && Hits(emb, vs, n)[i].count == n + i + 1
      && Hits(emb, vs, n)[i].pattern in vs
      && Hits(emb, vs, n)[i].mapping in emb(Hits(emb, vs, n)[i].pattern)
    decreases |vs|
  {
    if vs != [] {
      var ms := emb(vs[0]);
      HitsFrom(emb, vs[1..], n + |ms|);
      var hs := Hits(emb, vs, n);
      var block := Block(vs[0], n, ms);
      var rest := Hits(emb, vs[1..], n + |ms|);
      assert hs == block + rest;
      forall i | 0 <= i < |hs|
        ensures hs[i].count == n + i + 1 && hs[i].pattern in vs && hs[i].mapping in emb(hs[i].pattern)
      {
        if i < |ms| {
          assert hs[i] == block[i];
        } else {
          assert hs[i] == rest[i - |ms|];
          assert rest[i - |ms|].pattern in vs[1..];
        }
      }
    }
  }

  /** Every mapping the matcher gives for every variant is reported as a hit. */
  lemma {:induction false} HitsCover(emb: Matcher, vs: seq<Target>, n: int, k: int, m: map<NodeKey, NodeKey>)
    requires 0 <= k < |vs| && m in emb(vs[k])
    ensures exists h :: h in Hits(emb, vs, n) && h.pattern == vs[k] && h.mapping == m
    decreases |vs|
  {
    var ms := emb(vs[0]);
    var block := Block(vs[0], n, ms);
    var rest := Hits(emb, vs[1..], n + |ms|);
    assert Hits(emb, vs, n) == block + rest;
    if k == 0 {
      var i :| 0 <= i < |ms| && ms[i] == m;
      assert block[i] in block + rest;
    } else {
      assert vs[1..][k - 1] == vs[k];
      HitsCover(emb, vs[1..], n + |ms|, k - 1, m);
      var h :| h in rest && h.pattern == vs[k] && h.mapping == m;
      assert h in block + rest;
    }
  }

  /** With the VF2 matcher every hit is an embedding of one of the variants into `G`. */
  lemma HitsSound(G: Target, vs: seq<Target>, nodeOk: NodeTest, n: int, i: int)
    requires 0 <= i < |Hits(MatcherOf(G, nodeOk), vs, n)|
    ensures Hits(MatcherOf(G, nodeOk), vs, n)[i].count == n + i + 1
    ensures Hits(MatcherOf(G, nodeOk), vs, n)[i].pattern in vs
    ensures IsEmbedding(G, Hits(MatcherOf(G, nodeOk), vs, n)[i].pattern, nodeOk, Hits(MatcherOf(G, nodeOk), vs, n)[i].mapping)
  {
    var h := Hits(MatcherOf(G, nodeOk), vs, n)[i];
    HitsFrom(MatcherOf(G, nodeOk), vs, n);
    var ms := Embeddings(G, h.pattern, nodeOk);
    assert h.mapping in ms;
    var j :| 0 <= j < |ms| && ms[j] == h.mapping;
  }

  /** With the VF2 matcher every embedding of every variant is reported as a hit. */
  lemma HitsComplete(G: Target, vs: seq<Target>, nodeOk: NodeTest, n: int, k: int, m: map<NodeKey, NodeKey>)
    requires 0 <= k < |vs| && vs[k].Valid() && IsEmbedding(G, vs[k], nodeOk, m)
    ensures exists h :: h in Hits(MatcherOf(G, nodeOk), vs, n) && h.pattern == vs[k] && h.mapping == m
  {
    EmbeddingsComplete(G, vs[k], nodeOk, m);
    HitsCover(MatcherOf(G, nodeOk), vs, n, k, m);
  }

  /** The graphs of a list of custom values, when none of them is a list of names. */
  function Unwrap(cs: seq<Custom>): (r: seq<Target>)
    requires forall k :: 0 <= k < |cs| ==> cs[k].GraphOf?
    ensures |r| == |cs| && forall k :: 0 <= k < |cs| ==> r[k] == cs[k].graph
  {
    seq(|cs|, k requires 0 <= k < |cs| => cs[k].graph)
  }

  /** The library variants as custom values. */
  function Wrap(gs: seq<Target>): (r: seq<Custom>)
    ensures |r| == |gs| && forall k :: 0 <= k < |gs| ==> r[k] == CustomChemGraph.GraphOf(gs[k])
  {
    seq(|gs|, k requires 0 <= k < |gs| => CustomChemGraph.GraphOf(gs[k]))
  }

  /**
   * `search_within_main_graph` once its graphs are chosen: none raises, so does a missing
   * compound graph or a list value; otherwise every embedding of every graph, with a
   * running count.
   */
  function Search(G: Option<Target>, sub: seq<Custom>, nodeOk: NodeTest): (r: Result<seq<Hit>>)
    ensures sub == [] ==> r == Err("functional group not found!")
    ensures r.Ok? ==> G.Some? && (forall k :: 0 <= k < |sub| ==> sub[k].GraphOf?)
  {
    if sub == [] then Err("functional group not found!")
    else if G.None? || exists k :: 0 <= k < |sub| && sub[k].NameList? then Err(NotAGraph)
    else Ok(Hits(MatcherOf(G.value, nodeOk), Unwrap(sub), 0))
  }

  /** The inner loop of `search_within_main_graph`: one hit per mapping, the count running on. */
  method AppendHits(hits0: seq<Hit>, p: Target, ms: seq<map<NodeKey, NodeKey>>) returns (hits: seq<Hit>)
    ensures hits == hits0 + Block(p, |hits0|, ms)
  {
    hits := hits0;
    var count := |hits0|;
    for e := 0 to |ms|
      invariant count == |hits| == |hits0| + e && hits == hits0 + Block(p, |hits0|, ms)[..e]
    {
      assert Block(p, |hits0|, ms)[..e + 1] == Block(p, |hits0|, ms)[..e] + [Hit(p, count + 1, ms[e])];
      count := count + 1;
      hits := hits + [Hit(p, count, ms[e])];
    }
    assert Block(p, |hits0|, ms)[..|ms|] == Block(p, |hits0|, ms);
  }

  lemma HitsStep(emb: Matcher, vs: seq<Target>, k: int, n: int)
    requires 0 <= k < |vs|
    ensures Hits(emb, vs[k..], n) == Block(vs[k], n, emb(vs[k])) + Hits(emb, vs[k + 1..], n + |emb(vs[k])|)
  {
    assert vs[k..][0] == vs[k] && vs[k..][1..] == vs[k + 1..];
  }

  lemma Assoc<T>(a: seq<T>, b: seq<T>, c: seq<T>)
    ensures a + (b + c) == (a + b) + c
  {
  }

  /** The outer loop of `search_within_main_graph`, over the chosen graphs. */
  method CollectHits(emb: Matcher, vs: seq<Target>) returns (hits: seq<Hit>)
    ensures hits == Hits(emb, vs, 0)
  {
    hits := [];
    assert vs[0..] == vs;
    for k := 0 to |vs|
      invariant hits + Hits(emb, vs[k..], |hits|) == Hits(emb, vs, 0)
    {
      var ms := emb(vs[k]);
      HitsStep(emb, vs, k, |hits|);
      ghost var before := hits;
      hits := AppendHits(hits, vs[k], ms);
      Assoc(before, Block(vs[k], |before|, ms), Hits(emb, vs[k + 1..], |before| + |ms|));
    }
    assert vs[|vs|..] == [];
  }

  // ---------------------------------------------------------------- group and subgroup

  /**
   * `__look_for_group_subgroup`: exactly two graphs, keyed by graph name (a repeated name
   * keeps the later graph); those with the most nodes are the group, the others the
   * subgroup, the later one winning each role; a role left empty raises.
   */
  function LookForGroupSubgroup(value: seq<Target>): (r: Result<(Target, Target)>)
    ensures r.Ok? ==> |r.value.0.order| > |r.value.1.order|
    ensures r.Ok? ==> r.value.0 in value && r.value.1 in value
  {
    if |value| != 2 then Err("custom functional group must have 2 elements")
    else
      var kept := if value[0].name == value[1].name then [value[1]] else value;
      var ref := if |kept| == 1 || |kept[0].order| >= |kept[1].order| then |kept[0].order| else |kept[1].order|;
      var group := if |kept[|kept| - 1].order| >= ref then Some(kept[|kept| - 1]) else if |kept[0].order| >= ref then Some(kept[0]) else None;
      var sub := if |kept[|kept| - 1].order| < ref then Some(kept[|kept| - 1]) else if |kept[0].order| < ref then Some(kept[0]) else None;
      if group.None? then Err("group not found!")
      else if sub.None? then Err("subgroup not found!")
      else Ok((group.value, sub.value))
  }

  /**
   * The split succeeds exactly for two graphs with different names and different node
   * counts; the group is the larger one. A group is always found, so the only other
   * failure is a missing subgroup.
   */
  lemma GroupSubgroupIff(value: seq<Target>)
    ensures var r := LookForGroupSubgroup(value);
      (r.Ok? <==> |value| == 2 && value[0].name != value[1].name && |value[0].order| != |value[1].order|)
      && (r.Ok? ==> r.value == if |value[0].order| > |value[1].order| then (value[0], value[1]) else (value[1], value[0]))
      && (r.Err? && |value| == 2 ==> r.error == "subgroup not found!")
  {
  }
}
