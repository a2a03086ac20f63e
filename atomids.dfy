/**
 * `SetAtomId` and `arrange_prop` of `molparser.py`: atoms are renumbered by their
 * distance from a fixed observation point, nearest first, and the element list, the
 * coordinate list and the bond list are rewritten for the new ids. The distance is a
 * key function of the coordinates.
 */
module AtomIds {
  import opened Wrappers
  import opened PyText

  // ---------------------------------------------------------------------------------
  // Ranking by distance
  // ---------------------------------------------------------------------------------

  /** A row `[old id, distance, symbol]` of the distance table. */
  datatype Measured = Measured(oldId: int, dist: real, symbol: string)

  /** The distance table: atom i+1 with the distance of its coordinates and its symbol. */
  function Measure<C>(xyz: seq<C>, elements: seq<string>, dist: C -> real): (r: seq<Measured>)
    requires |xyz| <= |elements|
    ensures |r| == |xyz|
    ensures forall i :: 0 <= i < |xyz| ==> r[i] == Measured(i + 1, dist(xyz[i]), elements[i])
  {
    seq(|xyz|, i requires 0 <= i < |xyz| => Measured(i + 1, dist(xyz[i]), elements[i]))
  }

  /**
   * Inserting `e` into a list sorted farthest first, after every entry at least as far:
   * equal distances keep their order of arrival, as Python's stable
   * `sorted(..., reverse=True)` keeps them.
   */
  function InsertFar(sorted: seq<Measured>, e: Measured): (r: seq<Measured>)
    ensures multiset(r) == multiset(sorted) + multiset{e}
  {
    if sorted == [] then [e]
    else if sorted[0].dist >= e.dist then
      assert sorted == [sorted[0]] + sorted[1..];
      [sorted[0]] + InsertFar(sorted[1..], e)
    else [e] + sorted
  }

  /** `sorted(rows, key=distance, reverse=True)`, by insertion in row order. */
  function SortFar(rows: seq<Measured>): (r: seq<Measured>)
    ensures multiset(r) == multiset(rows)
  {
    if rows == [] then []
    else
      assert rows == rows[..|rows| - 1] + [rows[|rows| - 1]];
      InsertFar(SortFar(rows[..|rows| - 1]), rows[|rows| - 1])
  }

  /** `list.reverse()`. */
  function Reverse<T>(s: seq<T>): (r: seq<T>)
    ensures |r| == |s| && forall i :: 0 <= i < |s| ==> r[i] == s[|s| - 1 - i]
  {
    if s == [] then [] else Reverse(s[1..]) + [s[0]]
  }

  lemma {:induction false} ReversePermutes<T>(s: seq<T>)
    ensures multiset(Reverse(s)) == multiset(s)
  {
    if s != [] {
      ReversePermutes(s[1..]);
      assert s == [s[0]] + s[1..];
    }
  }

  /** The ranking of `sortRes`: the distance table sorted farthest first, then reversed. */
  function Ranking(rows: seq<Measured>): (r: seq<Measured>)
    ensures multiset(r) == multiset(rows)
  {
    ReversePermutes(SortFar(rows));
    Reverse(SortFar(rows))
  }

  /** `a` is ordered before `b` farthest first, ties by arrival (ascending old id). */
  predicate FartherFirst(a: Measured, b: Measured) {
    a.dist > b.dist || (a.dist == b.dist && a.oldId < b.oldId)
  }

  /** `a` gets the smaller new id: nearer, or as near with the larger old id. */
  predicate Nearer(a: Measured, b: Measured) {
    a.dist < b.dist || (a.dist == b.dist && a.oldId > b.oldId)
  }

  predicate SortedFarFirst(s: seq<Measured>) {
    forall i, j :: 0 <= i < j < |s| ==> FartherFirst(s[i], s[j])
  }

  predicate SortedNearFirst(s: seq<Measured>) {
    forall i, j :: 0 <= i < j < |s| ==> Nearer(s[i], s[j])
  }

  predicate OldIdsAscending(s: seq<Measured>) {
    forall i, j :: 0 <= i < j < |s| ==> s[i].oldId < s[j].oldId
  }

  lemma {:induction false} InsertFarSorted(sorted: seq<Measured>, e: Measured)
    requires SortedFarFirst(sorted)
    requires forall i :: 0 <= i < |sorted| ==> sorted[i].oldId < e.oldId
    ensures SortedFarFirst(InsertFar(sorted, e))
  {
    if sorted != [] && sorted[0].dist >= e.dist {
      var rest := InsertFar(sorted[1..], e);
      InsertFarSorted(sorted[1..], e);
      forall k | 0 <= k < |rest| ensures FartherFirst(sorted[0], rest[k]) {
        assert rest[k] in multiset(rest);
        if rest[k] != e {
          assert rest[k] in multiset(sorted[1..]);
          var p :| 0 <= p < |sorted[1..]| && sorted[1..][p] == rest[k];
          assert FartherFirst(sorted[0], sorted[p + 1]);
        }
      }
    } else if sorted != [] {
      assert forall k :: 0 < k < |sorted| ==> FartherFirst(sorted[0], sorted[k]);
    }
  }

  /** For rows met in ascending old id, the stable reverse sort orders them farthest first. */
  lemma {:induction false} SortFarSorted(rows: seq<Measured>)
    requires OldIdsAscending(rows)
    ensures SortedFarFirst(SortFar(rows))
  {
    if rows != [] {
      var pre := rows[..|rows| - 1];
      var e := rows[|rows| - 1];
      SortFarSorted(pre);
      forall i | 0 <= i < |SortFar(pre)| ensures SortFar(pre)[i].oldId < e.oldId {
        assert SortFar(pre)[i] in multiset(pre);
        var p :| 0 <= p < |pre| && pre[p] == SortFar(pre)[i];
        assert rows[p] == pre[p];
      }
      InsertFarSorted(SortFar(pre), e);
    }
  }

  /**
   * The ranking is a permutation of the distance table, nearest first; among atoms as
   * near as each other the one with the larger old id comes first.
   */
  lemma RankingSorted(rows: seq<Measured>)
    requires OldIdsAscending(rows)
    ensures multiset(Ranking(rows)) == multiset(rows)
    ensures SortedNearFirst(Ranking(rows))
  {
    SortFarSorted(rows);
    ReversePermutes(SortFar(rows));
    var s := SortFar(rows);
    var r := Ranking(rows);
    forall i, j | 0 <= i < j < |r| ensures Nearer(r[i], r[j]) {
      assert FartherFirst(s[|s| - 1 - j], s[|s| - 1 - i]);
    }
  }

  /** The old ids of a ranking, in order. */
  function OldIds(order: seq<Measured>): (r: seq<int>)
    ensures |r| == |order| && forall k :: 0 <= k < |order| ==> r[k] == order[k].oldId
  {
    seq(|order|, k requires 0 <= k < |order| => order[k].oldId)
  }

  /**
   * A distance table of atoms 1..n is ranked into a permutation of 1..n: every entry is
   * the row of its own old id, every atom appears, and no atom appears twice.
   */
  lemma RankingPermutation(rows: seq<Measured>)
    requires forall i :: 0 <= i < |rows| ==> rows[i].oldId == i + 1
    ensures PermutesAtoms(Ranking(rows), |rows|)
    ensures forall k :: 0 <= k < |rows| ==>
      1 <= Ranking(rows)[k].oldId <= |rows| && Ranking(rows)[k] == rows[Ranking(rows)[k].oldId - 1]
  {
    RankingSorted(rows);
    RankingLength(rows);
    RankingEntries(rows);
    RankingCovers(rows);
    var order := Ranking(rows);
    forall k, l | 0 <= k < l < |rows| ensures order[k].oldId != order[l].oldId {
      assert Nearer(order[k], order[l]);
    }
  }

  lemma RankingLength(rows: seq<Measured>)
    ensures |Ranking(rows)| == |rows|
  {
    ReversePermutes(SortFar(rows));
    assert |multiset(Ranking(rows))| == |multiset(rows)|;
  }

  lemma RankingEntries(rows: seq<Measured>)
    requires forall i :: 0 <= i < |rows| ==> rows[i].oldId == i + 1
    requires multiset(Ranking(rows)) == multiset(rows)
    ensures forall k :: 0 <= k < |Ranking(rows)| ==>
      1 <= Ranking(rows)[k].oldId <= |rows| && Ranking(rows)[k] == rows[Ranking(rows)[k].oldId - 1]
  {
    var order := Ranking(rows);
    forall k | 0 <= k < |order| ensures 1 <= order[k].oldId <= |rows| && order[k] == rows[order[k].oldId - 1] {
      assert order[k] in multiset(rows);
      var p :| 0 <= p < |rows| && rows[p] == order[k];
    }
  }

  lemma RankingCovers(rows: seq<Measured>)
    requires forall i :: 0 <= i < |rows| ==> rows[i].oldId == i + 1
    requires multiset(Ranking(rows)) == multiset(rows)
    ensures forall v :: 1 <= v <= |rows| ==> v in OldIds(Ranking(rows))
  {
    var order := Ranking(rows);
    forall v | 1 <= v <= |rows| ensures v in OldIds(order) {
      assert rows[v - 1] in multiset(order);
      var k :| 0 <= k < |order| && order[k] == rows[v - 1];
      assert OldIds(order)[k] == v;
    }
  }

  // ---------------------------------------------------------------------------------
  // The renumbering
  // ---------------------------------------------------------------------------------

  /** A bond row: first atom, second atom, bond order. */
  type Bond = (int, int, int)

  /** An entry of `matPosition`: old id, new id, distance, coordinates and symbol. */
  datatype Position<C> = Position(oldId: int, newId: int, dist: real, xyz: C, symbol: string)

  /** What `SetAtomId` returns. */
  datatype Renumbering<C> = Renumbering(
    matPosition: map<string, Position<C>>,
    idConversion: seq<(int, int)>,
    xyzSorted: seq<C>,
    elementsSorted: seq<string>,
    bondsSorted: seq<Bond>)

  /** `idConversion`: the pairs (old id, new id) in ranking order. */
  function Conversion(order: seq<Measured>): (r: seq<(int, int)>)
    ensures |r| == |order| && forall j :: 0 <= j < |order| ==> r[j] == (order[j].oldId, j + 1)
  {
    seq(|order|, j requires 0 <= j < |order| => (order[j].oldId, j + 1))
  }

  /** `[item[1] for item in idConversion if item[0] == v][0]`: the first pair for `v`. */
  function Lookup(conv: seq<(int, int)>, v: int): (r: Option<int>)
    ensures r.Some? <==> exists k :: 0 <= k < |conv| && conv[k].0 == v
    ensures r.Some? ==> exists k :: 0 <= k < |conv| && conv[k] == (v, r.value)
  {
    if conv == [] then None
    else if conv[0].0 == v then Some(conv[0].1)
    else
      var r := Lookup(conv[1..], v);
      assert forall k :: 0 <= k < |conv[1..]| ==> conv[1..][k] == conv[k + 1];
      assert (exists k :: 0 <= k < |conv| && conv[k].0 == v) ==> exists k :: 0 <= k < |conv[1..]| && conv[1..][k].0 == v;
      r
  }

  /** Both endpoints of every bond row rewritten to new ids; None when one has no new id. */
  function RemapBonds(conv: seq<(int, int)>, bonds: seq<Bond>): (r: Option<seq<Bond>>)
    ensures r.Some? <==>
      forall i :: 0 <= i < |bonds| ==> Lookup(conv, bonds[i].0).Some? && Lookup(conv, bonds[i].1).Some?
    ensures r.Some? ==> |r.value| == |bonds| && forall i :: 0 <= i < |bonds| ==>
      r.value[i] == (Lookup(conv, bonds[i].0).value, Lookup(conv, bonds[i].1).value, bonds[i].2)
  {
    if forall i :: 0 <= i < |bonds| ==> Lookup(conv, bonds[i].0).Some? && Lookup(conv, bonds[i].1).Some? then
      Some(seq(|bonds|, i requires 0 <= i < |bonds| =>
        (Lookup(conv, bonds[i].0).value, Lookup(conv, bonds[i].1).value, bonds[i].2)))
    else None
  }

  /** The entries of `matPosition` for new ids 1..j, keyed by the new id's decimal text. */
  function Positions<C>(order: seq<Measured>, xyz: seq<C>, elements: seq<string>, j: nat): map<string, Position<C>>
    requires j <= |order| && |xyz| <= |elements|
    requires forall k :: 0 <= k < |order| ==> 1 <= order[k].oldId <= |xyz|
  {
    if j == 0 then map[]
    else
      var e := order[j - 1];
      Positions(order, xyz, elements, j - 1)[IntToString(j) := Position(e.oldId, j, e.dist, xyz[e.oldId - 1], elements[e.oldId - 1])]
  }

  /** `xyzListSorted` / `elementListSorted`: slot j holds the data of the j-th ranked old id. */
  function Gather<T>(order: seq<Measured>, s: seq<T>): (r: seq<T>)
    requires forall k :: 0 <= k < |order| ==> 1 <= order[k].oldId <= |s|
    ensures |r| == |order| && forall j :: 0 <= j < |order| ==> r[j] == s[order[j].oldId - 1]
  {
    seq(|order|, j requires 0 <= j < |order| => s[order[j].oldId - 1])
  }

  /**
   * `SetAtomId`: fails when an atom has no element or when a bond names an atom that is not
   * there. The bond list is the caller's bond matrix, three columns wide even with no rows,
   * so an empty one leaves nothing to rewrite.
   */
  function Renumber<C>(xyz: seq<C>, elements: seq<string>, bonds: seq<Bond>, dist: C -> real): (r: Result<Renumbering<C>>)
    ensures |elements| < |xyz| ==> r.Err?
    ensures |xyz| <= |elements| && bonds == [] ==> r.Ok? && r.value.bondsSorted == []
  {
    if |elements| < |xyz| then Err("list index out of range")
    else
      var rows := Measure(xyz, elements, dist);
      RankingPermutation(rows);
      Assign(Ranking(rows), xyz, elements, bonds)
  }

  /** The new ids given by a ranking of the atoms, and the lists rewritten for them. */
  function Assign<C>(order: seq<Measured>, xyz: seq<C>, elements: seq<string>, bonds: seq<Bond>): Result<Renumbering<C>>
    requires |xyz| <= |elements| && PermutesAtoms(order, |xyz|)
  {
    var conv := Conversion(order);
    match RemapBonds(conv, bonds)
      case None => Err("list index out of range")
      case Some(bs) =>
        Ok(Renumbering(Positions(order, xyz, elements, |order|), conv, Gather(order, xyz), Gather(order, elements), bs))
  }

  /** `order` lists each of the atoms 1..n exactly once. */
  predicate PermutesAtoms(order: seq<Measured>, n: nat) {
    |order| == n
    && (forall k :: 0 <= k < n ==> 1 <= order[k].oldId <= n)
    && (forall v :: 1 <= v <= n ==> v in OldIds(order))
    && (forall k, l :: 0 <= k < l < n ==> order[k].oldId != order[l].oldId)
  }

  /** In the conversion of a permutation, exactly the atoms 1..n have a new id, and it is theirs. */
  lemma LookupNewId(order: seq<Measured>, n: nat, v: int)
    requires PermutesAtoms(order, n)
    ensures Lookup(Conversion(order), v).Some? <==> 1 <= v <= n
    ensures Lookup(Conversion(order), v).Some? ==>
      var w := Lookup(Conversion(order), v).value; 1 <= w <= n && order[w - 1].oldId == v
  {
    var conv := Conversion(order);
    if 1 <= v <= n {
      assert v in OldIds(order);
      var k :| 0 <= k < n && OldIds(order)[k] == v;
      assert conv[k].0 == v;
    }
    if Lookup(conv, v).Some? {
      var k :| 0 <= k < |conv| && conv[k] == (v, Lookup(conv, v).value);
    }
  }

  /** What a successful renumbering is made of: the ranking of the distance table, assigned. */
  lemma RenumberStages<C>(xyz: seq<C>, elements: seq<string>, bonds: seq<Bond>, dist: C -> real)
    requires |xyz| <= |elements|
    ensures PermutesAtoms(Ranking(Measure(xyz, elements, dist)), |xyz|)
    ensures Renumber(xyz, elements, bonds, dist) == Assign(Ranking(Measure(xyz, elements, dist)), xyz, elements, bonds)
  {
    RankingPermutation(Measure(xyz, elements, dist));
  }

  /**
   * The renumbering succeeds exactly when every atom has an element and every bond joins
   * atoms 1..n; a bond matrix with no rows always qualifies.
   */
  lemma RenumberOk<C>(xyz: seq<C>, elements: seq<string>, bonds: seq<Bond>, dist: C -> real)
    ensures Renumber(xyz, elements, bonds, dist).Ok? <==>
      (|xyz| <= |elements|
       && forall i :: 0 <= i < |bonds| ==> 1 <= bonds[i].0 <= |xyz| && 1 <= bonds[i].1 <= |xyz|)
  {
    if |xyz| <= |elements| {
      RenumberStages(xyz, elements, bonds, dist);
      AssignOk(Ranking(Measure(xyz, elements, dist)), xyz, elements, bonds);
    }
  }

  lemma AssignOk<C>(order: seq<Measured>, xyz: seq<C>, elements: seq<string>, bonds: seq<Bond>)
    requires |xyz| <= |elements| && PermutesAtoms(order, |xyz|)
    ensures Assign(order, xyz, elements, bonds).Ok? <==>
      (forall i :: 0 <= i < |bonds| ==> 1 <= bonds[i].0 <= |xyz| && 1 <= bonds[i].1 <= |xyz|)
  {
    forall v ensures Lookup(Conversion(order), v).Some? <==> 1 <= v <= |xyz| {
      LookupNewId(order, |xyz|, v);
    }
  }

  /**
   * `order` ranks the atoms of `xyz`: a permutation of 1..n whose every entry is the
   * distance-table row of its own old id, nearest first.
   */
  predicate Ranks<C>(order: seq<Measured>, xyz: seq<C>, elements: seq<string>, dist: C -> real) {
    |xyz| <= |elements| && PermutesAtoms(order, |xyz|)
    && (forall k :: 0 <= k < |order| ==>
         order[k] == Measured(order[k].oldId, dist(xyz[order[k].oldId - 1]), elements[order[k].oldId - 1]))
    && SortedNearFirst(order)
  }

  /** `order` lists the rows, each once, nearest first. */
  predicate RankedRows(order: seq<Measured>, rows: seq<Measured>) {
    SortedNearFirst(order) && PermutesAtoms(order, |rows|)
    && forall k :: 0 <= k < |order| ==> 1 <= order[k].oldId <= |rows| && order[k] == rows[order[k].oldId - 1]
  }

  /** The ranking of a distance table of atoms 1..n lists its rows, each once, nearest first. */
  lemma RankingRanked(rows: seq<Measured>)
    requires forall i :: 0 <= i < |rows| ==> rows[i].oldId == i + 1
    ensures RankedRows(Ranking(rows), rows)
  {
    RankingSorted(rows);
    RankingPermutation(rows);
  }

  /** A permutation of the measured rows, nearest first, ranks the atoms. */
  lemma RanksFromRows<C>(order: seq<Measured>, rows: seq<Measured>, xyz: seq<C>, elements: seq<string>, dist: C -> real)
    requires |xyz| <= |elements| && |rows| == |xyz|
    requires forall i :: 0 <= i < |rows| ==> rows[i] == Measured(i + 1, dist(xyz[i]), elements[i])
    requires RankedRows(order, rows)
    ensures Ranks(order, xyz, elements, dist)
  {
  }

  /** The ranking of the distance table ranks the atoms. */
  lemma RankingRanks<C>(xyz: seq<C>, elements: seq<string>, dist: C -> real)
    requires |xyz| <= |elements|
    ensures Ranks(Ranking(Measure(xyz, elements, dist)), xyz, elements, dist)
  {
    RanksOfRows(Measure(xyz, elements, dist), xyz, elements, dist);
  }

  /** The ranking of rows that measure the atoms ranks the atoms. */
  lemma RanksOfRows<C>(rows: seq<Measured>, xyz: seq<C>, elements: seq<string>, dist: C -> real)
    requires |xyz| <= |elements| && |rows| == |xyz|
    requires forall i :: 0 <= i < |rows| ==> rows[i] == Measured(i + 1, dist(xyz[i]), elements[i])
    ensures Ranks(Ranking(rows), xyz, elements, dist)
  {
    RankingRanked(rows);
    RanksFromRows(Ranking(rows), rows, xyz, elements, dist);
  }

  // What a renumbering promises, one predicate per part of the result.

  /** The conversion pairs are (old id, new id), a bijection of 1..n onto 1..n, new ids in order. */
  ghost predicate IdBijection(conv: seq<(int, int)>, n: nat) {
    |conv| == n
    && (forall j :: 0 <= j < n ==> conv[j].1 == j + 1 && 1 <= conv[j].0 <= n)
    && (forall j, k :: 0 <= j < k < n ==> conv[j].0 != conv[k].0)
    && (forall v :: 1 <= v <= n <==> Lookup(conv, v).Some?)
  }

  /**
   * The new ids ascend with the distance of the atom's coordinates; at equal distance the
   * larger old id gets the smaller new id.
   */
  predicate NearestFirst<C>(conv: seq<(int, int)>, xyz: seq<C>, dist: C -> real) {
    (forall j :: 0 <= j < |conv| ==> 1 <= conv[j].0 <= |xyz|)
    && forall j, k :: 0 <= j < k < |conv| ==>
      dist(xyz[conv[j].0 - 1]) < dist(xyz[conv[k].0 - 1])
      || (dist(xyz[conv[j].0 - 1]) == dist(xyz[conv[k].0 - 1]) && conv[j].0 > conv[k].0)
  }

  /** Slot new-1 of `sorted` holds slot old-1 of `s`. */
  ghost predicate Rearranged<T>(conv: seq<(int, int)>, s: seq<T>, sorted: seq<T>) {
    |sorted| == |conv|
    && forall j :: 0 <= j < |conv| ==> 1 <= conv[j].0 <= |s| && sorted[j] == s[conv[j].0 - 1]
  }

  /** Bond i of `bs` joins the new ids of the atoms bond i of `bonds` joins, with its bond order. */
  predicate BondsRenumbered(conv: seq<(int, int)>, bonds: seq<Bond>, bs: seq<Bond>) {
    |bs| == |bonds|
    && forall i :: 0 <= i < |bonds| ==>
      1 <= bs[i].0 <= |conv| && 1 <= bs[i].1 <= |conv|
      && conv[bs[i].0 - 1].0 == bonds[i].0 && conv[bs[i].1 - 1].0 == bonds[i].1
      && bs[i].2 == bonds[i].2
  }

  /** Under the decimal text of each new id, `m` holds that atom's old id, new id, distance, coordinates and symbol. */
  ghost predicate PositionsFor<C>(m: map<string, Position<C>>, conv: seq<(int, int)>, xyz: seq<C>, elements: seq<string>, dist: C -> real) {
    forall j :: 0 <= j < |conv| ==>
      1 <= conv[j].0 <= |xyz| && conv[j].0 <= |elements|
      && IntToString(j + 1) in m
      && m[IntToString(j + 1)]
         == Position(conv[j].0, j + 1, dist(xyz[conv[j].0 - 1]), xyz[conv[j].0 - 1], elements[conv[j].0 - 1])
  }

  /** Every key of `m` is the decimal text of an id 1..n. */
  predicate KeysAreIds<V>(m: map<string, V>, n: nat) {
    forall key :: key in m ==>
      ParseInt(key).Some? && 1 <= ParseInt(key).value <= n && key == IntToString(ParseInt(key).value)
  }

  // The parts, for any ranking.

  lemma ConversionIds(order: seq<Measured>, n: nat)
    requires PermutesAtoms(order, n)
    ensures IdBijection(Conversion(order), n)
  {
    forall v ensures 1 <= v <= n <==> Lookup(Conversion(order), v).Some? {
      LookupNewId(order, n, v);
    }
  }

  lemma ConversionOrder<C>(order: seq<Measured>, xyz: seq<C>, elements: seq<string>, dist: C -> real)
    requires Ranks(order, xyz, elements, dist)
    ensures NearestFirst(Conversion(order), xyz, dist)
  {
    var conv := Conversion(order);
    forall j, k | 0 <= j < k < |conv| ensures
      dist(xyz[conv[j].0 - 1]) < dist(xyz[conv[k].0 - 1])
      || (dist(xyz[conv[j].0 - 1]) == dist(xyz[conv[k].0 - 1]) && conv[j].0 > conv[k].0)
    {
      assert Nearer(order[j], order[k]);
    }
  }

  lemma GatherRearranged<T>(order: seq<Measured>, s: seq<T>)
    requires forall k :: 0 <= k < |order| ==> 1 <= order[k].oldId <= |s|
    ensures Rearranged(Conversion(order), s, Gather(order, s))
  {
  }

  lemma RemapBondsIds(order: seq<Measured>, n: nat, bonds: seq<Bond>)
    requires PermutesAtoms(order, n) && RemapBonds(Conversion(order), bonds).Some?
    ensures BondsRenumbered(Conversion(order), bonds, RemapBonds(Conversion(order), bonds).value)
  {
    var conv := Conversion(order);
    var bs := RemapBonds(conv, bonds).value;
    forall i | 0 <= i < |bonds| ensures
      1 <= bs[i].0 <= |conv| && 1 <= bs[i].1 <= |conv|
      && conv[bs[i].0 - 1].0 == bonds[i].0 && conv[bs[i].1 - 1].0 == bonds[i].1
      && bs[i].2 == bonds[i].2
    {
      LookupNewId(order, n, bonds[i].0);
      LookupNewId(order, n, bonds[i].1);
    }
  }

  lemma PositionsAll<C>(order: seq<Measured>, xyz: seq<C>, elements: seq<string>, dist: C -> real)
    requires Ranks(order, xyz, elements, dist)
    ensures PositionsFor(Positions(order, xyz, elements, |order|), Conversion(order), xyz, elements, dist)
  {
    PositionsPaired(order, Conversion(order), xyz, elements, dist);
  }

  /** `PositionsAll` for any list of pairs that holds each ranked old id with its new id. */
  lemma PositionsPaired<C>(order: seq<Measured>, conv: seq<(int, int)>, xyz: seq<C>, elements: seq<string>, dist: C -> real)
    requires Ranks(order, xyz, elements, dist)
    requires |conv| == |order| && forall j :: 0 <= j < |order| ==> conv[j] == (order[j].oldId, j + 1)
    ensures PositionsFor(Positions(order, xyz, elements, |order|), conv, xyz, elements, dist)
  {
    var m := Positions(order, xyz, elements, |order|);
    forall j | 0 <= j < |conv| ensures
      1 <= conv[j].0 <= |xyz| && conv[j].0 <= |elements|
      && IntToString(j + 1) in m
      && m[IntToString(j + 1)]
         == Position(conv[j].0, j + 1, dist(xyz[conv[j].0 - 1]), xyz[conv[j].0 - 1], elements[conv[j].0 - 1])
    {
      PositionsHas(order, xyz, elements, |order|, j);
      assert order[j] == Measured(order[j].oldId, dist(xyz[order[j].oldId - 1]), elements[order[j].oldId - 1]);
    }
  }

  // The renumbering.

  /** A successful renumbering is assembled from the ranking of the distance table. */
  lemma RenumberParts<C>(xyz: seq<C>, elements: seq<string>, bonds: seq<Bond>, dist: C -> real)
    requires Renumber(xyz, elements, bonds, dist).Ok?
    ensures |xyz| <= |elements|
    ensures Ranks(Ranking(Measure(xyz, elements, dist)), xyz, elements, dist)
    ensures RemapBonds(Conversion(Ranking(Measure(xyz, elements, dist))), bonds).Some?
    ensures Renumber(xyz, elements, bonds, dist).value == Renumbering(
      Positions(Ranking(Measure(xyz, elements, dist)), xyz, elements, |xyz|),
      Conversion(Ranking(Measure(xyz, elements, dist))),
      Gather(Ranking(Measure(xyz, elements, dist)), xyz),
      Gather(Ranking(Measure(xyz, elements, dist)), elements),
      RemapBonds(Conversion(Ranking(Measure(xyz, elements, dist))), bonds).value)
  {
    RenumberStages(xyz, elements, bonds, dist);
    RankingRanks(xyz, elements, dist);
  }

  /** The conversion pairs of a renumbering are a bijection of old ids 1..n onto new ids 1..n. */
  lemma RenumberIds<C>(xyz: seq<C>, elements: seq<string>, bonds: seq<Bond>, dist: C -> real)
    requires Renumber(xyz, elements, bonds, dist).Ok?
    ensures IdBijection(Renumber(xyz, elements, bonds, dist).value.idConversion, |xyz|)
  {
    RenumberParts(xyz, elements, bonds, dist);
    ConversionIds(Ranking(Measure(xyz, elements, dist)), |xyz|);
  }

  /** The new ids of a renumbering ascend with the distance, ties to the larger old id. */
  lemma RenumberOrder<C>(xyz: seq<C>, elements: seq<string>, bonds: seq<Bond>, dist: C -> real)
    requires Renumber(xyz, elements, bonds, dist).Ok?
    ensures NearestFirst(Renumber(xyz, elements, bonds, dist).value.idConversion, xyz, dist)
  {
    RenumberParts(xyz, elements, bonds, dist);
    ConversionOrder(Ranking(Measure(xyz, elements, dist)), xyz, elements, dist);
  }

  /** The coordinate and the element lists of a renumbering are in new-id order. */
  lemma RenumberData<C>(xyz: seq<C>, elements: seq<string>, bonds: seq<Bond>, dist: C -> real)
    requires Renumber(xyz, elements, bonds, dist).Ok?
    ensures var r := Renumber(xyz, elements, bonds, dist).value;
      Rearranged(r.idConversion, xyz, r.xyzSorted) && Rearranged(r.idConversion, elements, r.elementsSorted)
  {
    RenumberParts(xyz, elements, bonds, dist);
    var order := Ranking(Measure(xyz, elements, dist));
    GatherRearranged(order, xyz);
    GatherRearranged(order, elements);
  }

  /** Both endpoints of every bond get their atom's new id; the bond order and the bond count stay. */
  lemma RenumberBonds<C>(xyz: seq<C>, elements: seq<string>, bonds: seq<Bond>, dist: C -> real)
    requires Renumber(xyz, elements, bonds, dist).Ok?
    ensures var r := Renumber(xyz, elements, bonds, dist).value;
      BondsRenumbered(r.idConversion, bonds, r.bondsSorted)
  {
    RenumberParts(xyz, elements, bonds, dist);
    RemapBondsIds(Ranking(Measure(xyz, elements, dist)), |xyz|, bonds);
  }

  /**
   * `matPosition` maps the decimal text of each new id 1..n to that atom's old id, new id,
   * distance, coordinates and symbol, and has no other keys.
   */
  lemma RenumberPositions<C>(xyz: seq<C>, elements: seq<string>, bonds: seq<Bond>, dist: C -> real)
    requires Renumber(xyz, elements, bonds, dist).Ok?
    ensures var r := Renumber(xyz, elements, bonds, dist).value;
      PositionsFor(r.matPosition, r.idConversion, xyz, elements, dist) && KeysAreIds(r.matPosition, |xyz|)
  {
    RenumberParts(xyz, elements, bonds, dist);
    PositionsAll(Ranking(Measure(xyz, elements, dist)), xyz, elements, dist);
    PositionsOnly(Ranking(Measure(xyz, elements, dist)), xyz, elements, |xyz|);
  }

  lemma {:induction false} PositionsHas<C>(order: seq<Measured>, xyz: seq<C>, elements: seq<string>, j: nat, k: nat)
    requires k < j <= |order| && |xyz| <= |elements|
    requires forall k :: 0 <= k < |order| ==> 1 <= order[k].oldId <= |xyz|
    ensures IntToString(k + 1) in Positions(order, xyz, elements, j)
    ensures Positions(order, xyz, elements, j)[IntToString(k + 1)]
      == Position(order[k].oldId, k + 1, order[k].dist, xyz[order[k].oldId - 1], elements[order[k].oldId - 1])
  {
    if k < j - 1 {
      PositionsHas(order, xyz, elements, j - 1, k);
      IntToStringInjective(k + 1, j);
    }
  }

  lemma {:induction false} PositionsOnly<C>(order: seq<Measured>, xyz: seq<C>, elements: seq<string>, j: nat)
    requires j <= |order| && |xyz| <= |elements|
    requires forall k :: 0 <= k < |order| ==> 1 <= order[k].oldId <= |xyz|
    ensures KeysAreIds(Positions(order, xyz, elements, j), j)
  {
    if j > 0 {
      var m := Positions(order, xyz, elements, j - 1);
      PositionsOnly(order, xyz, elements, j - 1);
      forall key | key in Positions(order, xyz, elements, j)
        ensures ParseInt(key).Some? && 1 <= ParseInt(key).value <= j && key == IntToString(ParseInt(key).value)
      {
        if key == IntToString(j) {
          ParseIntToString(j);
        } else {
          assert key in m;
        }
      }
    }
  }

  lemma IntToStringInjective(a: int, b: int)
    requires a != b
    ensures IntToString(a) != IntToString(b)
  {
    ParseIntToString(a);
    ParseIntToString(b);
  }

  /**
   * `SetAtomId`: the distance table is built row by row, ranked, and turned into the
   * conversion pairs, the rewritten lists and the position map; the two id columns of the
   * bond list are then rewritten in place. Every failure is the renumbering's `Err`.
   */
  method SetAtomId<C>(xyz: seq<C>, elements: seq<string>, bonds: seq<Bond>, dist: C -> real)
    returns (r: Result<Renumbering<C>>)
    ensures r == Renumber(xyz, elements, bonds, dist)
  {
    var disRes := DistanceTable(xyz, elements, dist);
    if disRes.None? {
      return Err("list index out of range");
    }
    RenumberStages(xyz, elements, bonds, dist);
    var sortRes := Ranking(disRes.value);
    var conv := ConversionPairs(sortRes);
    var xyzSorted, elementsSorted, matPosition := SortedLists(sortRes, xyz, elements);
    var bondsSorted := RenumberColumns(conv, bonds);
    if bondsSorted.None? {
      return Err("list index out of range");
    }
    r := Ok(Renumbering(matPosition, conv, xyzSorted, elementsSorted, bondsSorted.value));
  }

  /** The loop over `xyzList` building `disRes`; None where `elementList[i]` is out of range. */
  method DistanceTable<C>(xyz: seq<C>, elements: seq<string>, dist: C -> real) returns (r: Option<seq<Measured>>)
    ensures r.Some? <==> |xyz| <= |elements|
    ensures r.Some? ==> |xyz| <= |elements| && r.value == Measure(xyz, elements, dist)
  {
    var disRes: seq<Measured> := [];
    var i := 0;
    while i < |xyz|
      invariant 0 <= i <= |xyz| && i <= |elements|
      invariant |disRes| == i
      invariant forall k :: 0 <= k < i ==> disRes[k] == Measured(k + 1, dist(xyz[k]), elements[k])
    {
      if i >= |elements| {
        return None;
      }
      disRes := disRes + [Measured(i + 1, dist(xyz[i]), elements[i])];
      i := i + 1;
    }
    return Some(disRes);
  }

  /** The loop building `idConversion` from the ranking. */
  method ConversionPairs(sortRes: seq<Measured>) returns (conv: seq<(int, int)>)
    ensures conv == Conversion(sortRes)
  {
    conv := [];
    var j := 0;
    while j < |sortRes|
      invariant 0 <= j <= |sortRes|
      invariant |conv| == j && forall k :: 0 <= k < j ==> conv[k] == (sortRes[k].oldId, k + 1)
    {
      conv := conv + [(sortRes[j].oldId, j + 1)];
      j := j + 1;
    }
  }

  /** The loop building `xyzListSorted`, `elementListSorted` and `matPosition`. */
  method SortedLists<C>(sortRes: seq<Measured>, xyz: seq<C>, elements: seq<string>)
    returns (xyzSorted: seq<C>, elementsSorted: seq<string>, matPosition: map<string, Position<C>>)
    requires |xyz| <= |elements|
    requires forall k :: 0 <= k < |sortRes| ==> 1 <= sortRes[k].oldId <= |xyz|
    ensures xyzSorted == Gather(sortRes, xyz) && elementsSorted == Gather(sortRes, elements)
    ensures matPosition == Positions(sortRes, xyz, elements, |sortRes|)
  {
    xyzSorted, elementsSorted, matPosition := [], [], map[];
    var j := 0;
    while j < |sortRes|
      invariant 0 <= j <= |sortRes|
      invariant |xyzSorted| == j && forall k :: 0 <= k < j ==> xyzSorted[k] == xyz[sortRes[k].oldId - 1]
      invariant |elementsSorted| == j && forall k :: 0 <= k < j ==> elementsSorted[k] == elements[sortRes[k].oldId - 1]
      invariant matPosition == Positions(sortRes, xyz, elements, j)
    {
      var e := sortRes[j];
      xyzSorted := xyzSorted + [xyz[e.oldId - 1]];
      elementsSorted := elementsSorted + [elements[e.oldId - 1]];
      PositionsStep(sortRes, xyz, elements, j);
      matPosition := matPosition[IntToString(j + 1) := Position(e.oldId, j + 1, e.dist, xyz[e.oldId - 1], elements[e.oldId - 1])];
      j := j + 1;
    }
    GatherIs(sortRes, xyz, xyzSorted);
    GatherIs(sortRes, elements, elementsSorted);
  }

  /** A list that holds, slot by slot, the data of the ranked old ids is their `Gather`. */
  lemma GatherIs<T>(order: seq<Measured>, s: seq<T>, t: seq<T>)
    requires forall k :: 0 <= k < |order| ==> 1 <= order[k].oldId <= |s|
    requires |t| == |order| && forall k :: 0 <= k < |order| ==> t[k] == s[order[k].oldId - 1]
    ensures t == Gather(order, s)
  {
  }

  /** One step of the position map: entry j+1 added to the entries 1..j. */
  lemma PositionsStep<C>(order: seq<Measured>, xyz: seq<C>, elements: seq<string>, j: nat)
    requires j < |order| && |xyz| <= |elements|
    requires forall k :: 0 <= k < |order| ==> 1 <= order[k].oldId <= |xyz|
    ensures Positions(order, xyz, elements, j + 1) == Positions(order, xyz, elements, j)[IntToString(j + 1) :=
      Position(order[j].oldId, j + 1, order[j].dist, xyz[order[j].oldId - 1], elements[order[j].oldId - 1])]
  {
  }

  /**
   * The bond columns 0 and 1 copied into arrays and rewritten in place with the first new
   * id paired with each old id; None where an old id has no pair.
   */
  method RenumberColumns(conv: seq<(int, int)>, bonds: seq<Bond>) returns (r: Option<seq<Bond>>)
    ensures r == RemapBonds(conv, bonds)
  {
    var column0 := new int[|bonds|](k requires 0 <= k < |bonds| => bonds[k].0);
    var column1 := new int[|bonds|](k requires 0 <= k < |bonds| => bonds[k].1);
    var b := 0;
    while b < |bonds|
      invariant ColumnsRemapped(conv, bonds, column0[..], column1[..], b)
    {
      ghost var c0, c1 := column0[..], column1[..];
      assert c0[b] == bonds[b].0 && c1[b] == bonds[b].1;
      var v0 := Lookup(conv, column0[b]);
      if v0.None? {
        return None;
      }
      column0[b] := v0.value;
      var v1 := Lookup(conv, column1[b]);
      if v1.None? {
        return None;
      }
      column1[b] := v1.value;
      ColumnsStep(conv, bonds, c0, c1, b);
      assert column0[..] == c0[b := v0.value] && column1[..] == c1[b := v1.value];
      b := b + 1;
    }
    var c0, c1 := column0[..], column1[..];
    var rows := seq(|bonds|, k requires 0 <= k < |bonds| => (c0[k], c1[k], bonds[k].2));
    RemapBondsIs(conv, bonds, rows);
    r := Some(rows);
  }

  /** The id columns after `b` rows: rows before `b` hold their new ids, the rest their old ones. */
  ghost predicate ColumnsRemapped(conv: seq<(int, int)>, bonds: seq<Bond>, c0: seq<int>, c1: seq<int>, b: int) {
    0 <= b <= |bonds| && |c0| == |bonds| && |c1| == |bonds|
    && (forall k :: 0 <= k < b ==>
         Lookup(conv, bonds[k].0).Some? && Lookup(conv, bonds[k].1).Some?
         && c0[k] == Lookup(conv, bonds[k].0).value && c1[k] == Lookup(conv, bonds[k].1).value)
    && (forall k :: b <= k < |bonds| ==> c0[k] == bonds[k].0 && c1[k] == bonds[k].1)
  }

  /** Rewriting row `b` of both columns moves the boundary one row on. */
  lemma ColumnsStep(conv: seq<(int, int)>, bonds: seq<Bond>, c0: seq<int>, c1: seq<int>, b: int)
    requires ColumnsRemapped(conv, bonds, c0, c1, b) && b < |bonds|
    requires Lookup(conv, bonds[b].0).Some? && Lookup(conv, bonds[b].1).Some?
    ensures ColumnsRemapped(conv, bonds, c0[b := Lookup(conv, bonds[b].0).value],
      c1[b := Lookup(conv, bonds[b].1).value], b + 1)
  {
  }

  /** Bond rows holding, row by row, the looked-up endpoints are what `RemapBonds` gives. */
  lemma RemapBondsIs(conv: seq<(int, int)>, bonds: seq<Bond>, rows: seq<Bond>)
    requires |rows| == |bonds|
    requires forall k :: 0 <= k < |bonds| ==>
      (Lookup(conv, bonds[k].0).Some? && Lookup(conv, bonds[k].1).Some?
       && rows[k] == (Lookup(conv, bonds[k].0).value, Lookup(conv, bonds[k].1).value, bonds[k].2))
    ensures RemapBonds(conv, bonds) == Some(rows)
  {
    var r := RemapBonds(conv, bonds);
    assert r.Some?;
    assert |r.value| == |rows|;
    assert forall k :: 0 <= k < |rows| ==> r.value[k] == rows[k];
    assert r.value == rows;
  }

  // ---------------------------------------------------------------------------------
  // arrange_prop
  // ---------------------------------------------------------------------------------

  /**
   * `arrange_prop`: `np.take(prop, ids - 1)`, which counts negative indices from the end
   * and fails on any index outside the list. An empty id list becomes an empty float
   * array, which `np.take` refuses as indices.
   */
  function ArrangeProp<T>(prop: seq<T>, ids: seq<int>): (r: Result<seq<T>>)
    ensures r.Ok? <==> ids != [] && forall i :: 0 <= i < |ids| ==> PyIndex(prop, ids[i] - 1).Some?
    ensures r.Ok? ==> |r.value| == |ids| && forall i :: 0 <= i < |ids| ==> PyIndex(prop, ids[i] - 1) == Some(r.value[i])
  {
    if ids == [] then Err("Cannot cast array data from dtype('float64') to dtype('int64')")
    else if forall i :: 0 <= i < |ids| ==> PyIndex(prop, ids[i] - 1).Some? then
      Ok(seq(|ids|, i requires 0 <= i < |ids| => PyIndex(prop, ids[i] - 1).value))
    else Err("index out of bounds")
  }

  /** The old-id column of the conversion pairs. */
  function OldColumn(conv: seq<(int, int)>): (r: seq<int>)
    ensures |r| == |conv| && forall j :: 0 <= j < |conv| ==> r[j] == conv[j].0
  {
    seq(|conv|, j requires 0 <= j < |conv| => conv[j].0)
  }

  /**
   * Arranging by the old-id column of a conversion gathers the list into ranking order;
   * an empty conversion leaves no indices and fails.
   */
  lemma ArrangeGather<T>(order: seq<Measured>, prop: seq<T>)
    requires forall k :: 0 <= k < |order| ==> 1 <= order[k].oldId <= |prop|
    ensures order != [] ==> ArrangeProp(prop, OldColumn(Conversion(order))) == Ok(Gather(order, prop))
    ensures order == [] ==> ArrangeProp(prop, OldColumn(Conversion(order))).Err?
  {
    var ids := OldColumn(Conversion(order));
    forall i | 0 <= i < |ids| ensures PyIndex(prop, ids[i] - 1) == Some(Gather(order, prop)[i]) {
      assert ids[i] == order[i].oldId;
    }
    if order != [] {
      assert ArrangeProp(prop, ids).value == Gather(order, prop);
    }
  }

  /**
   * Arranging a per-atom list by the old-id column of the conversion puts it in new-id
   * order, as the renumbering does with the element list. With no atoms there is no
   * index to arrange by, and it fails.
   */
  lemma ArrangeRenumbered<C, T>(xyz: seq<C>, elements: seq<string>, bonds: seq<Bond>, dist: C -> real, prop: seq<T>)
    requires Renumber(xyz, elements, bonds, dist).Ok? && |prop| == |xyz|
    ensures var r := Renumber(xyz, elements, bonds, dist).value;
      xyz != [] ==>
        ArrangeProp(prop, OldColumn(r.idConversion)).Ok?
        && Rearranged(r.idConversion, prop, ArrangeProp(prop, OldColumn(r.idConversion)).value)
    ensures var r := Renumber(xyz, elements, bonds, dist).value;
      xyz != [] ==> ArrangeProp(elements, OldColumn(r.idConversion)) == Ok(r.elementsSorted)
    ensures var r := Renumber(xyz, elements, bonds, dist).value;
      xyz == [] ==> ArrangeProp(prop, OldColumn(r.idConversion)).Err?
  {
    RenumberParts(xyz, elements, bonds, dist);
    var order := Ranking(Measure(xyz, elements, dist));
    ArrangeGather(order, prop);
    ArrangeGather(order, elements);
    GatherRearranged(order, prop);
  }
}
