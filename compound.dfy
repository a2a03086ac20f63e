/**
 * `Compound` of `compound.py`: the flat bond list that the matcher builds its graph from,
 * and the compound's printed form.
 */
module Compound {
  import opened Wrappers
  import opened PyText
  import opened BondBlocks
  import MolParser
  import JsonParser

  /** The first four fields of a filed bond: `bond[0]` to `bond[3]`. */
  datatype BondFields = BondFields(id2: int, symbol2: string, name: string, order: int)

  /** The bond tuples of the Molfile reader. */
  function SdfFields(b: MolParser.SdfBond): BondFields {
    BondFields(b.id2, b.symbol2, b.name, b.order)
  }

  /** The bond tuples of the JSON reader, whose fifth field is not read. */
  function JsonFields(b: JsonParser.JsonBond): BondFields {
    BondFields(b.id2, b.symbol2, b.name, b.order)
  }

  /** One entry of `atom_bonds_1d`. */
  datatype FlatBond = FlatBond(id1: int, symbol1: string, id2: int, symbol2: string, bondType: int, bondSymbol: string)

  /** The entry made for bond `b` of the bond-block entry `atom`. */
  function Flat<E>(atom: AtomBonds<E>, b: BondFields): FlatBond {
    FlatBond(atom.id, atom.symbol, b.id2, b.symbol2, b.order, b.name)
  }

  /** The entries of one bond-block entry's bonds, in bond order. */
  function Entries<E>(atom: AtomBonds<E>, fields: E -> BondFields): (r: seq<FlatBond>)
    ensures |r| == |atom.bonds|
  {
    seq(|atom.bonds|, l requires 0 <= l < |atom.bonds| => Flat(atom, fields(atom.bonds[l])))
  }

  /** `convert_atom_bonds`: the entries of every atom's bonds, in block order. */
  function Flatten<E>(block: seq<AtomBonds<E>>, fields: E -> BondFields): (r: seq<FlatBond>)
    ensures forall k :: 0 <= k < |r| ==> exists j :: 0 <= j < |block| && r[k].id1 == block[j].id
  {
    if block == [] then []
    else Flatten(block[..|block| - 1], fields) + Entries(block[|block| - 1], fields)
  }

  /** The number of bonds in the block. */
  function TotalBonds<E>(block: seq<AtomBonds<E>>): nat {
    if block == [] then 0 else TotalBonds(block[..|block| - 1]) + |block[|block| - 1].bonds|
  }

  /** The number of bonds of the entries before entry `k`. */
  function Offset<E>(block: seq<AtomBonds<E>>, k: nat): nat
    requires k <= |block|
  {
    TotalBonds(block[..k])
  }

  /** The flat list has one entry per bond of the block. */
  lemma {:induction false} FlattenLength<E>(block: seq<AtomBonds<E>>, fields: E -> BondFields)
    ensures |Flatten(block, fields)| == TotalBonds(block)
  {
    if block != [] {
      FlattenLength(block[..|block| - 1], fields);
    }
  }

  /**
   * Bond `l` of entry `k` sits at position Offset(k) + l: block order first, then bond
   * order, with the atom's id and symbol as the first end and `bond[0..3]` mapped to the
   * second end, the bond type and the bond symbol.
   */
  lemma {:induction false} FlattenAt<E>(block: seq<AtomBonds<E>>, fields: E -> BondFields, k: nat, l: nat)
    requires k < |block| && l < |block[k].bonds|
    ensures Offset(block, k) + l < |Flatten(block, fields)|
    ensures var f := fields(block[k].bonds[l]);
      Flatten(block, fields)[Offset(block, k) + l]
      == FlatBond(block[k].id, block[k].symbol, f.id2, f.symbol2, f.order, f.name)
  {
    var pre := block[..|block| - 1];
    FlattenLength(pre, fields);
    if k < |block| - 1 {
      FlattenAt(pre, fields, k, l);
      assert pre[..k] == block[..k];
    } else {
      assert block[..k] == pre;
    }
  }

  /** Every entry of the flat list is one of the bonds of some entry `k`. */
  lemma {:induction false} FlattenFrom<E>(block: seq<AtomBonds<E>>, fields: E -> BondFields, i: nat)
    requires i < |Flatten(block, fields)|
    ensures exists k :: 0 <= k < |block| && Offset(block, k) <= i < Offset(block, k) + |block[k].bonds|
  {
    var pre := block[..|block| - 1];
    FlattenLength(pre, fields);
    if i < |Flatten(pre, fields)| {
      FlattenFrom(pre, fields, i);
      var k :| 0 <= k < |pre| && Offset(pre, k) <= i < Offset(pre, k) + |pre[k].bonds|;
      assert pre[..k] == block[..k];
      assert Offset(pre, k) == Offset(block, k);
    } else {
      var k := |block| - 1;
      assert block[..k] == pre;
      assert Offset(block, k) <= i < Offset(block, k) + |block[k].bonds|;
    }
  }

  /** The nested loop of `convert_atom_bonds`, appending one entry per bond. */
  method ConvertAtomBonds<E>(atomBonds: seq<AtomBonds<E>>, fields: E -> BondFields) returns (r: seq<FlatBond>)
    ensures r == Flatten(atomBonds, fields)
  {
    r := [];
    var k := 0;
    while k < |atomBonds|
      invariant 0 <= k <= |atomBonds|
      invariant r == Flatten(atomBonds[..k], fields)
    {
      var atom := atomBonds[k];
      var l := 0;
      while l < |atom.bonds|
        invariant 0 <= l <= |atom.bonds|
        invariant r == Flatten(atomBonds[..k], fields) + Entries(atom, fields)[..l]
      {
        assert Entries(atom, fields)[..l + 1] == Entries(atom, fields)[..l] + [Flat(atom, fields(atom.bonds[l]))];
        r := r + [Flat(atom, fields(atom.bonds[l]))];
        l := l + 1;
      }
      assert atomBonds[..k + 1][..k] == atomBonds[..k];
      assert Entries(atom, fields)[..l] == Entries(atom, fields);
      k := k + 1;
    }
    assert atomBonds[..k] == atomBonds;
  }

  // ---------------------------------------------------------------------------------
  // The printed form
  // ---------------------------------------------------------------------------------

  /** Python's `str` of a list of strings: each item in single quotes, joined by `, `. */
  function ListText(xs: seq<string>): (r: string)
    ensures |r| >= 2 && r[0] == '[' && r[|r| - 1] == ']'
    ensures xs == [] <==> r == "[]"
  {
    "[" + Join(seq(|xs|, i requires 0 <= i < |xs| => "'" + xs[i] + "'"), ", ") + "]"
  }

  /** `__str__`: the compound's name when it has one, else its element list. */
  function CompoundText(name: Option<string>, elements: seq<string>): (r: string)
    ensures name.Some? ==> r == name.value
    ensures name.None? ==> r == ListText(elements)
  {
    match name
    case Some(n) => n
    case None => ListText(elements)
  }
}
