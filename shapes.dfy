/** The planar-to-solid shape table: which Ubigraph solid stands in for each
    Graphviz node shape, looked up by exact, case-sensitive name. */
module Shapes {

  /** planar_solid_t: one association of a planar shape with a solid one. */
  datatype PlanarSolid = PlanarSolid(planar: string, solid: string)

  /** The solid used for a shape name that is not in the table. */
  const NotFound: string := "torus"

  /** initial_map, in its order. */
  const PlanarToSolid: seq<PlanarSolid> := [
    PlanarSolid("box", "cube"),
    PlanarSolid("polygon", "dodecahedron"),
    PlanarSolid("ellipse", "sphere"),
    PlanarSolid("circle", "sphere"),
    PlanarSolid("point", "sphere"),
    PlanarSolid("egg", "sphere"),
    PlanarSolid("triangle", "octahedron"),
    PlanarSolid("plaintext", "cube"),
    PlanarSolid("diamond", "octahedron"),
    PlanarSolid("trapezium", "cube"),
    PlanarSolid("parallelogram", "cube"),
    PlanarSolid("house", "octahedron"),
    PlanarSolid("octagon", "icosahedron"),
    PlanarSolid("doublecircle", "sphere"),
    PlanarSolid("doubleoctagon", "icosahedron"),
    PlanarSolid("tripleoctagon", "icosahedron"),
    PlanarSolid("invtriangle", "octahedron"),
    PlanarSolid("invtrapezium", "cube"),
    PlanarSolid("invhouse", "octahedron"),
    PlanarSolid("Mdiamond", "octahedron"),
    PlanarSolid("Msquare", "cube"),
    PlanarSolid("Mcircle", "sphere"),
    PlanarSolid("none", "cube"),
    PlanarSolid("record", "cube"),
    PlanarSolid("Mrecord", "cube")
  ]

  /** The solid of the first entry named `planar`, or NotFound. */
  function Lookup(table: seq<PlanarSolid>, planar: string): string
  {
    if table == [] then NotFound
    else if table[0].planar == planar then table[0].solid
    else Lookup(table[1..], planar)
  }

  /** Entry `i` is the first one whose planar name is `planar`. */
  ghost predicate FirstMatch(table: seq<PlanarSolid>, planar: string, i: int)
  {
    0 <= i < |table| && table[i].planar == planar &&
    forall j :: 0 <= j < i ==> table[j].planar != planar
  }

  /** Lookup answers with the solid of the first matching entry. */
  lemma {:induction false} LookupFirstMatch(table: seq<PlanarSolid>, planar: string, i: int)
    requires FirstMatch(table, planar, i)
    ensures Lookup(table, planar) == table[i].solid
    decreases i
  {
    if i > 0 {
      assert table[0].planar != planar;
      LookupFirstMatch(table[1..], planar, i - 1);
    }
  }

  /** Lookup answers "torus" when no entry has the name. */
  lemma {:induction false} LookupNoMatch(table: seq<PlanarSolid>, planar: string)
    requires forall i :: 0 <= i < |table| ==> table[i].planar != planar
    ensures Lookup(table, planar) == NotFound
    decreases |table|
  {
    if table != [] {
      assert table[0].planar != planar;
      LookupNoMatch(table[1..], planar);
    }
  }

  /** The process-wide table of pointers planar_to_solid, of length
      planar_to_solid_len (the array's length). */
  class ShapeTable {
    var entries: array<PlanarSolid>

    /** The table holds initial_map in its original order. */
    ghost predicate Valid()
      reads this, entries
    {
      entries[..] == PlanarToSolid
    }

    /** initialize_planar_to_solid: allocate the table and fill it, entry by
        entry, from initial_map. */
    constructor ()
      ensures Valid() && fresh(entries)
    {
      var initial := PlanarToSolid;
      var n := |initial|;
      var a := new PlanarSolid[n];
      for i := 0 to n
        invariant forall j :: 0 <= j < i ==> a[j] == initial[j]
      {
        a[i] := initial[i];
      }
      assert a[..] == initial;
      entries := a;
    }

    /** convert_shape: scan the table front to back and answer with the solid
        of the first entry whose name equals `planar`; "torus" if there is
        none. The method has no modifies clause: the move-to-front swap in the
        source is switched off, so a lookup never reorders the table. */
    method ConvertShape(planar: string) returns (solid: string)
      ensures forall i :: FirstMatch(entries[..], planar, i) ==> solid == entries[i].solid
      ensures (forall i :: 0 <= i < entries.Length ==> entries[i].planar != planar) ==> solid == NotFound
      ensures solid == Lookup(entries[..], planar)
    {
      for i := 0 to entries.Length
        invariant forall j :: 0 <= j < i ==> entries[j].planar != planar
      {
        if entries[i].planar == planar {
          assert FirstMatch(entries[..], planar, i);
          LookupFirstMatch(entries[..], planar, i);
          return entries[i].solid;
        }
      }
      LookupNoMatch(entries[..], planar);
      return NotFound;
    }
  }
}
