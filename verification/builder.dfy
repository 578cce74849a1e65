/**
  The grid mutations and click routing of the block builder: `addVoxel`,
  `removeVoxel`, the voxel and ground pointer handlers, `clearAll` and the
  draw list. Each handler is a pure transition of the grid; the selected kind
  (`tipo`), the mode and the shift flag are inputs.
 */
module BlockBuilder {
  import opened Wrappers
  import opened Keys
  import opened VoxelGrid

  // The palette of block kinds.
  const Tierra: Kind := "Tierra"
  const Hierba: Kind := "Hierba"
  const Piedra: Kind := "Piedra"
  const Madera: Kind := "Madera"
  const Agua: Kind := "Agua"

  /** One of the five kinds the kind selector offers. */
  predicate IsBlockType(t: Kind) {
    t == Tierra || t == Hierba || t == Piedra || t == Madera || t == Agua
  }

  datatype Mode = Construir | Borrar

  /** An integer grid position or an already rounded face normal. */
  datatype Vec = Vec(x: int, y: int, z: int) {
    function Plus(d: Vec): Vec {
      Vec(x + d.x, y + d.y, z + d.z)
    }

    function Key(): string {
      KeyOf(Int(x), Int(y), Int(z))
    }
  }

  /** Places a block of kind `t ?? tipo` at (x, y, z) unless the cell is
      occupied. An occupied cell keeps its kind; a new block goes after every
      existing entry, and all other keys keep their kinds and their order. */
  function AddVoxel(g: Grid, x: Number, y: Number, z: Number, t: Option<Kind>, tipo: Kind): (r: Grid)
    ensures Has(g, KeyOf(x, y, z)) ==> r == g
    ensures !Has(g, KeyOf(x, y, z)) ==> |r| == |g| + 1 && r[|g|] == Entry(KeyOf(x, y, z), t.GetOr(tipo))
    ensures r[..|g|] == g
    ensures Lookup(r, KeyOf(x, y, z)) == if Has(g, KeyOf(x, y, z)) then Lookup(g, KeyOf(x, y, z)) else Some(t.GetOr(tipo))
    ensures forall k :: k != KeyOf(x, y, z) ==> Lookup(r, k) == Lookup(g, k)
  {
    var k := KeyOf(x, y, z);
    if Has(g, k) then g else Set(g, k, t.GetOr(tipo))
  }

  /** Removes the block at (x, y, z) if there is one. The cell is empty
      afterwards; every other key keeps its kind, and the remaining entries
      keep their order. */
  function RemoveVoxel(g: Grid, x: Number, y: Number, z: Number): (r: Grid)
    ensures !Has(r, KeyOf(x, y, z))
    ensures !Has(g, KeyOf(x, y, z)) ==> r == g
    ensures r == Without(g, KeyOf(x, y, z))
    ensures forall k :: k != KeyOf(x, y, z) ==> Lookup(r, k) == Lookup(g, k)
  {
    var k := KeyOf(x, y, z);
    if !Has(g, k) then
      WithoutAbsent(g, k);
      g
    else
      DeleteKeepsOrder(g, k);
      Delete(g, k)
  }

  /** A click on a drawn voxel at `at`, whose hit face has normal `normal`.
      In `Borrar` mode or with shift held the clicked cell is emptied and no
      block is ever added; otherwise a block is placed in the neighbouring
      cell `at + normal`. */
  function HandleVoxelPointer(g: Grid, mode: Mode, shift: bool, tipo: Kind, at: Vec, normal: Vec): (r: Grid)
    ensures mode == Borrar || shift ==>
      !Has(r, at.Key()) && r == Without(g, at.Key())
    ensures mode == Construir && !shift ==>
      Has(r, at.Plus(normal).Key()) && |g| <= |r| <= |g| + 1 && r[..|g|] == g
    ensures mode == Construir && !shift && Has(g, at.Plus(normal).Key()) ==> r == g
    ensures mode == Construir && !shift && !Has(g, at.Plus(normal).Key()) ==>
      r == g + [Entry(at.Plus(normal).Key(), tipo)]
  {
    if mode == Borrar || shift then
      RemoveVoxel(g, Int(at.x), Int(at.y), Int(at.z))
    else
      var dest := at.Plus(normal);
      var r := AddVoxel(g, Int(dest.x), Int(dest.y), Int(dest.z), None, tipo);
      assert Lookup(r, dest.Key()).Some?;
      r
  }

  /** A click on the ground plane at the rounded point (gx, gz). In `Borrar`
      mode nothing changes; otherwise a block is placed at height 0.5, which
      is the key `gx,0.5,gz`. */
  function HandleGroundPointer(g: Grid, mode: Mode, tipo: Kind, gx: int, gz: int): (r: Grid)
    ensures mode == Borrar ==> r == g
    ensures mode == Construir ==>
      Has(r, KeyOf(Int(gx), Half, Int(gz))) && |g| <= |r| <= |g| + 1 && r[..|g|] == g
    ensures mode == Construir && Has(g, KeyOf(Int(gx), Half, Int(gz))) ==> r == g
    ensures mode == Construir && !Has(g, KeyOf(Int(gx), Half, Int(gz))) ==>
      r == g + [Entry(KeyOf(Int(gx), Half, Int(gz)), tipo)]
  {
    if mode == Borrar then g
    else
      var r := AddVoxel(g, Int(gx), Half, Int(gz), None, tipo);
      assert Lookup(r, KeyOf(Int(gx), Half, Int(gz))).Some?;
      r
  }

  /** Empties the grid, whatever it held. */
  function ClearAll(g: Grid): (r: Grid)
    ensures forall k :: !Has(r, k)
  {
    []
  }

  /** The draw list: `Array.from(voxels.entries())` drains the entry
      iterator, giving one (key, kind) pair per entry, in iteration order. */
  function VoxelEntries(g: seq<Entry>): (r: seq<(string, Kind)>)
    ensures |r| == |g|
    ensures forall i :: 0 <= i < |g| ==> r[i] == (g[i].key, g[i].kind)
  {
    if |g| == 0 then [] else [(g[0].key, g[0].kind)] + VoxelEntries(g[1..])
  }

  /** Where a drawn voxel stands: its key read back by `parseKey`. */
  function DrawPosition(e: (string, Kind)): (Component, Component, Component) {
    ParseKey(e.0)
  }

  // ---------------------------------------------------------------------------
  // Laws of the mutations

  /** Adding twice at one cell is adding once: the second add meets an
      occupied cell, even when it asks for another kind. */
  lemma AddVoxelIdempotent(g: Grid, x: Number, y: Number, z: Number, t: Option<Kind>, t': Option<Kind>, tipo: Kind, tipo': Kind)
    ensures AddVoxel(AddVoxel(g, x, y, z, t, tipo), x, y, z, t', tipo') == AddVoxel(g, x, y, z, t, tipo)
  {
    var r := AddVoxel(g, x, y, z, t, tipo);
    assert Lookup(r, KeyOf(x, y, z)).Some?;
  }

  /** Removing twice at one cell is removing once. */
  lemma RemoveVoxelIdempotent(g: Grid, x: Number, y: Number, z: Number)
    ensures RemoveVoxel(RemoveVoxel(g, x, y, z), x, y, z) == RemoveVoxel(g, x, y, z)
  {
  }

  /** Removing a block just added to an empty cell restores the grid. */
  lemma RemoveUndoesAdd(g: Grid, x: Number, y: Number, z: Number, t: Option<Kind>, tipo: Kind)
    requires !Has(g, KeyOf(x, y, z))
    ensures RemoveVoxel(AddVoxel(g, x, y, z, t, tipo), x, y, z) == g
  {
    var k := KeyOf(x, y, z);
    var r := AddVoxel(g, x, y, z, t, tipo);
    assert r == g + [Entry(k, t.GetOr(tipo))];
    WithoutSplice(r, k, |g|);
    assert r[..|g|] == g;
  }

  /** A hit without a face normal falls back to the zero vector, which names
      the clicked cell itself; when that cell's key is present, nothing
      changes. */
  lemma MissingFaceIsNoOp(g: Grid, tipo: Kind, at: Vec)
    requires Has(g, at.Key())
    ensures HandleVoxelPointer(g, Construir, false, tipo, at, Vec(0, 0, 0)) == g
  {
    assert at.Plus(Vec(0, 0, 0)) == at;
  }

  /** A build click on a lone block, on a face with a non-zero normal, puts
      the new block in the neighbouring cell after the clicked one. */
  lemma BuildBesideLoneBlock(t: Kind, tipo: Kind, at: Vec, normal: Vec)
    requires normal != Vec(0, 0, 0)
    ensures HandleVoxelPointer([Entry(at.Key(), t)], Construir, false, tipo, at, normal)
         == [Entry(at.Key(), t), Entry(at.Plus(normal).Key(), tipo)]
  {
    var g := [Entry(at.Key(), t)];
    NeighbourKeyDiffers(at, normal);
    assert g[0].key != at.Plus(normal).Key();
    assert !Has(g, at.Plus(normal).Key());
  }

  /** A cell and its neighbour along a non-zero step have different keys. */
  lemma NeighbourKeyDiffers(at: Vec, normal: Vec)
    requires normal != Vec(0, 0, 0)
    ensures at.Key() != at.Plus(normal).Key()
  {
    var d := at.Plus(normal);
    KeyRoundTrip(at.x, at.y, at.z);
    KeyRoundTrip(d.x, d.y, d.z);
  }

  /** Adjacency: a build click at (2,0,3) on the face with normal (0,1,0)
      puts the block at (2,1,3), leaving the clicked block as it was. */
  lemma AdjacentPlacementExample(g: Grid, at: Vec, normal: Vec)
    requires at == Vec(2, 0, 3) && normal == Vec(0, 1, 0)
    requires g == [Entry(at.Key(), Piedra)]
    ensures HandleVoxelPointer(g, Construir, false, Agua, at, normal)
         == [Entry(at.Key(), Piedra), Entry(Vec(2, 1, 3).Key(), Agua)]
  {
    BuildBesideLoneBlock(Piedra, Agua, at, normal);
    assert at.Plus(normal) == Vec(2, 1, 3);
  }
}
