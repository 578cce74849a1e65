/**
  The ground height. A ground click stores its block under the key
  `gx,0.5,gz`, but the draw list places that block at `parseKey` of its key,
  which reads the height back as 0. A click on the drawn block therefore
  names the cell `gx,0,gz`, a different key: the block cannot be deleted by
  clicking it, and a block built sideways into `gx,0,gz` shares its drawn
  cell. This module states both as the source has them and proves the
  corrected ground handler, which stores the ground cell at height 0, free of
  them.
 */
module GroundKey {
  import opened Wrappers
  import opened Keys
  import opened VoxelGrid
  import opened BlockBuilder

  /** The key a ground click stores, as written. */
  function GroundKeyAsWritten(gx: int, gz: int): string {
    KeyOf(Int(gx), Half, Int(gz))
  }

  /** A key that names an integer cell, in the form `keyOf` prints it. */
  predicate IsCellKey(k: string) {
    var (x, y, z) := ParseKey(k);
    x.Num? && y.Num? && z.Num? && KeyOf(Int(x.n), Int(y.n), Int(z.n)) == k
  }

  predicate CellKeyed(g: Grid) {
    forall i :: 0 <= i < |g| ==> IsCellKey(g[i].key)
  }

  // ---------------------------------------------------------------------------
  // As written

  /** A block placed by a ground click is drawn at height 0, and a delete
      click on it (in `Borrar` mode or with shift) leaves it in the grid. */
  lemma GroundBlockSurvivesDeleteClick(g: Grid, tipo: Kind, gx: int, gz: int, shift: bool, normal: Vec)
    requires !Has(g, GroundKeyAsWritten(gx, gz))
    ensures var g1 := HandleGroundPointer(g, Construir, tipo, gx, gz);
      && |g1| == |g| + 1
      && DrawPosition(VoxelEntries(g1)[|g|]) == (Num(gx), Num(0), Num(gz))
      && Has(HandleVoxelPointer(g1, Borrar, shift, tipo, Vec(gx, 0, gz), normal), GroundKeyAsWritten(gx, gz))
  {
    var g1 := HandleGroundPointer(g, Construir, tipo, gx, gz);
    GroundKeyTruncated(gx, gz);
    var r := RemoveVoxel(g1, Int(gx), Int(0), Int(gz));
    assert Lookup(g1, GroundKeyAsWritten(gx, gz)).Some?;
    assert Lookup(r, GroundKeyAsWritten(gx, gz)) == Lookup(g1, GroundKeyAsWritten(gx, gz));
  }

  /** Called on a grid that holds a block built sideways at height 0, the
      ground handler adds a second block drawn in that same cell. Whether a
      real click can reach the ground there, past that block, is not part of
      this statement. */
  lemma GroundClickDoublesCell(g: Grid, tipo: Kind, x: int, z: int)
    requires Has(g, Vec(x, 0, z).Key()) && !Has(g, GroundKeyAsWritten(x, z))
    ensures var r := HandleGroundPointer(g, Construir, tipo, x, z);
      && |r| == |g| + 1
      && DrawPosition(VoxelEntries(r)[IndexOf(g, Vec(x, 0, z).Key())]) == DrawPosition(VoxelEntries(r)[|g|])
  {
    var r := HandleGroundPointer(g, Construir, tipo, x, z);
    var i := IndexOf(g, Vec(x, 0, z).Key());
    assert r[i] == g[i];
    KeyRoundTrip(x, 0, z);
    GroundKeyTruncated(x, z);
  }

  /** A side-face build from a ground block puts a block at height 0 beside
      it, which is what the previous lemma needs. */
  lemma SideBuildReachesHeightZero(g: Grid, tipo: Kind, x: int, z: int)
    requires Has(g, GroundKeyAsWritten(x, z)) && !Has(g, Vec(x + 1, 0, z).Key())
    ensures var r := HandleVoxelPointer(g, Construir, false, tipo, Vec(x, 0, z), Vec(1, 0, 0));
      Has(r, Vec(x + 1, 0, z).Key()) && Has(r, GroundKeyAsWritten(x, z))
  {
    var r := HandleVoxelPointer(g, Construir, false, tipo, Vec(x, 0, z), Vec(1, 0, 0));
    assert Vec(x, 0, z).Plus(Vec(1, 0, 0)) == Vec(x + 1, 0, z);
    var i := IndexOf(g, GroundKeyAsWritten(x, z));
    assert r[i] == g[i];
  }

  /** Ground keys are not cell keys, so the as-written ground click takes a
      grid out of the cell-keyed ones. */
  lemma GroundClickLeavesCellKeys(g: Grid, tipo: Kind, gx: int, gz: int)
    ensures !CellKeyed(HandleGroundPointer(g, Construir, tipo, gx, gz))
  {
    var r := HandleGroundPointer(g, Construir, tipo, gx, gz);
    var i := IndexOf(r, GroundKeyAsWritten(gx, gz));
    GroundKeyTruncated(gx, gz);
    assert !IsCellKey(r[i].key);
  }

  // ---------------------------------------------------------------------------
  // Corrected: the ground cell is stored at height 0, where it is drawn

  function HandleGroundPointerFixed(g: Grid, mode: Mode, tipo: Kind, gx: int, gz: int): (r: Grid)
    ensures mode == Borrar ==> r == g
    ensures mode == Construir ==>
      Has(r, Vec(gx, 0, gz).Key()) && |g| <= |r| <= |g| + 1 && r[..|g|] == g
    ensures mode == Construir && Has(g, Vec(gx, 0, gz).Key()) ==> r == g
    ensures mode == Construir && !Has(g, Vec(gx, 0, gz).Key()) ==>
      r == g + [Entry(Vec(gx, 0, gz).Key(), tipo)]
  {
    if mode == Borrar then g
    else
      var r := AddVoxel(g, Int(gx), Int(0), Int(gz), None, tipo);
      assert Lookup(r, Vec(gx, 0, gz).Key()).Some?;
      r
  }

  /** A block placed by the corrected ground click is drawn in its own cell,
      and a delete click there takes it away again. */
  lemma FixedGroundBlockRemovable(g: Grid, tipo: Kind, gx: int, gz: int, shift: bool, normal: Vec)
    requires !Has(g, Vec(gx, 0, gz).Key())
    ensures var g1 := HandleGroundPointerFixed(g, Construir, tipo, gx, gz);
      && |g1| == |g| + 1
      && DrawPosition(VoxelEntries(g1)[|g|]) == (Num(gx), Num(0), Num(gz))
      && HandleVoxelPointer(g1, Borrar, shift, tipo, Vec(gx, 0, gz), normal) == g
  {
    KeyRoundTrip(gx, 0, gz);
    RemoveUndoesAdd(g, Int(gx), Int(0), Int(gz), None, tipo);
  }

  /** In a cell-keyed grid no two blocks are drawn in the same cell. */
  lemma CellKeyedDrawsDistinctCells(g: Grid, i: nat, j: nat)
    requires CellKeyed(g)
    requires i < j < |g|
    ensures DrawPosition(VoxelEntries(g)[i]) != DrawPosition(VoxelEntries(g)[j])
  {
    assert IsCellKey(g[i].key) && IsCellKey(g[j].key);
  }

  lemma VecKeyIsCellKey(v: Vec)
    ensures IsCellKey(v.Key())
  {
    KeyRoundTrip(v.x, v.y, v.z);
  }

  /** A grid that only grows by cell keys stays cell-keyed. */
  lemma GrowKeepsCellKeys(g: Grid, r: Grid)
    requires CellKeyed(g)
    requires |g| <= |r| && r[..|g|] == g
    requires forall i :: |g| <= i < |r| ==> IsCellKey(r[i].key)
    ensures CellKeyed(r)
  {
    forall i | 0 <= i < |g|
      ensures IsCellKey(r[i].key)
    {
      assert r[i] == r[..|g|][i];
    }
  }

  /** A voxel click, building or deleting, keeps a grid cell-keyed. */
  lemma VoxelClickKeepsCellKeys(g: Grid, mode: Mode, shift: bool, tipo: Kind, at: Vec, normal: Vec)
    requires CellKeyed(g)
    ensures CellKeyed(HandleVoxelPointer(g, mode, shift, tipo, at, normal))
  {
    var r := HandleVoxelPointer(g, mode, shift, tipo, at, normal);
    if mode == Borrar || shift {
      WithoutMembers(g, at.Key());
      forall i | 0 <= i < |r|
        ensures IsCellKey(r[i].key)
      {
        assert r[i] in g;
      }
    } else {
      var d := at.Plus(normal);
      VecKeyIsCellKey(d);
      if !Has(g, d.Key()) {
        assert r[|g|].key == d.Key();
      }
      GrowKeepsCellKeys(g, r);
    }
  }

  /** The corrected ground click keeps a grid cell-keyed, so together with
      voxel clicks it never draws two blocks in one cell. */
  lemma FixedGroundClickKeepsCellKeys(g: Grid, mode: Mode, tipo: Kind, gx: int, gz: int)
    requires CellKeyed(g)
    ensures CellKeyed(HandleGroundPointerFixed(g, mode, tipo, gx, gz))
  {
    var r := HandleGroundPointerFixed(g, mode, tipo, gx, gz);
    VecKeyIsCellKey(Vec(gx, 0, gz));
    if mode == Construir && !Has(g, Vec(gx, 0, gz).Key()) {
      assert r[|g|].key == Vec(gx, 0, gz).Key();
    }
    GrowKeepsCellKeys(g, r);
  }
}
