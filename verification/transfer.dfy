/**
  Export and import of the grid as a list of `{key, type}` records. The JSON
  text itself is not modelled: the text box holds either a decoded record
  list or text that `JSON.parse` rejects.
 */
module Transfer {
  import opened Wrappers
  import opened VoxelGrid

  /** One exported record; `kind` is the JSON field named `type`. */
  datatype VoxelData = VoxelData(key: string, kind: Kind)

  /** The text box as `JSON.parse` sees it. */
  datatype Parsed = Records(records: seq<VoxelData>) | Invalid

  /** `exportJSON`: `forEach` visits the entries in iteration order and
      pushes one record for each, so the records list the entries in order. */
  function ExportJSON(g: seq<Entry>): (arr: seq<VoxelData>)
    ensures |arr| == |g|
    ensures forall i :: 0 <= i < |g| ==> arr[i] == VoxelData(g[i].key, g[i].kind)
  {
    if |g| == 0 then []
    else ExportJSON(g[..|g| - 1]) + [VoxelData(g[|g| - 1].key, g[|g| - 1].kind)]
  }

  /** The fresh map the import loop builds: `map.set(v.key, v.type)` for each
      record in turn, so a later record under a key already seen replaces
      that key's kind without moving it. */
  function Import(rs: seq<VoxelData>): Grid {
    if |rs| == 0 then []
    else Set(Import(rs[..|rs| - 1]), rs[|rs| - 1].key, rs[|rs| - 1].kind)
  }

  /** `importJSON`: text `JSON.parse` rejects leaves the grid as it was;
      parsed records replace the grid wholesale, whatever it held. */
  function ImportJSON(g: Grid, text: Parsed): (r: Grid)
    ensures text.Invalid? ==> r == g
    ensures text.Records? ==> forall k :: Lookup(r, k) == LastKind(text.records, k)
    ensures text.Records? ==> KeysOf(r) == FirstOccurrences(text.records)
  {
    match text
    case Invalid => g
    case Records(rs) =>
      ImportKeyOrder(rs);
      ImportLastWinsEveryKey(rs);
      Import(rs)
  }

  // ---------------------------------------------------------------------------
  // Reference definitions for what the import loop builds

  /** The kind of the last record under k, if any record has key k. */
  function LastKind(rs: seq<VoxelData>, k: string): Option<Kind> {
    if |rs| == 0 then None
    else if rs[|rs| - 1].key == k then Some(rs[|rs| - 1].kind)
    else LastKind(rs[..|rs| - 1], k)
  }

  /** The keys of the records, each at the place of its first occurrence. */
  function FirstOccurrences(rs: seq<VoxelData>): seq<string> {
    if |rs| == 0 then []
    else
      var init := rs[..|rs| - 1];
      var k := rs[|rs| - 1].key;
      if LastKind(init, k).Some? then FirstOccurrences(init) else FirstOccurrences(init) + [k]
  }

  // ---------------------------------------------------------------------------
  // Laws of export and import

  /** A key is in the imported grid exactly when some record carries it, with
      the kind of the last such record: a later duplicate overwrites an
      earlier one. */
  lemma {:induction false} ImportLastWins(rs: seq<VoxelData>, k: string)
    ensures Lookup(Import(rs), k) == LastKind(rs, k)
    decreases |rs|
  {
    if |rs| > 0 {
      ImportLastWins(rs[..|rs| - 1], k);
    }
  }

  lemma ImportLastWinsEveryKey(rs: seq<VoxelData>)
    ensures forall k :: Lookup(Import(rs), k) == LastKind(rs, k)
  {
    forall k {
      ImportLastWins(rs, k);
    }
  }

  /** The imported grid lists its keys in the order of their first
      occurrence among the records. */
  lemma {:induction false} ImportKeyOrder(rs: seq<VoxelData>)
    ensures KeysOf(Import(rs)) == FirstOccurrences(rs)
    decreases |rs|
  {
    if |rs| > 0 {
      var init := rs[..|rs| - 1];
      var k := rs[|rs| - 1].key;
      var prev := Import(init);
      ImportKeyOrder(init);
      ImportLastWins(init, k);
      if !Has(prev, k) {
        assert KeysOf(prev + [Entry(k, rs[|rs| - 1].kind)]) == KeysOf(prev) + [k];
      }
    }
  }

  /** Importing the records a grid exports rebuilds that grid: its keys are
      distinct, so each `set` appends, in the exported order. */
  lemma {:induction false} ImportOfExport(g: Grid)
    ensures Import(ExportJSON(g)) == g
    decreases |g|
  {
    if |g| > 0 {
      var init: Grid := g[..|g| - 1];
      var last := g[|g| - 1];
      var rs := ExportJSON(g);
      ImportOfExport(init);
      assert !Has(init, last.key) by {
        forall i | 0 <= i < |init|
          ensures init[i].key != last.key
        {
          assert init[i] == g[i];
        }
      }
      calc {
        Import(rs);
        { assert rs[..|rs| - 1] == ExportJSON(init); }
        Set(init, last.key, last.kind);
        init + [Entry(last.key, last.kind)];
        { assert init + [last] == g; }
        g;
      }
    }
  }

  /** Export then import gives back the same grid, kinds and order included. */
  lemma ExportImportRoundTrip(g: Grid, h: Grid)
    ensures ImportJSON(h, Records(ExportJSON(g))) == g
  {
    ImportOfExport(g);
    assert ImportJSON(h, Records(ExportJSON(g))) == Import(ExportJSON(g));
  }

  /** A failed parse changes nothing; a successful one does not depend on the
      grid it replaces. */
  lemma ImportReplacesWholesale(g: Grid, h: Grid, text: Parsed)
    ensures text.Invalid? ==> ImportJSON(g, text) == g
    ensures text.Records? ==> ImportJSON(g, text) == ImportJSON(h, text)
  {
  }

  /** A concrete duplicate: `a` keeps its first place but takes the later kind. */
  lemma ImportDuplicateExample(rs: seq<VoxelData>)
    requires rs == [VoxelData("a", "Tierra"), VoxelData("b", "Agua"), VoxelData("a", "Piedra")]
    ensures Import(rs) == [Entry("a", "Piedra"), Entry("b", "Agua")]
  {
    assert rs[..2][..1] == [VoxelData("a", "Tierra")];
    assert rs[..2] == [VoxelData("a", "Tierra"), VoxelData("b", "Agua")];
    assert Import(rs[..2][..1]) == [Entry("a", "Tierra")];
    assert Import(rs[..2]) == [Entry("a", "Tierra"), Entry("b", "Agua")];
  }

  /** Import checks neither keys nor kinds: any text is stored as given. */
  lemma ImportDoesNotValidate(key: string, kind: Kind)
    ensures Import([VoxelData(key, kind)]) == [Entry(key, kind)]
  {
    assert [VoxelData(key, kind)][..0] == [];
  }
}
