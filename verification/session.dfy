/**
  One editing session of the block builder: the grid, the selected kind, the
  mode and the export text box, and the user events that change them.
 */
module Session {
  import opened Keys
  import opened VoxelGrid
  import opened BlockBuilder
  import opened Transfer

  datatype State = State(voxels: Grid, tipo: Kind, mode: Mode, exportText: Parsed)

  datatype Event =
    | SetMode(m: Mode)
    | SelectKind(t: Kind)
    | EditText(text: Parsed)
    | VoxelClick(at: Vec, normal: Vec, shift: bool)
    | GroundClick(gx: int, gz: int)
    | ExportClick
    | ImportClick
    | ClearClick

  /** An empty grid, "Hierba" selected, build mode, and an empty text box,
      which `JSON.parse` rejects. */
  const Initial := State([], Hierba, Construir, Invalid)

  /** The kind selector only offers the palette. */
  predicate ValidEvent(e: Event) {
    e.SelectKind? ==> IsBlockType(e.t)
  }

  function Step(s: State, e: Event): (r: State)
    ensures r.tipo == if e.SelectKind? then e.t else s.tipo
    ensures r.mode == if e.SetMode? then e.m else s.mode
    ensures e.ExportClick? ==> r.exportText == Records(ExportJSON(s.voxels))
    ensures e.EditText? ==> r.exportText == e.text
    ensures !e.ExportClick? && !e.EditText? ==> r.exportText == s.exportText
    ensures !(e.VoxelClick? || e.GroundClick? || e.ImportClick? || e.ClearClick?) ==> r.voxels == s.voxels
    ensures e.ClearClick? ==> forall k :: !Has(r.voxels, k)
    ensures e.VoxelClick? && (s.mode == Borrar || e.shift) ==>
      !Has(r.voxels, e.at.Key()) && r.voxels == Without(s.voxels, e.at.Key())
    ensures e.VoxelClick? && s.mode == Construir && !e.shift && Has(s.voxels, e.at.Plus(e.normal).Key()) ==>
      r.voxels == s.voxels
    ensures e.VoxelClick? && s.mode == Construir && !e.shift && !Has(s.voxels, e.at.Plus(e.normal).Key()) ==>
      r.voxels == s.voxels + [Entry(e.at.Plus(e.normal).Key(), s.tipo)]
    ensures e.GroundClick? && s.mode == Borrar ==> r.voxels == s.voxels
    ensures e.GroundClick? && s.mode == Construir && Has(s.voxels, KeyOf(Int(e.gx), Half, Int(e.gz))) ==>
      r.voxels == s.voxels
    ensures e.GroundClick? && s.mode == Construir && !Has(s.voxels, KeyOf(Int(e.gx), Half, Int(e.gz))) ==>
      r.voxels == s.voxels + [Entry(KeyOf(Int(e.gx), Half, Int(e.gz)), s.tipo)]
    ensures e.ImportClick? && s.exportText.Invalid? ==> r.voxels == s.voxels
    ensures e.ImportClick? && s.exportText.Records? ==>
      forall k :: Lookup(r.voxels, k) == LastKind(s.exportText.records, k)
    ensures e.ImportClick? && s.exportText.Records? ==>
      KeysOf(r.voxels) == FirstOccurrences(s.exportText.records)
  {
    match e
    case SetMode(m) => s.(mode := m)
    case SelectKind(t) => s.(tipo := t)
    case EditText(text) => s.(exportText := text)
    case VoxelClick(at, normal, shift) =>
      s.(voxels := HandleVoxelPointer(s.voxels, s.mode, shift, s.tipo, at, normal))
    case GroundClick(gx, gz) => s.(voxels := HandleGroundPointer(s.voxels, s.mode, s.tipo, gx, gz))
    case ExportClick => s.(exportText := Records(ExportJSON(s.voxels)))
    case ImportClick => s.(voxels := ImportJSON(s.voxels, s.exportText))
    case ClearClick => s.(voxels := ClearAll(s.voxels))
  }

  function Run(s: State, es: seq<Event>): State
    decreases |es|
  {
    if |es| == 0 then s else Run(Step(s, es[0]), es[1..])
  }

  /** Pressing export and then import leaves the grid as it was. */
  lemma ExportThenImport(s: State)
    ensures Step(Step(s, ExportClick), ImportClick) == s.(exportText := Records(ExportJSON(s.voxels)))
  {
    ExportImportRoundTrip(s.voxels, s.voxels);
  }

  /** Every stored kind is one of the palette's, and so is the selection. */
  predicate PaletteOnly(s: State) {
    && IsBlockType(s.tipo)
    && forall i :: 0 <= i < |s.voxels| ==> IsBlockType(s.voxels[i].kind)
  }

  /** Clicks, clearing and export only ever store palette kinds. */
  lemma StepKeepsPalette(s: State, e: Event)
    requires PaletteOnly(s) && ValidEvent(e) && !e.ImportClick?
    ensures PaletteOnly(Step(s, e))
  {
    match e
    case VoxelClick(at, normal, shift) =>
      if s.mode == Borrar || shift {
        var r := Step(s, e).voxels;
        WithoutMembers(s.voxels, at.Key());
        forall i | 0 <= i < |r|
          ensures IsBlockType(r[i].kind)
        {
          assert r[i] in s.voxels;
        }
      }
    case _ =>
  }

  /** A session that never imports only holds palette kinds. */
  lemma {:induction false} RunKeepsPalette(s: State, es: seq<Event>)
    requires PaletteOnly(s)
    requires forall i :: 0 <= i < |es| ==> ValidEvent(es[i]) && !es[i].ImportClick?
    ensures PaletteOnly(Run(s, es))
    decreases |es|
  {
    if |es| > 0 {
      StepKeepsPalette(s, es[0]);
      RunKeepsPalette(Step(s, es[0]), es[1..]);
    }
  }

  /** A session started from the initial state and never importing only
      holds palette kinds. */
  lemma FreshSessionKeepsPalette(es: seq<Event>)
    requires forall i :: 0 <= i < |es| ==> ValidEvent(es[i]) && !es[i].ImportClick?
    ensures PaletteOnly(Run(Initial, es))
  {
    assert PaletteOnly(Initial);
    RunKeepsPalette(Initial, es);
  }

  /** Import alone breaks that: it stores a kind outside the palette as given. */
  lemma ImportAdmitsForeignKind(s: State)
    requires s.exportText == Records([VoxelData("0,0,0", "Lava")])
    ensures !PaletteOnly(Step(s, ImportClick))
  {
    ImportDoesNotValidate("0,0,0", "Lava");
  }
}
