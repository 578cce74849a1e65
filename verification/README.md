# Voxel world of the block builder, in Dafny

This project models the voxel world behind the block-building widget
(`src/components/BlockBuilder.tsx`) and proves properties of it. The widget
keeps its blocks in a JavaScript `Map<string, BlockType>`. Each key is a
coordinate key `"x,y,z"`. Each value is a block kind: "Tierra", "Hierba",
"Piedra", "Madera" or "Agua". The modelled parts are:

- the key codec: `keyOf` joins three numbers with commas, and `parseKey`
  splits on commas and applies `parseInt(_, 10)` to each part (`keys.dfy`,
  module `Keys`);
- the insertion-ordered map, as a list of (key, kind) entries with distinct
  keys. `Map.prototype.set` and `Map.prototype.delete` are `VoxelGrid.Set` and
  `VoxelGrid.Delete` (`grid.dfy`);
- `addVoxel`, `removeVoxel`, the voxel-click and ground-click handlers,
  `clearAll` and the draw list (`builder.dfy`, module `BlockBuilder`). Each
  handler is a pure function of the grid. The selected kind `tipo`, the mode
  and the shift flag are inputs;
- export and import as record lists (`transfer.dfy`, module `Transfer`);
- one editing session: state, user events and the transition function
  (`session.dfy`, module `Session`);
- the ground-height discrepancy and its correction (`ground.dfy`, module
  `GroundKey`; see Findings).

`wrappers.dfy` holds the `Option` type used for `t ?? tipo` and `Map.get`.

Three facts about the code shape the model:

- The widget has no undo and no last-action slot.
- Import validates neither keys nor kinds. Its only failure is an exception
  inside the `try` block.
- A rounded face normal is used as it is, without checking that it is a unit
  step.

## Model

| member | source | states |
|---|---|---|
| Keys.Split | src/components/BlockBuilder.tsx:50 | `split(",")` yields at least one part, no part contains a comma, and the parts joined with commas give back the input |
| Keys.SplitJoin | src/components/BlockBuilder.tsx:46-50 | splitting what comma-free parts joined to gives back exactly those parts |
| Keys.ParseIntStopsAtNonDigit | src/components/BlockBuilder.tsx:50 | `parseInt` reads back any printed integer, negatives included, and stops at the first non-digit whatever follows |
| Keys.ParseIntHalf | src/components/BlockBuilder.tsx:111 | the ground height 0.5 prints as "0.5", which `parseInt` reads as 0 |
| Keys.KeyRoundTrip | src/components/BlockBuilder.tsx:46-52 | `parseKey(keyOf(x,y,z)) == (x,y,z)` for every integer triple, negatives and zero included |
| Keys.GroundKeyTruncated | src/components/BlockBuilder.tsx:109-112 | the ground key `x,0.5,z` parses to (x,0,z) and differs from the key of cell (x,0,z) |
| Keys.KeyOfInjective | src/components/BlockBuilder.tsx:46-48 | distinct integer triples get distinct keys |
| VoxelGrid.IndexOf | src/components/BlockBuilder.tsx:55-56 | a present key has a position holding it, and no earlier entry has that key |
| VoxelGrid.Lookup | src/components/BlockBuilder.tsx:55-56 | a key maps to a kind exactly when it is present, and it maps to the kind of its entry |
| VoxelGrid.Set | src/components/BlockBuilder.tsx:66-67 | after `set`, the key maps to the new kind and other keys are unchanged; a present key keeps its place, a new key is appended |
| VoxelGrid.Delete | src/components/BlockBuilder.tsx:77-78 | after `delete`, the key is absent, other keys keep their kinds, and the size drops by one exactly when the key was present |
| VoxelGrid.WithoutMembers | src/components/BlockBuilder.tsx:77-78 | filtering out a key keeps exactly the entries under other keys |
| VoxelGrid.DeleteKeepsOrder | src/components/BlockBuilder.tsx:77-78 | `delete` leaves the other entries in their original order, same as filtering the key out |
| BlockBuilder.AddVoxel | src/components/BlockBuilder.tsx:62-70 | an occupied cell leaves the grid unchanged and keeps its kind; an empty cell gets kind `t ?? tipo` appended after all entries; the existing prefix and all other keys are unchanged |
| BlockBuilder.RemoveVoxel | src/components/BlockBuilder.tsx:73-81 | an empty cell is a no-op; otherwise only that key is deleted and the remaining entries keep their kinds and order |
| BlockBuilder.HandleVoxelPointer | src/components/BlockBuilder.tsx:84-102 | in `Borrar` mode or with shift, the clicked cell is emptied and nothing is added; in build mode, an occupied cell at + normal leaves the grid unchanged, and an empty one gets a block of kind `tipo` appended after every existing entry |
| BlockBuilder.HandleGroundPointer | src/components/BlockBuilder.tsx:105-113 | in `Borrar` mode nothing changes; otherwise an occupied `gx,0.5,gz` leaves the grid unchanged, and an empty one gets a block of kind `tipo` appended |
| BlockBuilder.ClearAll | src/components/BlockBuilder.tsx:134 | the result holds no key, whatever the grid held |
| BlockBuilder.VoxelEntries | src/components/BlockBuilder.tsx:137 | the draw list has one (key, kind) pair per entry, in iteration order |
| BlockBuilder.AddVoxelIdempotent | src/components/BlockBuilder.tsx:64-65 | adding twice at one cell equals adding once, even when the second add asks for another kind |
| BlockBuilder.RemoveVoxelIdempotent | src/components/BlockBuilder.tsx:75-76 | removing twice at one cell equals removing once |
| BlockBuilder.RemoveUndoesAdd | src/components/BlockBuilder.tsx:62-81 | removing a block just added to an empty cell gives back the original grid |
| BlockBuilder.MissingFaceIsNoOp | src/components/BlockBuilder.tsx:93 | a build click with the fallback zero normal targets the occupied clicked cell and changes nothing |
| BlockBuilder.BuildBesideLoneBlock | src/components/BlockBuilder.tsx:95-101 | a build click on a lone block's face with a non-zero normal keeps that block first and appends the neighbouring cell with kind `tipo` |
| BlockBuilder.AdjacentPlacementExample | src/components/BlockBuilder.tsx:98-101 | a build click at (2,0,3) with normal (0,1,0) appends (2,1,3) and leaves (2,0,3) as it was |
| Transfer.ExportJSON | src/components/BlockBuilder.tsx:116-120 | export yields one `{key,type}` record per entry, in iteration order; an empty grid exports nothing |
| Transfer.ImportJSON | src/components/BlockBuilder.tsx:123-132 | text that fails to parse leaves the grid unchanged; parsed records replace it with a map where each key has the kind of its last record and keys appear in first-occurrence order |
| Transfer.ImportLastWins | src/components/BlockBuilder.tsx:126-127 | in the imported map, each key has the kind of its last record: a later duplicate overwrites an earlier one |
| Transfer.ImportKeyOrder | src/components/BlockBuilder.tsx:126-127 | the imported map lists keys in the order they first appear among the records |
| Transfer.ImportOfExport | src/components/BlockBuilder.tsx:116-127 | rebuilding a map from its own export gives back the same entries in the same order |
| Transfer.ExportImportRoundTrip | src/components/BlockBuilder.tsx:116-131 | importing the export of M gives M, order included, whatever grid the import replaces |
| Transfer.ImportReplacesWholesale | src/components/BlockBuilder.tsx:124-131 | a failed import keeps the grid; a successful one does not depend on the grid it replaces (no merge) |
| Transfer.ImportDuplicateExample | src/components/BlockBuilder.tsx:127 | records a/Tierra, b/Agua, a/Piedra import as a/Piedra then b/Agua |
| Transfer.ImportDoesNotValidate | src/components/BlockBuilder.tsx:125-127 | any key text and any kind text are stored as given |
| Session.Step | src/components/BlockBuilder.tsx:56-134 | each event changes only its own part of the state: the selector sets `tipo`, the mode buttons set the mode, export writes the exported records into the text box and a text edit writes the typed text, and only clicks, import and clear change the grid. A voxel click in `Borrar` mode or with shift filters out the clicked key. A build-mode voxel click leaves the grid as it is when cell at + normal is occupied, and otherwise appends it with the current `tipo`. A ground click changes nothing in `Borrar` mode; in build mode it leaves the grid as it is when `gx,0.5,gz` is present, and otherwise appends it with `tipo`. Import keeps the grid when the text does not parse; otherwise each key gets the kind of its last record, and keys follow their first occurrence among the records. Clear leaves no key |
| Session.ExportThenImport | src/components/BlockBuilder.tsx:116-132 | pressing export and then import leaves the grid unchanged |
| Session.StepKeepsPalette | src/components/BlockBuilder.tsx:160-170 | clicks, mode and kind choices, text edits, export and clear keep the selection and every stored kind within the five palette names |
| Session.RunKeepsPalette | src/components/BlockBuilder.tsx:160-170 | a session without import only ever stores palette kinds |
| Session.FreshSessionKeepsPalette | src/components/BlockBuilder.tsx:56-59 | a session started empty with "Hierba" selected that never imports only ever stores palette kinds |
| Session.ImportAdmitsForeignKind | src/components/BlockBuilder.tsx:125-128 | importing a record with kind "Lava" stores a kind outside the palette |
| GroundKey.GroundBlockSurvivesDeleteClick | src/components/BlockBuilder.tsx:105-113 | a ground-placed block is drawn at height 0, and a delete click there leaves it in the grid |
| GroundKey.GroundClickDoublesCell | src/components/BlockBuilder.tsx:109-112 | at the level of the handler functions, a ground click beside a height-0 block built from a side face adds a second block drawn in the same cell |
| GroundKey.SideBuildReachesHeightZero | src/components/BlockBuilder.tsx:95-101 | a side-face build from a ground block occupies the height-0 neighbour and keeps the ground block |
| GroundKey.GroundClickLeavesCellKeys | src/components/BlockBuilder.tsx:111-112 | after a ground click the grid holds a key that is not an integer cell key |
| GroundKey.HandleGroundPointerFixed | src/components/BlockBuilder.tsx:104-113 | corrected ground click: in `Borrar` mode nothing changes; otherwise an occupied cell (gx,0,gz) leaves the grid unchanged, and an empty one gets a block of kind `tipo` appended |
| GroundKey.FixedGroundBlockRemovable | src/components/BlockBuilder.tsx:104-113 | with the corrected ground click the block is drawn at its own cell, and a delete click there restores the grid |
| GroundKey.VecKeyIsCellKey | src/components/BlockBuilder.tsx:46-52 | the key of an integer triple is an integer cell key |
| GroundKey.GrowKeepsCellKeys | src/components/BlockBuilder.tsx:62-69 | a grid that only gains cell keys at its end stays cell-keyed |
| GroundKey.CellKeyedDrawsDistinctCells | src/components/BlockBuilder.tsx:219-225 | when every key is an integer cell key, no two blocks are drawn in the same cell |
| GroundKey.VoxelClickKeepsCellKeys | src/components/BlockBuilder.tsx:84-102 | voxel clicks, building or deleting, keep every key an integer cell key |
| GroundKey.FixedGroundClickKeepsCellKeys | src/components/BlockBuilder.tsx:104-113 | the corrected ground click keeps every key an integer cell key |

## Left out

- Undo and a last-action slot: the code has neither.
- Validation of imported keys and kinds: the code has none. `Transfer.ImportDoesNotValidate` and `Session.ImportAdmitsForeignKind` state this.
- JSON text: `JSON.stringify` and `JSON.parse` are library calls. The text box is modelled as decoded records (`Transfer.Parsed`). Every exception in the `try` block of `importJSON` becomes `Invalid`. That covers text that is not JSON, a top-level value that is not iterable, and a `null` entry.
- Session.ExportThenImport: assumes that `JSON.parse(JSON.stringify(records))` gives the records back.
- Transfer.VoxelData: records carry string keys and kinds. JSON values of other types are not modelled: numbers, missing fields (read as `undefined`), and the characters a top-level JSON string would iterate over.
- The `alert` on a failed import is a browser dialog and is not modelled.
- React plumbing: `useState`, `useCallback`, `useMemo` and functional updaters. Each handler is a pure transition that gets `tipo`, the mode and the shift flag as inputs.
- three.js picking: `applyNormalMatrix`, `getNormalMatrix`, and `Math.round` of float normals, hit points and mesh positions. The handlers take the rounded integer position and normal. A NaN position, which `Math.round` yields for a voxel with an unparsable key, is not modelled. Which object a click reaches first (occlusion, `stopPropagation`) is not modelled either.
- Keys.ShowInt: prints every integer in plain decimal. JavaScript numbers lose precision beyond 2^53 and print in exponent notation from 1e21 on, so the key round trip is proved for unbounded integers rather than for doubles.
- Keys.IsSpace: lists the Unicode space separators (category Zs) as of Unicode 15; a character added to that category later is not covered.
- Keys.Component: JavaScript's `-0` (from `parseInt("-0")`) is the integer 0.
- Rendering: `Voxel`, `Canvas`, `Grid`, lights, `OrbitControls` and the `BLOCK_COLOR` colours. Blocks drawn half below the ground plane are not modelled either.
- The rest of the repository (globe, water cycle, click counter, navigation, views, routes and tests) has no voxel-world logic and is not part of this model.
- Session.Step: uses the ground handler as written. The corrected handler, `GroundKey.HandleGroundPointerFixed`, is stated and proved beside it.

## Findings

| source | as written | input that shows it | evidently intended | confidence | as-written member | corrected member |
|---|---|---|---|---|---|---|
| src/components/BlockBuilder.tsx:111 | a ground click stores the key `gx,0.5,gz`, but the block is drawn at `parseKey` of that key, height 0; a delete click on the drawn block targets key `gx,0,gz` and changes nothing | empty grid; build-mode ground click at (2,3); then a `Borrar` click on the drawn block at (2,0,3): the grid still holds `2,0.5,3` | the ground cell is stored at height 0, as the comment on line 104 says ("place on grid at y=0"), so clicking the drawn block deletes it | high (not executed) | GroundKey.GroundBlockSurvivesDeleteClick | GroundKey.FixedGroundBlockRemovable |
| src/components/BlockBuilder.tsx:109-112 | the ground handler stores `x,0.5,z` while the voxel handler stores `x,0,z`; the two keys differ but are drawn in the same cell, so the handler functions can put two blocks in one drawn cell | a grid holding `3,0,3` (for example built from the +x face of a block drawn at (2,0,3)); the ground handler called at (3,3) adds `3,0.5,3`, and both are drawn at (3,0,3). This is shown for the handler functions only, not for real clicks: every ground point that rounds to (3,3) lies under the block drawn at (3,0,3), which picking reaches first, and `handleVoxelPointer` stops propagation (line 85) | every block is stored under its integer cell key, so no two blocks share a drawn cell | medium (not executed; not shown reachable through clicks) | GroundKey.GroundClickDoublesCell | GroundKey.FixedGroundClickKeepsCellKeys |
