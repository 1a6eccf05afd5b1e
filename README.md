# Label generator — a verified model

This project models the core of the label generator, a browser application that does four things:

- It designs a label: a size, a unit, padding, a border and six positionable elements. The elements are a QR code, a short UUID, a custom text, a company name, a product name and a logo.
- It generates a batch of labels that share that design. Each label gets its own id and UUID.
- It lets the user select, edit, duplicate, delete, search and import labels.
- It exports the chosen labels to a PDF, either one label per page or packed in a grid on pages of a chosen size.

The model is written in Dafny and follows the application's structure:

| file | models |
|---|---|
| `wrappers.dfy` | `Option` |
| `numbers.dfy` | JavaScript number and string primitives: truncating `%`, `Math.round`, `substring(0, n)`, `endsWith`, `includes`, ASCII `toLowerCase` |
| `types.dfy` | the data model (`src/types.ts`) |
| `geometry.dfy` | `src/utils.ts`: scale factors, element bounds, overlap, clamping, collision-free placement |
| `label_store.dfy` | the `useLabels` hook: batch generation and the three update operations |
| `pdf_export.dfy` | the `usePdfExport` hook: the PDF builder as a class, the grid-packing loop and the one-per-page loop |
| `generated_labels.dfy` | the generated-labels screen: selection, bulk edit, duplication, deletion, search, PDF type |
| `label_editor.dfy` | the label editor: element patches, padding and spacing, dragging, save and cancel |
| `app.dfy` | the four-step wizard and the state it keeps between steps |
| `import_labels.dfy` | the JSON import modal and its validation |
| `logo_uploader.dfy` | the logo uploader: file checks, rotation, removal, resizing with the aspect ratio kept |
| `element_controls.dfy` | the per-element numeric inputs: text buffers, forwarding and blur repair |
| `rotation_control.dfy` | the 90° rotation button |
| `progress.dfy` | the progress indicator: percentage and remaining-time text |

The React components and hooks whose state changes step by step are classes whose methods state their whole new state:

- `PdfDocument` for the jsPDF document;
- `Editor`, `GeneratedLabelsScreen`, `AppState`, `ImportModal`, `Uploader` and `Controls` for the components;
- `LabelsHook` for the `useLabels` hook.

Each method is tied to a pure function on the old state, and the properties are lemmas about those functions. The export loops are methods with loop invariants. Each is proved against a reference layout: `PackedPlacement` for the grid, and the identity placement for one label per page.

The following browser inputs become parameters:

- random UUIDs are sequences of ids;
- `parseFloat` results are `Option<real>` values, where `None` stands for NaN;
- pointer positions are coordinates relative to the editor;
- a dropped or chosen file is its name, MIME type and size, or its parsed JSON.

Where the code and its documentation differ, the model follows the code. The multi-label export converts inches with the centimetre factor (`PdfExport.InchesConvertedAsCentimetres`). The one-per-page export always uses the millimetre factor and swaps width and height of the first page when the label is portrait (`PdfExport.SingleFirstFormat`). The bulk "update all" operation takes the template's element positions (`LabelStore.UpdateAllTakesTemplatePositions`).

## Model

| member | source | states |
|---|---|---|
| JsNumbers.Trunc | src/components/ProgressIndicator.tsx:26 | truncation toward zero lies within one unit of its argument, on the side of zero |
| JsNumbers.JsRem | src/components/RotationControl.tsx:11 | JavaScript `%` keeps the dividend's sign: in [0, b) for a non-negative dividend, in (-b, 0] for a negative one |
| JsNumbers.JsRemQuotient | src/components/RotationControl.tsx:11 | the remainder differs from the dividend by an integer multiple of the divisor |
| JsNumbers.RemUnique | src/components/RotationControl.tsx:11 | for a non-negative dividend, any integer multiple that leaves a remainder in [0, b) gives exactly JavaScript's remainder |
| JsNumbers.Round | src/components/ProgressIndicator.tsx:21 | `Math.round` returns the integer nearest its argument, halves rounding up |
| JsNumbers.Prefix | src/hooks/useLabels.ts:20 | `substring(0, n)` is a prefix of the string whose length is n clamped into [0, length] |
| JsNumbers.IncludesIff | src/components/GeneratedLabels.tsx:160-165 | `includes` holds exactly when the needle occurs at some offset of the string |
| JsNumbers.IncludesEmpty | src/components/GeneratedLabels.tsx:160-165 | every string includes the empty string |
| JsNumbers.LowerChar | src/components/GeneratedLabels.tsx:162-164 | each upper-case ASCII letter maps to its own lower-case letter, at the same offset in the alphabet, and every other character is unchanged |
| JsNumbers.ToLower | src/components/GeneratedLabels.tsx:162-164 | lower-casing keeps the length and maps each character on its own |
| JsNumbers.ToLowerIdempotent | src/components/GeneratedLabels.tsx:162-164 | lower-casing twice equals lower-casing once |
| Types.AllKeysComplete | src/App.tsx:30-93 | every element key is among the six keys the application's default elements declare: the five of the `LabelElements` interface and the logo |
| Types.LabelElements.Set | src/components/LabelEditor.tsx:55-63 | replacing one element changes the entry under that key and keeps every other entry |
| Types.ElementsExtensional | src/components/LabelEditor.tsx:55-63 | two element objects that agree under every key are equal |
| Geometry.ScaleFactor | src/utils.ts:3-10 | the pixels-per-unit factor is 3.779528 for mm, 37.79528 for cm and 96 for in, and every other unit falls back to the millimetre factor |
| Geometry.CentimetreIsTenMillimetres | src/utils.ts:3-10 | the centimetre factor is ten times the millimetre factor |
| Geometry.OrSize | src/utils.ts:13 | `width \|\| size` takes the width unless it is absent or zero |
| Geometry.EffectivePadding | src/utils.ts:46 | `padding \|\| 0` is the padding when one is set and 0 when it is absent |
| Geometry.ElementBounds | src/utils.ts:12-23 | the bounds start at the element's position, and their extent times the scale is the element's pixel width and size |
| Geometry.BoxAt | src/utils.ts:110-115 | the test box starts at the given point and has the given extent |
| Geometry.Overlaps | src/utils.ts:25-32 | two boxes overlap exactly when their open horizontal extents intersect and their open vertical extents intersect |
| Geometry.OverlapsSymmetric | src/utils.ts:25-32 | overlap does not depend on the order of the two boxes |
| Geometry.TouchingBoxesDoNotOverlap | src/utils.ts:25-32 | boxes that only share an edge do not overlap |
| Geometry.OverlapsIffCommonInteriorPoint | src/utils.ts:25-32 | two proper boxes overlap exactly when some point lies strictly inside both |
| Geometry.ConstrainPosition | src/utils.ts:34-63 | with elements allowed outside, the position is unchanged; otherwise each coordinate is clamped into [padding, dimension − extent − padding]: a coordinate inside is kept, one at or below the padding becomes the padding, one at or above the limit becomes the limit, and when the element does not fit it is pinned to the padding |
| Geometry.ConstrainIdempotent | src/utils.ts:34-63 | clamping an already clamped position changes nothing |
| Geometry.ConstrainedBoxInsidePaddedLabel | src/utils.ts:34-63 | when the element fits, its whole box lies inside the padded label area |
| Geometry.NonOverlappingPosition | src/utils.ts:65-135 | the reference position is the element's own position, one of the 121 grid points, or the clamped position, and it is the own position whenever collisions are off or elements may go outside |
| Geometry.FirstFreeCellIsFirst | src/utils.ts:103-131 | the grid search returns a free cell and no earlier cell in scan order is free, or it reports that no cell is free |
| Geometry.FirstFreeCellOf | src/utils.ts:103-131 | conversely, the first free cell in scan order is what the search returns, and no free cell means no result |
| Geometry.FoundCellIsFirst | src/utils.ts:103-131 | the cell the search finds lies in the 11 x 11 grid and is free, every cell of the earlier rows is blocked, and so is every earlier cell of its row |
| Geometry.NoCellFree | src/utils.ts:103-133 | when the search finds nothing, all 121 grid cells are blocked |
| Geometry.NonOverlappingPositionMeaning | src/utils.ts:65-135 | the position is kept when collisions are off, elements may go outside, or nothing enabled overlaps; otherwise it is the first free grid cell in i-then-j order, whose box overlaps no enabled element, or the clamped position when every one of the 121 cells is blocked |
| Geometry.GridPointInsideInterior | src/utils.ts:99-108 | when the element fits, every grid point lies between the padding and the far limit on both axes |
| Geometry.BlockedIgnoresDisabled | src/utils.ts:79-86 | a disabled element never blocks a box |
| Geometry.FirstFreeCellIgnoresDisabled | src/utils.ts:118-125 | adding a disabled element leaves the grid search's result unchanged |
| Geometry.NonOverlappingIgnoresDisabled | src/utils.ts:65-135 | adding a disabled element leaves the chosen position unchanged |
| Geometry.AnyEnabledOverlap | src/utils.ts:75-86 | the early-exit scan reports an overlap exactly when some enabled element overlaps the box |
| Geometry.ScanStep | src/utils.ts:103-128 | in scan order, a free cell is where the search stops and a blocked one passes the search on to the next cell |
| Geometry.TestCell | src/utils.ts:105-125 | the candidate point is grid point (i, j), and it is accepted exactly when that cell's box overlaps no enabled element |
| Geometry.ScanRow | src/utils.ts:104-130 | the inner `j` loop returns the first free cell of row `i` in scan order, or passes the search on to the next row |
| Geometry.ScanGrid | src/utils.ts:103-131 | the nested grid loop finds the first free grid point, or none |
| Geometry.FindNonOverlappingPosition | src/utils.ts:65-135 | the imperative search returns the reference position `NonOverlappingPosition` |
| LabelStore.NewLabel | src/hooks/useLabels.ts:21-38 | one generated label has the given id and uuid, a short uuid that is the uuid's prefix of length uuidLength clamped into [0, the uuid's length], the given size, elements, company name and prefix, and an empty product name and text |
| LabelStore.BatchSize | src/hooks/useLabels.ts:16 | the length `Array.from` takes from `quantity` is the quantity itself, or 0 for a negative one: the least natural number not below it |
| LabelStore.GenerateList | src/hooks/useLabels.ts:16-42 | the batch has `quantity` labels (none for a negative quantity); label i has the i-th id and uuid, the shared size, elements, company name and prefix, an empty product name and text, and a short uuid cut from its own uuid |
| LabelStore.Ids | src/hooks/useLabels.ts:45-56 | the id list follows the labels index by index |
| LabelStore.Uuids | src/hooks/useLabels.ts:16-42 | the uuid list follows the labels index by index |
| LabelStore.GeneratedIdentifiersDistinct | src/hooks/useLabels.ts:16-42 | distinct random ids and uuids give a batch whose ids and uuids are pairwise distinct |
| LabelStore.GeneratedShortUuidIsPrefix | src/hooks/useLabels.ts:20 | each short uuid is a prefix of its own uuid, of length min(uuidLength, length of the uuid) |
| LabelStore.UpdateLabelList | src/hooks/useLabels.ts:45-56 | the label with the updated id is replaced, and every other label is kept in place |
| LabelStore.UpdateLabelListFacts | src/hooks/useLabels.ts:45-56 | updating keeps the id sequence, is idempotent, and changes nothing when no label has that id |
| LabelStore.UpdateAllOne | src/hooks/useLabels.ts:58-89 | id, uuid, short uuid and product name are kept; elements, size, company name, text and prefix are taken from the update where it gives them |
| LabelStore.UpdateAllList | src/hooks/useLabels.ts:58-89 | every label is updated in place with the same update |
| LabelStore.KeepPositions | src/hooks/useLabels.ts:102-111 | every element keeps the label's own position and otherwise takes the update's element |
| LabelStore.CloneKeepingPositions | src/hooks/useLabels.ts:104-110 | the per-key loop computes `KeepPositions` |
| LabelStore.UpdateSelectedOne | src/hooks/useLabels.ts:91-133 | an unselected label is unchanged; a selected one keeps its identifiers and element positions and takes the rest of the update |
| LabelStore.UpdateSelectedList | src/hooks/useLabels.ts:91-133 | every label is updated in place with the same selection and update |
| LabelStore.BulkUpdateKeepsInstanceData | src/hooks/useLabels.ts:91-133 | when every label is selected, a bulk update keeps each label's identifiers and element positions |
| LabelStore.UpdateAllTakesTemplatePositions | src/hooks/useLabels.ts:65-67 | unlike the selected-label update, "update all" gives every label the template's element positions |
| LabelStore.LabelsHook.constructor | src/hooks/useLabels.ts:6 | the hook starts with no labels |
| LabelStore.LabelsHook.GenerateLabels | src/hooks/useLabels.ts:8-43 | the hook's labels become the generated batch, which is also returned |
| LabelStore.LabelsHook.UpdateLabel | src/hooks/useLabels.ts:45-56 | the labels become `UpdateLabelList` of the old labels |
| LabelStore.LabelsHook.UpdateAllLabels | src/hooks/useLabels.ts:58-89 | the labels become `UpdateAllList` of the old labels |
| LabelStore.LabelsHook.UpdateSelectedLabels | src/hooks/useLabels.ts:91-133 | the labels become `UpdateSelectedList` of the old labels |
| PdfExport.ConvertToPt | src/hooks/usePdfExport.ts:203-206 | millimetres are scaled by 2.835 and every other unit by the centimetre factor 28.35 |
| PdfExport.InchesConvertedAsCentimetres | src/hooks/usePdfExport.ts:203-206 | an inch value is converted exactly like the same value in centimetres: one inch becomes 28.35 pt |
| PdfExport.GridFor | src/hooks/usePdfExport.ts:208-218 | the page width and height, the four margins and the spacing are converted to points in the page settings' unit, and the label width and height in the first label's own unit |
| PdfExport.LabelsPerRow | src/hooks/usePdfExport.ts:219-221 | the labels per row are the floor of (available width + spacing) / (label width + spacing) |
| PdfExport.LabelsPerColumn | src/hooks/usePdfExport.ts:220-222 | the labels per column are the floor of (available height + spacing) / (label height + spacing) |
| PdfExport.PerPage | src/hooks/usePdfExport.ts:220-223 | a packable grid holds at least one label per page |
| PdfExport.ColumnFitsOnPage | src/hooks/usePdfExport.ts:220-222 | every column the per-row count admits ends inside the right margin |
| PdfExport.RowFitsOnPage | src/hooks/usePdfExport.ts:221-223 | every row the per-column count admits ends inside the bottom margin |
| PdfExport.CellOf | src/hooks/usePdfExport.ts:238-286 | the page, row and column the packing loop gives label k; `CellOfMeaning` and `CellOfUnique` state what they are |
| PdfExport.CellOfMeaning | src/hooks/usePdfExport.ts:238-286 | label k lands on page k / perPage, in a row and column inside the grid, with k recoverable from the cell |
| PdfExport.CellOfUnique | src/hooks/usePdfExport.ts:246-250 | each grid cell of each page receives exactly one label index |
| PdfExport.PageCountIsCeiling | src/hooks/usePdfExport.ts:238-286 | the number of pages is the ceiling of labels / perPage: enough pages, and no empty last page |
| PdfExport.A4Example | src/hooks/usePdfExport.ts:202-286 | a 100×50 mm label on an A4 page with 10 mm margins and 2 mm spacing packs 1 per row and 5 per column |
| PdfExport.PdfDocument.constructor | src/hooks/usePdfExport.ts:225-229 | a new document has its first page in the given format and no images |
| PdfExport.PdfDocument.AddPage | src/hooks/usePdfExport.ts:243 | a page in the given format is appended, and the images are kept |
| PdfExport.PdfDocument.AddImage | src/hooks/usePdfExport.ts:271-280 | an image is drawn on the last page at the given place and size |
| PdfExport.PdfDocument.Save | src/hooks/usePdfExport.ts:288 | the document is saved under the given name, and its contents are kept |
| PdfExport.PassPlacedExtend | src/hooks/usePdfExport.ts:247-283 | drawing the next label at its row and column extends the page's placements by one |
| PdfExport.PlaceLabel | src/hooks/usePdfExport.ts:247-283 | drawing the current label at (marginLeft + col·(labelWidth + spacing), marginTop + row·(labelHeight + spacing)) adds exactly its packed placement to the page's images |
| PdfExport.FillRow | src/hooks/usePdfExport.ts:247-283 | the inner column loop places the row's labels left to right, stopping at the row's end or the last label |
| PdfExport.FillPage | src/hooks/usePdfExport.ts:246-285 | one page pass places min(perPage, labels left) labels in row-major order |
| PdfExport.PassContinuesLayout | src/hooks/usePdfExport.ts:241-286 | a page pass extends the packed prefix of the layout by the labels it placed |
| PdfExport.PassIndexIsPacked | src/hooks/usePdfExport.ts:246-280 | the i-th label of page p's pass is the packed placement of label p·perPage + i |
| PdfExport.ExportMultipleLabelsPerPage | src/hooks/usePdfExport.ts:202-291 | label k is drawn at cell `CellOf(k)` at the label's size; there are ceil(n / perPage) portrait pages of the chosen size; the file is saved as labels.pdf |
| PdfExport.SingleWidthPt | src/hooks/usePdfExport.ts:297-298 | the one-per-page width is the first label's width times the millimetre factor 2.835, whatever its unit; `SingleFirstFormat` and `ExportSingleLabelPerPage` use it |
| PdfExport.SingleHeightPt | src/hooks/usePdfExport.ts:297-299 | the one-per-page height is the first label's height times 2.835, whatever its unit |
| PdfExport.SingleOrientation | src/hooks/usePdfExport.ts:299 | the page is landscape exactly when the label is wider than it is high |
| PdfExport.SingleFirstFormat | src/hooks/usePdfExport.ts:301-305 | the first page carries the label's orientation, with its width and height swapped when the label is portrait |
| PdfExport.ExportSingleLabelPerPage | src/hooks/usePdfExport.ts:294-358 | one page per label; label i fills page i at the origin at the label's size in points; later pages have the label's size and orientation; the file is saved as labels.pdf |
| PdfExport.ExportToPdf | src/hooks/usePdfExport.ts:9-20 | nothing is exported for an empty selection; a multiple-type export with page settings packs the labels, and any other export puts one label per page |
| GeneratedLabels.BulkUpdateOne | src/components/GeneratedLabels.tsx:51-65 | a selected label, or any label while editing all, takes the edited label's elements, size and company name and keeps every other field; other labels are unchanged |
| GeneratedLabels.BulkUpdateList | src/components/GeneratedLabels.tsx:51-65 | each label is updated in place |
| GeneratedLabels.BulkUpdateKeepsIdentity | src/components/GeneratedLabels.tsx:51-65 | a bulk edit keeps every label's id, uuid, short uuid, product name, prefix and text, and changes a company name only on a label it affects |
| GeneratedLabels.RemoveId | src/components/GeneratedLabels.tsx:67-74 | removing an id keeps every other selected id and drops that one |
| GeneratedLabels.RemoveAbsentId | src/components/GeneratedLabels.tsx:67-74 | removing an id that is not selected changes nothing |
| GeneratedLabels.ToggleSelection | src/components/GeneratedLabels.tsx:67-74 | the toggled id is selected afterwards exactly when it was not before, and every other id keeps its status |
| GeneratedLabels.ToggleTwice | src/components/GeneratedLabels.tsx:67-74 | toggling twice restores the selected set, and restores the exact list when the id was not selected |
| GeneratedLabels.RemoveAppended | src/components/GeneratedLabels.tsx:67-74 | toggling off an id that was just toggled on restores the list |
| GeneratedLabels.Selected | src/components/GeneratedLabels.tsx:87-89 | the filter keeps exactly the labels whose id is selected |
| GeneratedLabels.Unselected | src/components/GeneratedLabels.tsx:102-108 | the filter keeps exactly the labels whose id is not selected |
| GeneratedLabels.FiltersDistribute | src/components/GeneratedLabels.tsx:86-108 | both filters distribute over concatenation, so they keep the labels' order |
| GeneratedLabels.FiltersPartition | src/components/GeneratedLabels.tsx:86-108 | the duplicated and the surviving labels together are a permutation of all labels |
| GeneratedLabels.UnselectedOfNothing | src/components/GeneratedLabels.tsx:102-108 | deleting with nothing selected keeps every label |
| GeneratedLabels.DuplicateOf | src/components/GeneratedLabels.tsx:76-84 | the copy has fresh ids and a short uuid cut from a separate source, at the original's length, and is otherwise the original |
| GeneratedLabels.DuplicateLabelList | src/components/GeneratedLabels.tsx:76-84 | the copy is appended after all existing labels |
| GeneratedLabels.DuplicateKeepsIdsDistinct | src/components/GeneratedLabels.tsx:76-84 | with a fresh id, duplicating keeps the ids pairwise distinct |
| GeneratedLabels.DuplicateSelectedList | src/components/GeneratedLabels.tsx:86-100 | after the existing labels come copies of the selected labels, one each, in their order |
| GeneratedLabels.DuplicatesAreCopiesOfSelected | src/components/GeneratedLabels.tsx:86-100 | the i-th appended label is the i-th selected label with new identifiers |
| GeneratedLabels.StartedEditing | src/components/GeneratedLabels.tsx:110-130 | editing opens on the given non-empty id alone; with none given, it opens on the current selection, or on all labels when nothing is selected |
| GeneratedLabels.StartEditingScope | src/components/GeneratedLabels.tsx:110-130 | the bulk update then reaches exactly the given label, the selection, or every label |
| GeneratedLabels.StoppedEditing | src/components/GeneratedLabels.tsx:132-138 | stopping closes the editor and clears the selection and the edit-all flag |
| GeneratedLabels.ExportSelection | src/components/GeneratedLabels.tsx:140-145 | the selected labels are exported, or all labels when nothing is selected |
| GeneratedLabels.Search | src/components/GeneratedLabels.tsx:160-165 | the search keeps exactly the labels that match the term; `SearchDistributes` and `SearchSingle` give its order and multiplicity |
| GeneratedLabels.SearchDistributes | src/components/GeneratedLabels.tsx:160-165 | the search distributes over concatenation, so it keeps the labels' order |
| GeneratedLabels.SearchSingle | src/components/GeneratedLabels.tsx:160-165 | a single label is kept exactly when it matches; with `SearchDistributes` this fixes the result, duplicates included, on every list |
| GeneratedLabels.FilteredLabels | src/components/GeneratedLabels.tsx:160-165 | an empty term shows every label; otherwise exactly the matching ones |
| GeneratedLabels.FilteredDistributes | src/components/GeneratedLabels.tsx:160-165 | the shown list distributes over concatenation and keeps a single label exactly when it matches, so it keeps order and multiplicity |
| GeneratedLabels.Matches | src/components/GeneratedLabels.tsx:161-164 | the search predicate on lower-cased product name and short uuid; `MatchesMeaning` states it as an occurrence |
| GeneratedLabels.MatchesMeaning | src/components/GeneratedLabels.tsx:160-165 | a label matches exactly when the lower-cased term occurs in its lower-cased product name or its lower-cased short uuid |
| GeneratedLabels.SearchIgnoresCase | src/components/GeneratedLabels.tsx:160-165 | searching for the lower-cased term gives the same labels |
| GeneratedLabels.SearchSameTerm | src/components/GeneratedLabels.tsx:160-165 | two terms with the same lower-case form find the same labels |
| GeneratedLabels.PdfTypeChange | src/components/GeneratedLabels.tsx:147-158 | the type is set; switching to multiple without page settings installs the A4 defaults and opens the settings panel; nothing else changes |
| GeneratedLabels.MultipleAlwaysHasPageSettings | src/components/GeneratedLabels.tsx:147-158 | after switching to multiple, page settings are always present |
| GeneratedLabels.GeneratedLabelsScreen.constructor | src/components/GeneratedLabels.tsx:25-31 | the screen starts with no selection, closed editor and an empty search |
| GeneratedLabels.GeneratedLabelsScreen.HandleLabelUpdate | src/components/GeneratedLabels.tsx:44-49 | the labels become `UpdateLabelList` of the old ones |
| GeneratedLabels.GeneratedLabelsScreen.HandleBulkUpdate | src/components/GeneratedLabels.tsx:51-65 | the labels become `BulkUpdateList` under the current editing state |
| GeneratedLabels.GeneratedLabelsScreen.ToggleLabelSelection | src/components/GeneratedLabels.tsx:67-74 | only the selection changes, by `ToggleSelection` |
| GeneratedLabels.GeneratedLabelsScreen.DuplicateLabel | src/components/GeneratedLabels.tsx:76-84 | the labels become `DuplicateLabelList` of the old ones |
| GeneratedLabels.GeneratedLabelsScreen.DuplicateSelectedLabels | src/components/GeneratedLabels.tsx:86-100 | copies of the selected labels are appended and the selection is cleared |
| GeneratedLabels.GeneratedLabelsScreen.DeleteSelectedLabels | src/components/GeneratedLabels.tsx:102-108 | the selected labels are removed and the selection is cleared |
| GeneratedLabels.GeneratedLabelsScreen.StartEditing | src/components/GeneratedLabels.tsx:110-130 | the editing state becomes `StartedEditing` of the old one |
| GeneratedLabels.GeneratedLabelsScreen.StopEditing | src/components/GeneratedLabels.tsx:132-138 | the editing state is reset, and the labels are kept |
| GeneratedLabels.GeneratedLabelsScreen.HandleExportPdf | src/components/GeneratedLabels.tsx:140-145 | the labels handed to export are `ExportSelection` of the state |
| GeneratedLabels.GeneratedLabelsScreen.SetSearchTerm | src/components/GeneratedLabels.tsx:31 | only the search term changes |
| GeneratedLabels.GeneratedLabelsScreen.Visible | src/components/GeneratedLabels.tsx:160-165 | with an empty term every stored label is shown; otherwise exactly the stored labels that pass the search, and for any split of the stored list the shown list is the two halves' shown lists in order |
| LabelEditor.ApplyPatch | src/components/LabelEditor.tsx:55-63 | each of the ten fields the patch gives replaces the element's field, and every field it does not give is kept |
| LabelEditor.PatchLaws | src/components/LabelEditor.tsx:55-63 | the empty patch is the identity, and applying a patch twice equals applying it once |
| LabelEditor.ApplyTextPatch | src/components/LabelEditor.tsx:76-86 | each of the nine text-style fields the patch gives replaces the old one, and every other is kept |
| LabelEditor.Recolour | src/components/LabelEditor.tsx:65-74 | a text element gets the colour in its text style; any other element gets it as its own colour |
| LabelEditor.EditedLabel | src/components/LabelEditor.tsx:163-172 | the saved label carries the edited elements, padding and spacing and is otherwise the label being edited |
| LabelEditor.RestoredSpacing | src/components/LabelEditor.tsx:181-185 | cancel restores the label's spacing, or 1 when that spacing is 0 |
| LabelEditor.SaveAfterCancel | src/components/LabelEditor.tsx:163-189 | saving right after cancelling gives back the original label, except that a zero spacing comes back as 1 |
| LabelEditor.DraggedPosition | src/components/LabelEditor.tsx:131-156 | the new position is `ConstrainPosition` of the start position plus the pointer delta over the scale, in the box with the editor's padding; so it is at least the padding, and at most the limit on each axis where the element fits |
| LabelEditor.DragWithoutMotion | src/components/LabelEditor.tsx:131-156 | a drag whose pointer has not moved leaves an in-bounds element where it was |
| LabelEditor.SaveCallback | src/components/LabelEditor.tsx:174-178 | save calls the next-step callback when there is one, otherwise the close callback when there is one |
| LabelEditor.Editor.constructor | src/components/LabelEditor.tsx:31-45 | the editor starts from the label's elements with padding and spacing 0 and every flag off |
| LabelEditor.Editor.ReceiveLabel | src/components/LabelEditor.tsx:47-53 | a new label prop with different elements resets the elements to the new ones, padding and spacing to 0 and both toggles off, keeping save/cancel and the drag; with the same elements only the prop changes |
| LabelEditor.Editor.HandleElementUpdate | src/components/LabelEditor.tsx:55-63 | the patched element replaces the old one under its key and save/cancel is shown; every other field of the state, drag state and toggles included, is kept |
| LabelEditor.Editor.HandleElementColorUpdate | src/components/LabelEditor.tsx:65-74 | the element under the key is recoloured and save/cancel is shown; every other field of the state is kept |
| LabelEditor.Editor.HandleTextStyleUpdate | src/components/LabelEditor.tsx:76-86 | the text style is patched and save/cancel is shown when the element has one; otherwise nothing changes; every other field of the state is kept |
| LabelEditor.Editor.HandlePaddingChange | src/components/LabelEditor.tsx:88-94 | a non-negative number becomes the padding and shows save/cancel; NaN or a negative value changes nothing; every other field of the state is kept |
| LabelEditor.Editor.HandleSpacingChange | src/components/LabelEditor.tsx:96-102 | a non-negative number becomes the spacing and shows save/cancel; NaN or a negative value changes nothing; every other field of the state is kept |
| LabelEditor.Editor.HandlePaddingToggle | src/components/LabelEditor.tsx:104-108 | toggling padding on sets it to 5, off sets it to 0, and shows save/cancel; every other field of the state is kept |
| LabelEditor.Editor.HandleSpacingToggle | src/components/LabelEditor.tsx:110-114 | toggling spacing on sets it to 1, off sets it to 0, and shows save/cancel; every other field of the state is kept |
| LabelEditor.Editor.HandleMouseDown | src/components/LabelEditor.tsx:116-129 | a drag of that element starts, remembering the pointer and the element's position; every other field of the state is kept |
| LabelEditor.Editor.HandleMouseMove | src/components/LabelEditor.tsx:131-156 | with no drag nothing changes; during a drag only the dragged element moves, to `DraggedPosition` from the remembered start, and save/cancel is shown; every other field of the state is kept |
| LabelEditor.Editor.HandleMouseUp | src/components/LabelEditor.tsx:158-161 | the drag ends; every other field of the state is kept |
| LabelEditor.Editor.HandleSave | src/components/LabelEditor.tsx:163-179 | the edited label is emitted, the matching callback is chosen and save/cancel is hidden; every other field of the state is kept |
| LabelEditor.Editor.HandleCancel | src/components/LabelEditor.tsx:181-189 | elements, padding and spacing return to the label's (a zero spacing as 1), save/cancel is hidden and the editor closes when it can; the toggles and the drag state are kept |
| App.StepAfter | src/App.tsx:155-218 | the wizard's step stays in 1..4; step 4 is reached only by generating from step 3, and step 1 is re-entered only by restarting from step 4 |
| App.RunStaysInSteps | src/App.tsx:155-218 | any sequence of events keeps the wizard inside steps 1..4 |
| App.RunConcat | src/App.tsx:155-218 | running two event sequences one after the other is running their concatenation |
| App.FullRound | src/App.tsx:155-218 | next, next, back, next, generate ends on the generated labels; generate then restart returns to step 1 |
| App.GenerateBatch | src/App.tsx:117-137 | the batch has `quantity` labels, each with its own ids, the shared design, company name, text and prefix and an empty product name |
| App.SettingsLabel | src/App.tsx:122-132 | one slot's label has the given ids, the short uuid cut to uuidLength, the settings' size, elements, company name, prefix and text and an empty product name; it is the hook's label with the text filled in |
| App.GenerateBatchIsHookBatchWithText | src/App.tsx:117-137 | the application's generation is the hook's batch with the text setting filled in |
| App.OrPlaceholder | src/App.tsx:169-170 | an empty setting shows its placeholder, and a non-empty one shows itself |
| App.UuidLengthAfterUpdate | src/App.tsx:182-184 | the UUID length follows the edited short uuid's length only when that short uuid changed |
| App.AppState.constructor | src/App.tsx:14-115 | the application starts on step 1 with the default design, no labels, one-per-page export and a preview consistent with the length 8 |
| App.AppState.Fire | src/App.tsx:155-218 | a wizard event moves the step by `StepAfter`, and every other field of the state is kept |
| App.AppState.SetUuidLength | src/App.tsx:111-115 | a changed length draws a new preview uuid and cuts its preview; an unchanged one keeps both; the preview stays in sync |
| App.AppState.TemplateLabel | src/App.tsx:165-175 | the editor's template label shows the current design, placeholders for empty texts and the preview uuid |
| App.AppState.Step2OnUpdate | src/App.tsx:176-185 | the editor's result becomes the design, texts and prefix; the UUID length follows `UuidLengthAfterUpdate`; a new preview uuid is drawn exactly when that length changes; the step, quantity, PDF settings and labels are kept |
| App.AppState.GenerateLabels | src/App.tsx:117-137 | the labels become `GenerateBatch` of the settings and the wizard moves to step 4; every other field of the state is kept |
| App.AppState.HandleExportPdf | src/App.tsx:139-141 | nothing is exported for an empty selection; otherwise the saved document holds the packed layout of the selection under the page settings when the type is multiple with page settings, and one label per page at the first label's size otherwise |
| ImportLabels.Truthy | src/components/ImportLabelsModal.tsx:24-30 | a JSON value is falsy exactly when it is null, false, 0 or the empty string |
| ImportLabels.TruthyProperty | src/components/ImportLabelsModal.tsx:24-30 | `v[key]` is truthy exactly when v is an object carrying key with a truthy value |
| ImportLabels.HasRequired | src/components/ImportLabelsModal.tsx:24-30 | an entry passes exactly when it is an object whose id, size, elements, uuid and shortUuid are all truthy |
| ImportLabels.Property | src/components/ImportLabelsModal.tsx:24-30 | a property is found only on an object that has that key |
| ImportLabels.Message | src/components/ImportLabelsModal.tsx:19-39 | the array check, the property check and the file-type check show their own messages; a parse failure and a null entry show the runtime error's own message, which is not modelled |
| ImportLabels.CheckEntries | src/components/ImportLabelsModal.tsx:24-34 | accepted entries are imported unchanged; rejection is a missing property or a null entry |
| ImportLabels.CheckEntriesAccepts | src/components/ImportLabelsModal.tsx:24-34 | the entries are accepted exactly when every entry has a truthy id, size, elements, uuid and shortUuid |
| ImportLabels.CheckEntriesNull | src/components/ImportLabelsModal.tsx:24-34 | the check throws on a null exactly when a null entry comes before any entry that lacks a property |
| ImportLabels.Validate | src/components/ImportLabelsModal.tsx:14-34 | unparsable text is a parse failure, a non-array is rejected, and an array is checked entry by entry |
| ImportLabels.ValidateMeaning | src/components/ImportLabelsModal.tsx:14-34 | import succeeds exactly for a parsed array whose every entry has the required properties, and yields those entries |
| ImportLabels.ValidateEdgeCases | src/components/ImportLabelsModal.tsx:14-34 | an empty array imports nothing successfully, and an array with one entry that lacks properties is rejected |
| ImportLabels.ImportModal.constructor | src/components/ImportLabelsModal.tsx:10-12 | the modal opens with no error, not dragging and nothing imported |
| ImportLabels.ImportModal.HandleFileSelect | src/components/ImportLabelsModal.tsx:14-41 | a valid file imports its labels and closes the modal; an invalid one shows its error |
| ImportLabels.ImportModal.HandleDragOver | src/components/ImportLabelsModal.tsx:43-46 | dragging over marks the drop zone active |
| ImportLabels.ImportModal.HandleDragLeave | src/components/ImportLabelsModal.tsx:48-51 | leaving clears the active drop zone |
| ImportLabels.ImportModal.HandleDrop | src/components/ImportLabelsModal.tsx:53-64 | a dropped .json file is imported like a selected one; any other drop shows the JSON-only error |
| LogoUploader.OrElse | src/components/LogoUploader.tsx:12-19 | `v \|\| fallback` takes the value unless it is absent or zero |
| LogoUploader.DimensionsOf | src/components/LogoUploader.tsx:12-15 | each dimension is the logo's own width or height when set and non-zero, and the logo size otherwise |
| LogoUploader.NextRotation | src/components/LogoUploader.tsx:73-83 | the next rotation of a non-negative angle lies in [0, 360) |
| LogoUploader.Swap | src/components/LogoUploader.tsx:73-83 | rotating exchanges the logo's width and height |
| LogoUploader.SwapTwice | src/components/LogoUploader.tsx:73-83 | two rotations restore the dimensions |
| LogoUploader.Resized | src/components/LogoUploader.tsx:102-127 | the edited dimension takes the value, and without a ratio both dimensions take it |
| LogoUploader.ResizeKeepsRatio | src/components/LogoUploader.tsx:102-127 | with a non-zero aspect ratio, resizing keeps width / height equal to that ratio |
| LogoUploader.LoadedDimensions | src/components/LogoUploader.tsx:53-68 | a loaded image takes the logo size as width and the image's aspect ratio |
| LogoUploader.CheckFile | src/components/LogoUploader.tsx:32-46 | a file is accepted exactly when it is a PNG of at most 1 MiB; no file, a non-PNG and an oversized PNG are told apart |
| LogoUploader.Uploader.constructor | src/components/LogoUploader.tsx:12-19 | the uploader's dimensions and position start from the logo |
| LogoUploader.Uploader.ReceiveLogo | src/components/LogoUploader.tsx:21-30 | the dimensions and position resynchronise only when the logo's size or position changed |
| LogoUploader.Uploader.HandleRotate | src/components/LogoUploader.tsx:73-83 | the dimensions swap, and the next rotation is sent with them |
| LogoUploader.Uploader.HandleRemove | src/components/LogoUploader.tsx:85-100 | the image and its ratio are cleared, rotation is reset, the dimensions return to the logo size, and the old object URL is revoked |
| LogoUploader.Uploader.HandleDimensionChange | src/components/LogoUploader.tsx:102-127 | a positive number resizes with the ratio kept and is sent; anything else changes nothing |
| LogoUploader.Uploader.HandlePositionChange | src/components/LogoUploader.tsx:129-142 | a number moves the logo on one axis and is sent; NaN changes nothing |
| LogoUploader.Uploader.HandleFileChange | src/components/LogoUploader.tsx:32-46 | the file is checked by `CheckFile` |
| LogoUploader.Uploader.HandleImageLoad | src/components/LogoUploader.tsx:53-68 | the loaded image's URL, ratio and dimensions are sent and shown |
| ElementControls.ForwardedPosition | src/components/ElementControls.tsx:43-59 | an empty or non-numeric entry forwards nothing; a number forwards the position with that axis replaced |
| ElementControls.EditKeepsOtherAxis | src/components/ElementControls.tsx:43-59 | editing one axis never moves the other |
| ElementControls.Blurred | src/components/ElementControls.tsx:72-88 | leaving a field keeps a numeric entry and replaces an empty or non-numeric one with the current value |
| ElementControls.BlurRepairs | src/components/ElementControls.tsx:72-88 | after blur, the buffer is either a number or the current value's text |
| ElementControls.Controls.constructor | src/components/ElementControls.tsx:31-33 | the text buffers start as the element's values |
| ElementControls.Controls.ReceiveElement | src/components/ElementControls.tsx:36-40 | a new element resynchronises all three buffers |
| ElementControls.Controls.HandlePositionChange | src/components/ElementControls.tsx:43-59 | the edited buffer takes the text, and `ForwardedPosition` is forwarded when it exists |
| ElementControls.Controls.HandleSizeChange | src/components/ElementControls.tsx:62-69 | the size buffer takes the text, and a number is forwarded as the new size |
| ElementControls.Controls.HandlePositionBlur | src/components/ElementControls.tsx:72-81 | the buffer of the axis being left is repaired by `Blurred`, and the other buffer is kept |
| ElementControls.Controls.HandleSizeBlur | src/components/ElementControls.tsx:84-88 | the size buffer is repaired by `Blurred` |
| RotationControl.Rotate | src/components/RotationControl.tsx:10-12 | a non-negative rotation turns into [0, 360) |
| RotationControl.RotateInRange | src/components/RotationControl.tsx:10-12 | within [0, 360) the button adds 90 below 270 and wraps to angle − 270 above |
| RotationControl.FourRotationsIdentity | src/components/RotationControl.tsx:10-12 | four presses return to the starting angle |
| RotationControl.RotatePreservesQuarters | src/components/RotationControl.tsx:10-12 | a multiple of 90 degrees stays a multiple of 90 degrees |
| Progress.Percentage | src/components/ProgressIndicator.tsx:21 | the shown percentage lies in 0..100 while progress is within the total |
| Progress.PercentageMonotone | src/components/ProgressIndicator.tsx:21 | more progress never shows a smaller percentage |
| Progress.NatDigits | src/components/ProgressIndicator.tsx:24-27 | a natural number prints as a non-empty string of decimal digits |
| Progress.Digit | src/components/ProgressIndicator.tsx:24-27 | a digit character encodes its own value |
| Progress.NatDigitsRoundTrip | src/components/ProgressIndicator.tsx:24-27 | printed digits read back as the same number |
| Progress.IntText | src/components/ProgressIndicator.tsx:24-27 | an integer prints as its digits, with a leading minus sign when it is negative |
| Progress.FormatTime | src/components/ProgressIndicator.tsx:23-28 | the remaining-time text; `FormatTimeUnderAMinute` and `FormatTimeParts` state its two shapes |
| Progress.FormatTimeUnderAMinute | src/components/ProgressIndicator.tsx:24 | under a minute the text is the rounded seconds followed by "s", whose digits read back as that number |
| Progress.FormatTimeParts | src/components/ProgressIndicator.tsx:25-27 | from a minute on, the text is "<m>m <s>s", with at least one minute, minutes·60 plus the remainder equal to the seconds, and the shown seconds in 0..60 |
| Progress.Render | src/components/ProgressIndicator.tsx:19-28 | the indicator is hidden exactly when it is not visible; otherwise it shows the percentage, the counter, and the time text exactly when an estimate exists |

## Left out

- Reading files, `JSON.parse`, object URLs, alerts, DOM containers and saving the PDF's bytes are I/O. Their results are parameters: parsed JSON, file name, MIME type and size, image dimensions. The save is recorded as a name on the document.
- Random UUIDs (`crypto.randomUUID`, `uuidv4`) become caller-supplied sequences. Distinctness is a precondition of the distinctness lemmas only.
- `src/types.ts` declares five element keys and no `height`, `rotation`, `imageUrl` or `aspectRatio` fields, but the application and its components use a sixth key, `logo`, and those fields. The model follows the code that uses them.
- Numbers are mathematical reals. NaN appears only as the `None` of a parsed value, and Infinity, rounding error and exponent formatting are not modelled.
- Rendering a label is not part of this model: `createLabelElement`, QR code generation, `html2canvas`, text measurement, `calculateTextDimensions` and `wrapText`. Neither are the form components (`LabelSizeForm`, `OtherSettingsForm`, `LabelPreview`, `LabelRenderer`) or the theme toggle. A PDF image is recorded by its label, page, place and size.
- The export's `async`/`await` sequencing and its lack of cancellation are not modelled. ProgressIndicator's cancel callback is not modelled either.
- LabelEditor's `editorRef` null check, the `getBoundingClientRect` offset, `activeTab` and `selectedElement` are left out. Pointer positions are given relative to the editor.
- `findNonOverlappingPosition` is modelled on its own because the editor never calls it.
- LabelEditor.Editor.HandleElementColorUpdate: the source writes the colour into the element object, or its text-style object, that the editor's state shares with the label it was given. The model updates values. Because `App`'s generation does not clone (next line), every label of a batch and `App`'s own design share these objects. Recolouring one label in the single-label editor therefore recolours all of them, before any save, and `LabelEditor.Editor.HandleCancel` cannot undo it, since the label it restores from has changed too. In the model only the edited label changes (through `GeneratedLabels.GeneratedLabelsScreen.HandleLabelUpdate` on save), and cancel restores it.
- LabelEditor.Editor.HandleTextStyleUpdate: the source assigns the patched text style into the shared element object, with the same consequences as the colour handler: every label of the batch and the design change at once, and `LabelEditor.Editor.HandleCancel` does not restore them. The model changes the edited element only.
- App.AppState.GenerateLabels: every label of the batch shares one `elements` object and one `labelSize` object with the application's settings, unlike the hook's deep clone. Mutation through those shared objects, by the two editor handlers above, then reaches every label and the design at once. The model keeps values, so `GeneratedLabels.GeneratedLabelsScreen.HandleLabelUpdate` changes one label and `LabelEditor.Editor.HandleCancel` reverts; it does not capture that sharing.
- React compares an effect's dependencies by reference. `LabelEditor.Editor.ReceiveLabel` and `LogoUploader.Uploader.ReceiveLogo` compare them by value, so a new object with equal contents does not rerun the effect in the model, although it does in the source.
- JsNumbers.ToLower: lower-cases ASCII letters only, whereas JavaScript's `toLowerCase` folds all of Unicode.
- PdfExport.ExportMultipleLabelsPerPage: requires at least one label per row and per column. With fewer, the source's `while` loop never ends, because no label is ever placed.
- PdfExport.ExportToPdf and App.AppState.HandleExportPdf: inherit that requirement for a multiple-type export with page settings.
- LabelEditor.ApplyPatch: a patch holds only the fields it sets. An explicit `undefined` inside a `Partial<ElementStyle>` is not distinguished from an absent field.
- ImportLabels.Message: a `JSON.parse` failure throws a `SyntaxError` and a null entry makes `every` throw a `TypeError`; both are `Error`s, so the catch block shows their own message, whose text comes from the JavaScript runtime and is not modelled. The generic 'Failed to parse file' is shown only for a thrown value that is not an `Error`, which none of the modelled steps throws.
