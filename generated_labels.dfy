/**
 * The generated-labels screen: the selection and editing state, and the list operations it sends
 * to its parent through `onUpdateLabels` (replace one, bulk edit, duplicate, delete), the labels it
 * hands to export, and the search filter. Random identifiers are supplied by the caller.
 */
module GeneratedLabels {
  import opened Wrappers
  import opened Types
  import opened JsNumbers
  import LabelStore

  /** `handleBulkUpdate` on one label: a selected label (or any label when editing all) takes the template. */
  function BulkUpdateOne(lab: Label, state: EditingState, updated: Label): (r: Label)
    ensures lab.id in state.selectedLabels || state.editingAll ==>
      r == lab.(elements := updated.elements, size := updated.size, companyName := updated.companyName)
    ensures !(lab.id in state.selectedLabels || state.editingAll) ==> r == lab
  {
    if lab.id in state.selectedLabels || state.editingAll
    then lab.(elements := updated.elements, size := updated.size, companyName := updated.companyName,
              productName := lab.productName)
    else lab
  }

  function BulkUpdateList(labels: seq<Label>, state: EditingState, updated: Label): (r: seq<Label>)
    ensures |r| == |labels| && forall i :: 0 <= i < |r| ==> r[i] == BulkUpdateOne(labels[i], state, updated)
  {
    seq(|labels|, i requires 0 <= i < |labels| => BulkUpdateOne(labels[i], state, updated))
  }

  /**
   * A bulk edit keeps every label's identity, uuid, short uuid, product name, prefix and text,
   * gives the affected labels the template's elements, size and company name, and leaves the
   * others untouched.
   */
  lemma BulkUpdateKeepsIdentity(labels: seq<Label>, state: EditingState, updated: Label)
    ensures var r := BulkUpdateList(labels, state, updated);
      && LabelStore.Ids(r) == LabelStore.Ids(labels)
      && forall i :: 0 <= i < |labels| ==>
        && r[i].uuid == labels[i].uuid && r[i].shortUuid == labels[i].shortUuid
        && r[i].productName == labels[i].productName && r[i].prefix == labels[i].prefix && r[i].text == labels[i].text
        && (r[i].companyName != labels[i].companyName ==> labels[i].id in state.selectedLabels || state.editingAll)
  {
  }

  /** `selectedLabels.filter(id => id !== labelId)`. */
  function RemoveId(sel: seq<string>, id: string): (r: seq<string>)
    ensures forall x :: x in r <==> x in sel && x != id
    ensures |r| <= |sel|
  {
    if |sel| == 0 then []
    else if sel[0] == id then RemoveId(sel[1..], id)
    else [sel[0]] + RemoveId(sel[1..], id)
  }

  /** Removing an id that is absent changes nothing. */
  lemma {:induction false} RemoveAbsentId(sel: seq<string>, id: string)
    requires id !in sel
    ensures RemoveId(sel, id) == sel
  {
    if |sel| > 0 {
      RemoveAbsentId(sel[1..], id);
      assert sel == [sel[0]] + sel[1..];
    }
  }

  /** `toggleLabelSelection`: a present id is removed (every copy of it), an absent one appended. */
  function ToggleSelection(sel: seq<string>, id: string): (r: seq<string>)
    ensures id in r <==> id !in sel
    ensures forall x :: x != id ==> (x in r <==> x in sel)
  {
    if id in sel then RemoveId(sel, id) else sel + [id]
  }

  /** Toggling twice gives back the same set of ids, and the same list when the id was absent. */
  lemma {:induction false} ToggleTwice(sel: seq<string>, id: string)
    ensures (set x | x in ToggleSelection(ToggleSelection(sel, id), id)) == (set x | x in sel)
    ensures id !in sel ==> ToggleSelection(ToggleSelection(sel, id), id) == sel
  {
    if id !in sel {
      RemoveAbsentId(sel, id);
      RemoveAppended(sel, id);
    }
  }

  lemma {:induction false} RemoveAppended(sel: seq<string>, id: string)
    requires id !in sel
    ensures RemoveId(sel + [id], id) == sel
  {
    if |sel| == 0 {
      assert sel + [id] == [id];
    } else {
      assert (sel + [id])[1..] == sel[1..] + [id];
      RemoveAppended(sel[1..], id);
      assert sel == [sel[0]] + sel[1..];
    }
  }

  /** `labels.filter(label => selectedLabels.includes(label.id))`. */
  function Selected(labels: seq<Label>, sel: seq<string>): (r: seq<Label>)
    ensures |r| <= |labels|
    ensures forall x :: x in r <==> x in labels && x.id in sel
  {
    if |labels| == 0 then []
    else if labels[0].id in sel then [labels[0]] + Selected(labels[1..], sel)
    else Selected(labels[1..], sel)
  }

  /** `labels.filter(label => !selectedLabels.includes(label.id))`. */
  function Unselected(labels: seq<Label>, sel: seq<string>): (r: seq<Label>)
    ensures |r| <= |labels|
    ensures forall x :: x in r <==> x in labels && x.id !in sel
  {
    if |labels| == 0 then []
    else if labels[0].id !in sel then [labels[0]] + Unselected(labels[1..], sel)
    else Unselected(labels[1..], sel)
  }

  /** Both filters keep relative order: they distribute over concatenation. */
  lemma FiltersDistribute(a: seq<Label>, b: seq<Label>, sel: seq<string>)
    ensures Selected(a + b, sel) == Selected(a, sel) + Selected(b, sel)
    ensures Unselected(a + b, sel) == Unselected(a, sel) + Unselected(b, sel)
  {
    SelectedDistributes(a, b, sel);
    UnselectedDistributes(a, b, sel);
  }

  lemma {:induction false} SelectedDistributes(a: seq<Label>, b: seq<Label>, sel: seq<string>)
    ensures Selected(a + b, sel) == Selected(a, sel) + Selected(b, sel)
  {
    if |a| == 0 {
      assert a + b == b;
    } else {
      assert (a + b)[0] == a[0];
      assert (a + b)[1..] == a[1..] + b;
      SelectedDistributes(a[1..], b, sel);
    }
  }

  lemma {:induction false} UnselectedDistributes(a: seq<Label>, b: seq<Label>, sel: seq<string>)
    ensures Unselected(a + b, sel) == Unselected(a, sel) + Unselected(b, sel)
  {
    if |a| == 0 {
      assert a + b == b;
    } else {
      assert (a + b)[0] == a[0];
      assert (a + b)[1..] == a[1..] + b;
      UnselectedDistributes(a[1..], b, sel);
    }
  }

  /** The selected and the remaining labels split the list: together they are a permutation of it. */
  lemma {:induction false} FiltersPartition(labels: seq<Label>, sel: seq<string>)
    ensures multiset(Selected(labels, sel)) + multiset(Unselected(labels, sel)) == multiset(labels)
  {
    if |labels| > 0 {
      var x, rest := labels[0], labels[1..];
      FiltersPartition(rest, sel);
      assert labels == [x] + rest;
      assert multiset(labels) == multiset{x} + multiset(rest);
      if x.id in sel {
        assert Selected(labels, sel) == [x] + Selected(rest, sel);
        assert Unselected(labels, sel) == Unselected(rest, sel);
      } else {
        assert Selected(labels, sel) == Selected(rest, sel);
        assert Unselected(labels, sel) == [x] + Unselected(rest, sel);
      }
    }
  }

  /** A selection that names no label leaves nothing to delete. */
  lemma {:induction false} UnselectedOfNothing(labels: seq<Label>, sel: seq<string>)
    requires forall i :: 0 <= i < |labels| ==> labels[i].id !in sel
    ensures Unselected(labels, sel) == labels
  {
    if |labels| > 0 {
      UnselectedOfNothing(labels[1..], sel);
      assert labels == [labels[0]] + labels[1..];
    }
  }

  /** A copy with a fresh id and uuid whose short uuid is cut from a third fresh uuid to the source's length. */
  function DuplicateOf(lab: Label, id: string, uuid: string, shortSource: string): (r: Label)
    ensures r.id == id && r.uuid == uuid && r.shortUuid <= shortSource
    ensures |shortSource| >= |lab.shortUuid| ==> |r.shortUuid| == |lab.shortUuid|
    ensures r.(id := lab.id, uuid := lab.uuid, shortUuid := lab.shortUuid) == lab
  {
    lab.(id := id, uuid := uuid, shortUuid := Prefix(shortSource, |lab.shortUuid|))
  }

  /** `duplicateLabel`: the list followed by one copy of `lab`. */
  function DuplicateLabelList(labels: seq<Label>, lab: Label, id: string, uuid: string, shortSource: string): (r: seq<Label>)
    ensures |r| == |labels| + 1 && r[..|labels|] == labels && r[|labels|] == DuplicateOf(lab, id, uuid, shortSource)
  {
    labels + [DuplicateOf(lab, id, uuid, shortSource)]
  }

  /** A fresh id keeps the ids of the list pairwise distinct. */
  lemma DuplicateKeepsIdsDistinct(labels: seq<Label>, lab: Label, id: string, uuid: string, shortSource: string)
    requires LabelStore.Distinct(LabelStore.Ids(labels)) && id !in LabelStore.Ids(labels)
    ensures LabelStore.Distinct(LabelStore.Ids(DuplicateLabelList(labels, lab, id, uuid, shortSource)))
  {
    var r := DuplicateLabelList(labels, lab, id, uuid, shortSource);
    forall i, j | 0 <= i < j < |r|
      ensures r[i].id != r[j].id
    {
      if j == |labels| {
        assert LabelStore.Ids(labels)[i] == r[i].id;
      } else {
        assert LabelStore.Ids(labels)[i] == r[i].id && LabelStore.Ids(labels)[j] == r[j].id;
      }
    }
  }

  /** `duplicateSelectedLabels`: one copy per selected label, in list order, appended to the list. */
  function DuplicateSelectedList(labels: seq<Label>, sel: seq<string>, ids: seq<string>, uuids: seq<string>,
                                 shortSources: seq<string>): (r: seq<Label>)
    requires |ids| == |uuids| == |shortSources| == |Selected(labels, sel)|
    ensures |r| == |labels| + |Selected(labels, sel)| && r[..|labels|] == labels
    ensures forall i :: 0 <= i < |ids| ==>
      r[|labels| + i] == DuplicateOf(Selected(labels, sel)[i], ids[i], uuids[i], shortSources[i])
  {
    var chosen := Selected(labels, sel);
    labels + seq(|chosen|, i requires 0 <= i < |chosen| => DuplicateOf(chosen[i], ids[i], uuids[i], shortSources[i]))
  }

  /** Every appended copy is a selected label of the list up to its three identifiers. */
  lemma DuplicatesAreCopiesOfSelected(labels: seq<Label>, sel: seq<string>, ids: seq<string>, uuids: seq<string>,
                                      shortSources: seq<string>, i: nat)
    requires |ids| == |uuids| == |shortSources| == |Selected(labels, sel)| && i < |ids|
    ensures var c := DuplicateSelectedList(labels, sel, ids, uuids, shortSources)[|labels| + i];
      exists lab :: lab in labels && lab.id in sel && c.(id := lab.id, uuid := lab.uuid, shortUuid := lab.shortUuid) == lab
  {
    var lab := Selected(labels, sel)[i];
    assert lab in Selected(labels, sel);
  }

  /** `startEditing(labelId)`; a missing id and the empty string are both falsy. */
  function StartedEditing(state: EditingState, labelId: Option<string>): (r: EditingState)
    ensures r.isEditing
    ensures labelId.Some? && labelId.value != "" ==> r.selectedLabels == [labelId.value] && !r.editingAll
    ensures (labelId.None? || labelId.value == "") && |state.selectedLabels| > 0 ==>
      r.selectedLabels == state.selectedLabels && !r.editingAll
    ensures (labelId.None? || labelId.value == "") && |state.selectedLabels| == 0 ==>
      r.selectedLabels == [] && r.editingAll
  {
    if labelId.Some? && labelId.value != "" then EditingState(true, [labelId.value], false)
    else if |state.selectedLabels| > 0 then state.(isEditing := true, editingAll := false)
    else EditingState(true, [], true)
  }

  /** After `startEditing`, a bulk edit reaches exactly the chosen labels, or every label when none is chosen. */
  lemma StartEditingScope(state: EditingState, labelId: Option<string>, lab: Label)
    ensures var s := StartedEditing(state, labelId);
      (lab.id in s.selectedLabels || s.editingAll) <==>
        if labelId.Some? && labelId.value != "" then lab.id == labelId.value
        else |state.selectedLabels| == 0 || lab.id in state.selectedLabels
  {
  }

  const Idle := EditingState(false, [], false)

  /** `stopEditing`: closed editor, nothing selected, not editing all. */
  function StoppedEditing(): (r: EditingState)
    ensures !r.isEditing && r.selectedLabels == [] && !r.editingAll
  {
    Idle
  }

  /** `handleExportPdf`: the selected labels in list order, or every label when none is selected. */
  function ExportSelection(labels: seq<Label>, state: EditingState): (r: seq<Label>)
    ensures |state.selectedLabels| == 0 ==> r == labels
    ensures forall x :: x in r <==> x in labels && (|state.selectedLabels| == 0 || x.id in state.selectedLabels)
  {
    if |state.selectedLabels| > 0 then Selected(labels, state.selectedLabels) else labels
  }

  /** The search predicate: the lower-cased term occurs in the lower-cased product name or short uuid. */
  predicate Matches(lab: Label, term: string) {
    Includes(ToLower(lab.productName), ToLower(term)) || Includes(ToLower(lab.shortUuid), ToLower(term))
  }

  function Search(labels: seq<Label>, term: string): (r: seq<Label>)
    ensures |r| <= |labels|
    ensures forall x :: x in r <==> x in labels && Matches(x, term)
  {
    if |labels| == 0 then []
    else if Matches(labels[0], term) then [labels[0]] + Search(labels[1..], term)
    else Search(labels[1..], term)
  }

  /** `filteredLabels`: an empty search term keeps every label. */
  function FilteredLabels(labels: seq<Label>, term: string): (r: seq<Label>)
    ensures term == "" ==> r == labels
    ensures forall x :: x in r <==> x in labels && (term == "" || Matches(x, term))
  {
    if term != "" then Search(labels, term) else labels
  }

  /** The search keeps relative order: it distributes over concatenation. */
  lemma {:induction false} SearchDistributes(a: seq<Label>, b: seq<Label>, term: string)
    ensures Search(a + b, term) == Search(a, term) + Search(b, term)
  {
    if |a| == 0 {
      assert a + b == b;
    } else {
      assert (a + b)[0] == a[0];
      assert (a + b)[1..] == a[1..] + b;
      SearchDistributes(a[1..], b, term);
    }
  }

  /** A single label is kept exactly when it matches; with `SearchDistributes` this fixes the result on every list. */
  lemma SearchSingle(x: Label, term: string)
    ensures Search([x], term) == if Matches(x, term) then [x] else []
  {
    assert [x][1..] == [];
  }

  /** The list shown, whatever the term, keeps the order and multiplicity of the labels it keeps. */
  lemma FilteredDistributes(a: seq<Label>, b: seq<Label>, term: string)
    ensures FilteredLabels(a + b, term) == FilteredLabels(a, term) + FilteredLabels(b, term)
    ensures term != "" ==> forall x :: FilteredLabels([x], term) == if Matches(x, term) then [x] else []
  {
    SearchDistributes(a, b, term);
    forall x
      ensures Search([x], term) == if Matches(x, term) then [x] else []
    {
      SearchSingle(x, term);
    }
  }

  /** A label matches exactly when the term, ignoring ASCII case, occurs in one of the two fields. */
  lemma MatchesMeaning(lab: Label, term: string)
    ensures Matches(lab, term) <==>
      (exists i :: OccursAt(ToLower(lab.productName), ToLower(term), i)) ||
      (exists i :: OccursAt(ToLower(lab.shortUuid), ToLower(term), i))
  {
    IncludesIff(ToLower(lab.productName), ToLower(term));
    IncludesIff(ToLower(lab.shortUuid), ToLower(term));
  }

  /** The search ignores the case of the term. */
  lemma {:induction false} SearchIgnoresCase(labels: seq<Label>, term: string)
    ensures FilteredLabels(labels, ToLower(term)) == FilteredLabels(labels, term)
  {
    ToLowerIdempotent(term);
    SearchSameTerm(labels, term, ToLower(term));
  }

  lemma {:induction false} SearchSameTerm(labels: seq<Label>, t: string, u: string)
    requires ToLower(t) == ToLower(u)
    ensures Search(labels, t) == Search(labels, u)
  {
    if |labels| > 0 {
      SearchSameTerm(labels[1..], t, u);
    }
  }

  /** The page settings offered when multi-label export is first chosen: A4 in millimetres. */
  const DefaultPageSettings := PageSettings(210.0, 297.0, Mm, 10.0, 10.0, 10.0, 10.0, 2.0)

  /**
   * `handlePdfTypeChange`: choosing 'multiple' without page settings installs the A4 defaults and
   * opens the page-settings dialog; any other choice only records the type.
   */
  function PdfTypeChange(settings: PdfSettings, pdfType: PdfType): (r: (PdfSettings, bool))
    ensures r.0.pdfType == pdfType && r.0.labelsPerPage == settings.labelsPerPage
    ensures r.1 <==> pdfType == Multiple && settings.pageSettings.None?
    ensures r.0.pageSettings == if r.1 then Some(DefaultPageSettings) else settings.pageSettings
  {
    if pdfType == Multiple && settings.pageSettings.None?
    then (settings.(pdfType := pdfType, pageSettings := Some(DefaultPageSettings)), true)
    else (settings.(pdfType := pdfType), false)
  }

  /** After choosing 'multiple', page settings are always present, so the packed export is the one used. */
  lemma MultipleAlwaysHasPageSettings(settings: PdfSettings)
    ensures PdfTypeChange(settings, Multiple).0.pageSettings.Some?
  {
  }

  /** The screen: the label list its parent holds, the editing state and the search box. */
  class GeneratedLabelsScreen {
    var labels: seq<Label>
    var editingState: EditingState
    var searchTerm: string

    constructor (initial: seq<Label>)
      ensures labels == initial && editingState == Idle && searchTerm == ""
    {
      labels := initial;
      editingState := Idle;
      searchTerm := "";
    }

    method HandleLabelUpdate(updated: Label)
      modifies this
      ensures labels == LabelStore.UpdateLabelList(old(labels), updated)
      ensures editingState == old(editingState) && searchTerm == old(searchTerm)
    {
      labels := LabelStore.UpdateLabelList(labels, updated);
    }

    method HandleBulkUpdate(updated: Label)
      modifies this
      ensures labels == BulkUpdateList(old(labels), old(editingState), updated)
      ensures editingState == old(editingState) && searchTerm == old(searchTerm)
    {
      labels := BulkUpdateList(labels, editingState, updated);
    }

    method ToggleLabelSelection(labelId: string)
      modifies this
      ensures editingState == old(editingState).(selectedLabels := ToggleSelection(old(editingState).selectedLabels, labelId))
      ensures labels == old(labels) && searchTerm == old(searchTerm)
    {
      editingState := editingState.(selectedLabels := ToggleSelection(editingState.selectedLabels, labelId));
    }

    method DuplicateLabel(lab: Label, id: string, uuid: string, shortSource: string)
      modifies this
      ensures labels == DuplicateLabelList(old(labels), lab, id, uuid, shortSource)
      ensures editingState == old(editingState) && searchTerm == old(searchTerm)
    {
      labels := DuplicateLabelList(labels, lab, id, uuid, shortSource);
    }

    /** The copies are appended and the selection is cleared. */
    method DuplicateSelectedLabels(ids: seq<string>, uuids: seq<string>, shortSources: seq<string>)
      requires |ids| == |uuids| == |shortSources| == |Selected(labels, editingState.selectedLabels)|
      modifies this
      ensures labels == DuplicateSelectedList(old(labels), old(editingState).selectedLabels, ids, uuids, shortSources)
      ensures editingState == old(editingState).(selectedLabels := [])
      ensures searchTerm == old(searchTerm)
    {
      labels := DuplicateSelectedList(labels, editingState.selectedLabels, ids, uuids, shortSources);
      editingState := editingState.(selectedLabels := []);
    }

    /** The selected labels are removed and the selection is cleared. */
    method DeleteSelectedLabels()
      modifies this
      ensures labels == Unselected(old(labels), old(editingState).selectedLabels)
      ensures editingState == old(editingState).(selectedLabels := [])
      ensures searchTerm == old(searchTerm)
    {
      labels := Unselected(labels, editingState.selectedLabels);
      editingState := editingState.(selectedLabels := []);
    }

    method StartEditing(labelId: Option<string>)
      modifies this
      ensures editingState == StartedEditing(old(editingState), labelId)
      ensures labels == old(labels) && searchTerm == old(searchTerm)
    {
      editingState := StartedEditing(editingState, labelId);
    }

    method StopEditing()
      modifies this
      ensures editingState == Idle && labels == old(labels) && searchTerm == old(searchTerm)
    {
      editingState := StoppedEditing();
    }

    /** `handleExportPdf` hands the export selection to `onExportPdf`; the screen's state is unchanged. */
    method HandleExportPdf() returns (toExport: seq<Label>)
      ensures toExport == ExportSelection(labels, editingState)
    {
      toExport := ExportSelection(labels, editingState);
    }

    method SetSearchTerm(term: string)
      modifies this
      ensures searchTerm == term && labels == old(labels) && editingState == old(editingState)
    {
      searchTerm := term;
    }

    /** The labels shown in the grid. */
    function Visible(): (r: seq<Label>)
      reads this
      ensures searchTerm == "" ==> r == labels
      ensures forall x :: x in r <==> x in labels && (searchTerm == "" || Matches(x, searchTerm))
      ensures forall a, b :: a + b == labels ==> r == FilteredLabels(a, searchTerm) + FilteredLabels(b, searchTerm)
    {
      forall a, b | a + b == labels
        ensures FilteredLabels(labels, searchTerm) == FilteredLabels(a, searchTerm) + FilteredLabels(b, searchTerm)
      {
        FilteredDistributes(a, b, searchTerm);
      }
      FilteredLabels(labels, searchTerm)
    }
  }
}
