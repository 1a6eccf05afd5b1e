/**
 * The `useLabels` hook: the list of generated labels held as state, batch generation from a
 * template, replacement of one label by id, and the two bulk updates, the second of which keeps
 * every selected label's own element positions. Random identifiers are supplied by the caller.
 */
module LabelStore {
  import opened Wrappers
  import opened Types
  import opened JsNumbers

  /** `Array.from({ length: quantity })` takes ToLength of the quantity: a negative one gives 0. */
  function BatchSize(quantity: int): (r: nat)
    ensures quantity <= r as int
    ensures r == 0 || r as int == quantity
  {
    if quantity < 0 then 0 else quantity
  }

  /** The label built for one batch slot from a fresh `id` and a fresh `uuid`. */
  function NewLabel(id: string, uuid: string, labelSize: LabelSize, elements: LabelElements,
                    companyName: string, prefix: string, uuidLength: int): (r: Label)
    ensures r.id == id && r.uuid == uuid && r.shortUuid <= uuid
    ensures |r.shortUuid| == if uuidLength <= 0 then 0 else if uuidLength >= |uuid| then |uuid| else uuidLength
    ensures r.size == labelSize && r.elements == elements && r.companyName == companyName && r.prefix == prefix
    ensures r.productName == "" && r.text == ""
  {
    Label(id, labelSize, elements, companyName, uuid, Prefix(uuid, uuidLength), prefix, "", "")
  }

  /**
   * `generateLabels`: `quantity` labels (none for a negative quantity), label i carrying the i-th
   * fresh id and uuid, a short uuid cut from its own uuid, copies of the template size and elements,
   * the given company name and prefix, and empty product name and text.
   */
  function GenerateList(quantity: int, labelSize: LabelSize, elements: LabelElements, companyName: string,
                        prefix: string, uuidLength: int, ids: seq<string>, uuids: seq<string>): (r: seq<Label>)
    requires |ids| == BatchSize(quantity) && |uuids| == BatchSize(quantity)
    ensures |r| == BatchSize(quantity)
    ensures forall i :: 0 <= i < |r| ==>
      && r[i].id == ids[i] && r[i].uuid == uuids[i]
      && r[i].shortUuid == Prefix(r[i].uuid, uuidLength)
      && r[i].size == labelSize && r[i].elements == elements
      && r[i].companyName == companyName && r[i].prefix == prefix
      && r[i].productName == "" && r[i].text == ""
  {
    seq(BatchSize(quantity), i requires 0 <= i < BatchSize(quantity) =>
      NewLabel(ids[i], uuids[i], labelSize, elements, companyName, prefix, uuidLength))
  }

  /** No two entries of `s` are equal. */
  predicate Distinct(s: seq<string>) {
    forall i, j :: 0 <= i < j < |s| ==> s[i] != s[j]
  }

  function Ids(labels: seq<Label>): (r: seq<string>)
    ensures |r| == |labels| && forall i :: 0 <= i < |labels| ==> r[i] == labels[i].id
  {
    seq(|labels|, i requires 0 <= i < |labels| => labels[i].id)
  }

  function Uuids(labels: seq<Label>): (r: seq<string>)
    ensures |r| == |labels| && forall i :: 0 <= i < |labels| ==> r[i] == labels[i].uuid
  {
    seq(|labels|, i requires 0 <= i < |labels| => labels[i].uuid)
  }

  /** Fresh, pairwise distinct ids and uuids give a batch with pairwise distinct ids and uuids. */
  lemma GeneratedIdentifiersDistinct(quantity: int, labelSize: LabelSize, elements: LabelElements, companyName: string,
                                     prefix: string, uuidLength: int, ids: seq<string>, uuids: seq<string>)
    requires |ids| == BatchSize(quantity) && |uuids| == BatchSize(quantity)
    requires Distinct(ids) && Distinct(uuids)
    ensures var r := GenerateList(quantity, labelSize, elements, companyName, prefix, uuidLength, ids, uuids);
      Distinct(Ids(r)) && Distinct(Uuids(r))
  {
    var r := GenerateList(quantity, labelSize, elements, companyName, prefix, uuidLength, ids, uuids);
    assert Ids(r) == ids;
    assert Uuids(r) == uuids;
  }

  /** Every short uuid of a batch is a prefix of its own uuid, `uuidLength` long when the uuid is long enough. */
  lemma GeneratedShortUuidIsPrefix(quantity: int, labelSize: LabelSize, elements: LabelElements, companyName: string,
                                   prefix: string, uuidLength: int, ids: seq<string>, uuids: seq<string>, i: int)
    requires |ids| == BatchSize(quantity) && |uuids| == BatchSize(quantity)
    requires 0 <= i < BatchSize(quantity)
    ensures var l := GenerateList(quantity, labelSize, elements, companyName, prefix, uuidLength, ids, uuids)[i];
      && l.shortUuid <= l.uuid
      && (0 <= uuidLength <= |l.uuid| ==> |l.shortUuid| == uuidLength)
  {
  }

  /**
   * `updateLabel`: every label whose id matches is replaced by the update; the others, the
   * length and the order are kept.
   */
  function UpdateLabelList(labels: seq<Label>, updated: Label): (r: seq<Label>)
    ensures |r| == |labels|
    ensures forall i :: 0 <= i < |r| ==> r[i] == (if labels[i].id == updated.id then updated else labels[i])
  {
    seq(|labels|, i requires 0 <= i < |labels| => if labels[i].id == updated.id then updated else labels[i])
  }

  /** Replacing a label by id never changes any label's id, and replacing twice is replacing once. */
  lemma UpdateLabelListFacts(labels: seq<Label>, updated: Label)
    ensures Ids(UpdateLabelList(labels, updated)) == Ids(labels)
    ensures UpdateLabelList(UpdateLabelList(labels, updated), updated) == UpdateLabelList(labels, updated)
    ensures updated.id !in Ids(labels) ==> UpdateLabelList(labels, updated) == labels
  {
  }

  /** The fields of a `Partial<Label>` that the bulk updates read; `None` is an absent field. */
  datatype LabelUpdates = LabelUpdates(
    elements: Option<LabelElements>,
    size: Option<LabelSize>,
    companyName: Option<string>,
    text: Option<string>,
    prefix: Option<string>)

  /** `updateAllLabels` on one label: present fields are taken, identifiers and product name are kept. */
  function UpdateAllOne(lab: Label, u: LabelUpdates): (r: Label)
    ensures r.id == lab.id && r.uuid == lab.uuid && r.shortUuid == lab.shortUuid
    ensures r.productName == lab.productName
    ensures r.elements == u.elements.GetOr(lab.elements) && r.size == u.size.GetOr(lab.size)
    ensures r.companyName == u.companyName.GetOr(lab.companyName)
    ensures r.text == u.text.GetOr(lab.text) && r.prefix == u.prefix.GetOr(lab.prefix)
  {
    lab.(elements := u.elements.GetOr(lab.elements),
           size := u.size.GetOr(lab.size),
           companyName := u.companyName.GetOr(lab.companyName),
           text := u.text.GetOr(lab.text),
           prefix := u.prefix.GetOr(lab.prefix))
  }

  /** `updateAllLabels`: every label is updated in place, length and order kept. */
  function UpdateAllList(labels: seq<Label>, u: LabelUpdates): (r: seq<Label>)
    ensures |r| == |labels| && forall i :: 0 <= i < |r| ==> r[i] == UpdateAllOne(labels[i], u)
  {
    seq(|labels|, i requires 0 <= i < |labels| => UpdateAllOne(labels[i], u))
  }

  /** The template's elements, each keeping the position of the label's own element under the same key. */
  function KeepPositions(updated: LabelElements, own: LabelElements): (r: LabelElements)
    ensures forall k :: r.Get(k).position == own.Get(k).position
    ensures forall k :: r.Get(k).(position := updated.Get(k).position) == updated.Get(k)
  {
    LabelElements(
      updated.qrCode.(position := own.qrCode.position),
      updated.uuid.(position := own.uuid.position),
      updated.text.(position := own.text.position),
      updated.companyName.(position := own.companyName.position),
      updated.productName.(position := own.productName.position),
      updated.logo.(position := own.logo.position))
  }

  /**
   * The `Object.keys(clonedElements).forEach` loop of `updateSelectedLabels`: each key's position
   * is overwritten by a copy of the label's own position.
   */
  method CloneKeepingPositions(updated: LabelElements, own: LabelElements) returns (cloned: LabelElements)
    ensures cloned == KeepPositions(updated, own)
  {
    cloned := updated;
    for idx := 0 to |AllKeys|
      invariant forall m :: 0 <= m < idx ==> cloned.Get(AllKeys[m]) == updated.Get(AllKeys[m]).(position := own.Get(AllKeys[m]).position)
      invariant forall k :: k !in AllKeys[..idx] ==> cloned.Get(k) == updated.Get(k)
    {
      var key := AllKeys[idx];
      assert AllKeys[..idx + 1] == AllKeys[..idx] + [key];
      cloned := cloned.Set(key, cloned.Get(key).(position := own.Get(key).position));
    }
    forall k ensures cloned.Get(k) == KeepPositions(updated, own).Get(k) {
      AllKeysComplete(k);
      assert AllKeys[..|AllKeys|] == AllKeys;
    }
    ElementsExtensional(cloned, KeepPositions(updated, own));
  }

  /** `updateSelectedLabels` on one label. */
  function UpdateSelectedOne(lab: Label, selectedIds: seq<string>, u: LabelUpdates): (r: Label)
    ensures lab.id !in selectedIds ==> r == lab
    ensures r.id == lab.id && r.uuid == lab.uuid && r.shortUuid == lab.shortUuid
    ensures r.productName == lab.productName
    ensures lab.id in selectedIds ==>
      && (u.elements.None? ==> r.elements == lab.elements)
      && (u.elements.Some? ==> forall k :: r.elements.Get(k) == u.elements.value.Get(k).(position := lab.elements.Get(k).position))
      && r.size == u.size.GetOr(lab.size)
      && r.companyName == u.companyName.GetOr(lab.companyName)
      && r.text == u.text.GetOr(lab.text) && r.prefix == u.prefix.GetOr(lab.prefix)
  {
    if lab.id !in selectedIds then lab
    else
      var elements := match u.elements
        case Some(e) => KeepPositions(e, lab.elements)
        case None => lab.elements;
      lab.(elements := elements,
             size := u.size.GetOr(lab.size),
             companyName := u.companyName.GetOr(lab.companyName),
             text := u.text.GetOr(lab.text),
             prefix := u.prefix.GetOr(lab.prefix))
  }

  /** `updateSelectedLabels`: unselected labels untouched, length and order kept. */
  function UpdateSelectedList(labels: seq<Label>, selectedIds: seq<string>, u: LabelUpdates): (r: seq<Label>)
    ensures |r| == |labels| && forall i :: 0 <= i < |r| ==> r[i] == UpdateSelectedOne(labels[i], selectedIds, u)
  {
    seq(|labels|, i requires 0 <= i < |labels| => UpdateSelectedOne(labels[i], selectedIds, u))
  }

  /**
   * A bulk update of a selection covering every label keeps every product name and every
   * element position, and makes the company name uniform when it is given.
   */
  lemma BulkUpdateKeepsInstanceData(labels: seq<Label>, selectedIds: seq<string>, u: LabelUpdates)
    requires forall i :: 0 <= i < |labels| ==> labels[i].id in selectedIds
    ensures var r := UpdateSelectedList(labels, selectedIds, u);
      forall i :: 0 <= i < |labels| ==>
        && r[i].productName == labels[i].productName
        && (forall k :: r[i].elements.Get(k).position == labels[i].elements.Get(k).position)
        && (u.companyName.Some? ==> r[i].companyName == u.companyName.value)
        && (u.size.Some? ==> r[i].size == u.size.value)
  {
  }

  /** Unlike `updateSelectedLabels`, `updateAllLabels` replaces the element positions with the template's. */
  lemma UpdateAllTakesTemplatePositions(labels: seq<Label>, u: LabelUpdates)
    requires u.elements.Some?
    ensures forall i :: 0 <= i < |labels| ==> UpdateAllList(labels, u)[i].elements == u.elements.value
  {
  }

  /** The hook's state: the current label list. */
  class LabelsHook {
    var labels: seq<Label>

    constructor ()
      ensures labels == []
    {
      labels := [];
    }

    /** `generateLabels`: the new batch becomes the state and is returned. */
    method GenerateLabels(quantity: int, labelSize: LabelSize, elements: LabelElements, companyName: string,
                          prefix: string, uuidLength: int, ids: seq<string>, uuids: seq<string>)
      returns (newLabels: seq<Label>)
      requires |ids| == BatchSize(quantity) && |uuids| == BatchSize(quantity)
      modifies this
      ensures newLabels == GenerateList(quantity, labelSize, elements, companyName, prefix, uuidLength, ids, uuids)
      ensures labels == newLabels
    {
      newLabels := GenerateList(quantity, labelSize, elements, companyName, prefix, uuidLength, ids, uuids);
      labels := newLabels;
    }

    method UpdateLabel(updated: Label)
      modifies this
      ensures labels == UpdateLabelList(old(labels), updated)
    {
      labels := UpdateLabelList(labels, updated);
    }

    method UpdateAllLabels(u: LabelUpdates)
      modifies this
      ensures labels == UpdateAllList(old(labels), u)
    {
      labels := UpdateAllList(labels, u);
    }

    /** `updateSelectedLabels`: the `map` over the labels, with the position-keeping loop per selected label. */
    method UpdateSelectedLabels(selectedIds: seq<string>, u: LabelUpdates)
      modifies this
      ensures labels == UpdateSelectedList(old(labels), selectedIds, u)
    {
      var prev := labels;
      var next: seq<Label> := [];
      for i := 0 to |prev|
        invariant |next| == i
        invariant forall m :: 0 <= m < i ==> next[m] == UpdateSelectedOne(prev[m], selectedIds, u)
      {
        var lab := prev[i];
        if lab.id !in selectedIds {
          next := next + [lab];
        } else {
          var elements := lab.elements;
          if u.elements.Some? {
            elements := CloneKeepingPositions(u.elements.value, lab.elements);
          }
          var newLabel := lab.(elements := elements,
                                 size := u.size.GetOr(lab.size),
                                 companyName := u.companyName.GetOr(lab.companyName),
                                 text := u.text.GetOr(lab.text),
                                 prefix := u.prefix.GetOr(lab.prefix));
          next := next + [newLabel];
        }
      }
      labels := next;
    }
  }
}
