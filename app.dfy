/**
 * The application shell: the four-step wizard (label size, template editor, other settings,
 * generated labels), the settings it carries between steps, batch generation from those
 * settings, and the preview uuid shown while editing the template. Fresh uuids are supplied by
 * the caller.
 */
module App {
  import opened Wrappers
  import opened Types
  import opened JsNumbers
  import LabelStore
  import PdfExport

  /** What the wizard's buttons ask for; each is offered only on the step that renders it. */
  datatype WizardEvent = Next | Back | Generate | Restart

  /** The step after an event: 1 -> 2 -> 3, 3 -> 2 back, 3 -> 4 on generate, 4 -> 1 on restart. */
  function StepAfter(step: int, ev: WizardEvent): (r: int)
    ensures 1 <= step <= 4 ==> 1 <= r <= 4
    ensures r == 4 ==> step == 4 || (step == 3 && ev == Generate)
    ensures r == 1 ==> step == 1 || (step == 4 && ev == Restart)
  {
    match ev
    case Next => if step == 1 then 2 else if step == 2 then 3 else step
    case Back => if step == 3 then 2 else step
    case Generate => if step == 3 then 4 else step
    case Restart => if step == 4 then 1 else step
  }

  /** Applies a run of events from left to right. */
  function Run(step: int, evs: seq<WizardEvent>): int
    decreases |evs|
  {
    if |evs| == 0 then step else Run(StepAfter(step, evs[0]), evs[1..])
  }

  /** Whatever the user clicks, the wizard stays on one of its four steps. */
  lemma {:induction false} RunStaysInSteps(step: int, evs: seq<WizardEvent>)
    requires 1 <= step <= 4
    ensures 1 <= Run(step, evs) <= 4
    decreases |evs|
  {
    if |evs| > 0 {
      RunStaysInSteps(StepAfter(step, evs[0]), evs[1..]);
    }
  }

  /** Running two event sequences one after the other is running their concatenation. */
  lemma {:induction false} RunConcat(step: int, a: seq<WizardEvent>, b: seq<WizardEvent>)
    ensures Run(step, a + b) == Run(Run(step, a), b)
    decreases |a|
  {
    if |a| == 0 {
      assert a + b == b;
    } else {
      assert (a + b)[1..] == a[1..] + b;
      RunConcat(StepAfter(step, a[0]), a[1..], b);
    }
  }

  /** One full round through the wizard returns to its start. */
  lemma FullRound()
    ensures Run(1, [Next, Next, Back, Next, Generate]) == 4
    ensures Run(1, [Next, Next, Generate, Restart]) == 1
  {
  }

  /** The generated label for one slot: the settings as they are, the product name empty. */
  function SettingsLabel(id: string, uuid: string, labelSize: LabelSize, elements: LabelElements,
                         companyName: string, text: string, prefix: string, uuidLength: int): (r: Label)
    ensures r.id == id && r.uuid == uuid && r.shortUuid == Prefix(uuid, uuidLength)
    ensures r.size == labelSize && r.elements == elements && r.companyName == companyName && r.prefix == prefix
    ensures r.productName == "" && r.text == text
    ensures r == LabelStore.NewLabel(id, uuid, labelSize, elements, companyName, prefix, uuidLength).(text := text)
  {
    Label(id, labelSize, elements, companyName, uuid, Prefix(uuid, uuidLength), prefix, "", text)
  }

  /** `generateLabels` in the application: `quantity` labels sharing the current settings. */
  function GenerateBatch(quantity: int, labelSize: LabelSize, elements: LabelElements, companyName: string,
                         text: string, prefix: string, uuidLength: int, ids: seq<string>, uuids: seq<string>): (r: seq<Label>)
    requires |ids| == LabelStore.BatchSize(quantity) && |uuids| == LabelStore.BatchSize(quantity)
    ensures |r| == LabelStore.BatchSize(quantity)
    ensures forall i :: 0 <= i < |r| ==>
      && r[i].id == ids[i] && r[i].uuid == uuids[i] && r[i].shortUuid == Prefix(uuids[i], uuidLength)
      && r[i].size == labelSize && r[i].elements == elements
      && r[i].companyName == companyName && r[i].prefix == prefix && r[i].text == text && r[i].productName == ""
  {
    seq(LabelStore.BatchSize(quantity), i requires 0 <= i < LabelStore.BatchSize(quantity) =>
      SettingsLabel(ids[i], uuids[i], labelSize, elements, companyName, text, prefix, uuidLength))
  }

  /** The batch differs from the hook's own `generateLabels` only in carrying the current text. */
  lemma GenerateBatchIsHookBatchWithText(quantity: int, labelSize: LabelSize, elements: LabelElements,
                                         companyName: string, text: string, prefix: string, uuidLength: int,
                                         ids: seq<string>, uuids: seq<string>)
    requires |ids| == LabelStore.BatchSize(quantity) && |uuids| == LabelStore.BatchSize(quantity)
    ensures var a := GenerateBatch(quantity, labelSize, elements, companyName, text, prefix, uuidLength, ids, uuids);
      var h := LabelStore.GenerateList(quantity, labelSize, elements, companyName, prefix, uuidLength, ids, uuids);
      |a| == |h| && forall i :: 0 <= i < |a| ==> a[i] == h[i].(text := text)
  {
  }

  /** `companyName || 'Company Name'`, `text || 'Custom Text'`. */
  function OrPlaceholder(s: string, placeholder: string): (r: string)
    ensures s == "" ==> r == placeholder
    ensures s != "" ==> r == s
  {
    if s != "" then s else placeholder
  }

  /** `uuidLength` after the template editor reports an update: the new short uuid's length only when it changed. */
  function UuidLengthAfterUpdate(uuidLength: int, previewShortUuid: string, updated: Label): (r: int)
    ensures updated.shortUuid == previewShortUuid ==> r == uuidLength
    ensures updated.shortUuid != previewShortUuid ==> r == |updated.shortUuid|
  {
    if updated.shortUuid != previewShortUuid then |updated.shortUuid| else uuidLength
  }

  const DefaultTextStyle := TextStyle(Left, false, Some(80.0), "#000000", None, None, None, Some(1.2), Some(0.0))

  const DefaultLabelSize := LabelSize(100.0, 50.0, Mm, Some(0.0), 0.0, false, false, Border(false, 0.3, "#000000"))

  const DefaultElements := LabelElements(
    ElementStyle(Position(10.0, 10.0), 50.0, None, None, None, false, None, Some(0.0), None, None),
    ElementStyle(Position(10.0, 35.0), 12.0, None, None, None, false, None, Some(0.0), None, None),
    ElementStyle(Position(10.0, 25.0), 14.0, None, None, Some(DefaultTextStyle), false, None, Some(0.0), None, None),
    ElementStyle(Position(10.0, 45.0), 14.0, None, None, Some(DefaultTextStyle), false, None, Some(0.0), None, None),
    ElementStyle(Position(70.0, 45.0), 14.0, None, None, Some(DefaultTextStyle), false, None, Some(0.0), None, None),
    ElementStyle(Position(60.0, 10.0), 40.0, None, None, None, false, None, Some(0.0), None, None))

  /** Every piece of the application's state, as one value. */
  datatype Fields = Fields(
    step: int,
    labelSize: LabelSize,
    elements: LabelElements,
    companyName: string,
    text: string,
    prefix: string,
    quantity: int,
    uuidLength: int,
    pdfSettings: PdfSettings,
    previewUuid: string,
    previewShortUuid: string,
    labels: seq<Label>)

  /** The application's state. */
  class AppState {
    var step: int
    var labelSize: LabelSize
    var elements: LabelElements
    var companyName: string
    var text: string
    var prefix: string
    var quantity: int
    var uuidLength: int
    var pdfSettings: PdfSettings
    var previewUuid: string
    var previewShortUuid: string
    var labels: seq<Label>

    /** The whole state, so that a handler's contract can say what it leaves unchanged. */
    function State(): Fields
      reads this
    {
      Fields(step, labelSize, elements, companyName, text, prefix, quantity, uuidLength, pdfSettings,
             previewUuid, previewShortUuid, labels)
    }

    /** The preview short uuid is always cut from the preview uuid at the current length. */
    predicate PreviewInSync()
      reads this
    {
      previewShortUuid == Prefix(previewUuid, uuidLength)
    }

    /** The initial state, after the first run of the preview effect with the fresh uuid `preview`. */
    constructor (preview: string)
      ensures step == 1 && labelSize == DefaultLabelSize && elements == DefaultElements
      ensures companyName == "" && text == "" && prefix == "" && quantity == 1 && uuidLength == 8
      ensures pdfSettings == PdfSettings(Single, Some(4), None) && labels == []
      ensures previewUuid == preview && PreviewInSync()
    {
      step := 1;
      labelSize := DefaultLabelSize;
      elements := DefaultElements;
      companyName := "";
      text := "";
      prefix := "";
      quantity := 1;
      uuidLength := 8;
      pdfSettings := PdfSettings(Single, Some(4), None);
      previewUuid := preview;
      previewShortUuid := Prefix(preview, 8);
      labels := [];
    }

    /** A wizard button other than generate. */
    method Fire(ev: WizardEvent)
      requires ev != Generate
      modifies this
      ensures step == StepAfter(old(step), ev)
      ensures State() == old(State()).(step := StepAfter(old(step), ev))
    {
      step := StepAfter(step, ev);
    }

    /**
     * `setUuidLength` and the preview effect that follows it: a changed length draws the fresh
     * uuid `newUuid` and cuts the preview short uuid from it; an unchanged one runs no effect.
     */
    method SetUuidLength(n: int, newUuid: string)
      modifies this
      ensures uuidLength == n
      ensures n != old(uuidLength) ==> previewUuid == newUuid && previewShortUuid == Prefix(newUuid, n)
      ensures n == old(uuidLength) ==> previewUuid == old(previewUuid) && previewShortUuid == old(previewShortUuid)
      ensures old(PreviewInSync()) ==> PreviewInSync()
      ensures State() == old(State()).(uuidLength := uuidLength, previewUuid := previewUuid,
                                       previewShortUuid := previewShortUuid)
    {
      if n != uuidLength {
        uuidLength := n;
        previewUuid := newUuid;
        previewShortUuid := Prefix(newUuid, n);
      }
    }

    /** The template label shown by the step-2 editor. */
    function TemplateLabel(): (r: Label)
      reads this
      ensures r.id == "template" && r.productName == "Product Name"
      ensures r.size == labelSize && r.elements == elements && r.prefix == prefix
      ensures r.companyName == OrPlaceholder(companyName, "Company Name") && r.text == OrPlaceholder(text, "Custom Text")
      ensures r.uuid == previewUuid && r.shortUuid == previewShortUuid
    {
      Label("template", labelSize, elements, OrPlaceholder(companyName, "Company Name"), previewUuid,
            previewShortUuid, prefix, "Product Name", OrPlaceholder(text, "Custom Text"))
    }

    /** The step-2 `onUpdate`: the template's fields are copied back, and the uuid length only when the short uuid changed. */
    method Step2OnUpdate(updated: Label, newUuid: string)
      modifies this
      ensures elements == updated.elements && labelSize == updated.size
      ensures companyName == updated.companyName && text == updated.text && prefix == updated.prefix
      ensures uuidLength == UuidLengthAfterUpdate(old(uuidLength), old(previewShortUuid), updated)
      ensures updated.shortUuid != old(previewShortUuid) && |updated.shortUuid| != old(uuidLength) ==>
        previewUuid == newUuid && previewShortUuid == Prefix(newUuid, |updated.shortUuid|)
      ensures !(updated.shortUuid != old(previewShortUuid) && |updated.shortUuid| != old(uuidLength)) ==>
        previewUuid == old(previewUuid) && previewShortUuid == old(previewShortUuid)
      ensures old(PreviewInSync()) ==> PreviewInSync()
      ensures State() == old(State()).(elements := updated.elements, labelSize := updated.size,
        companyName := updated.companyName, text := updated.text, prefix := updated.prefix,
        uuidLength := uuidLength, previewUuid := previewUuid, previewShortUuid := previewShortUuid)
    {
      elements := updated.elements;
      labelSize := updated.size;
      companyName := updated.companyName;
      text := updated.text;
      prefix := updated.prefix;
      if updated.shortUuid != previewShortUuid {
        SetUuidLength(|updated.shortUuid|, newUuid);
      }
    }

    /** `generateLabels`: the batch from the current settings becomes the label list, and step 4 is shown. */
    method GenerateLabels(ids: seq<string>, uuids: seq<string>)
      requires |ids| == LabelStore.BatchSize(quantity) && |uuids| == LabelStore.BatchSize(quantity)
      modifies this
      ensures State() == old(State()).(labels := labels, step := 4)
      ensures labels == GenerateBatch(quantity, labelSize, elements, companyName, text, prefix, uuidLength, ids, uuids)
    {
      labels := GenerateBatch(quantity, labelSize, elements, companyName, text, prefix, uuidLength, ids, uuids);
      step := 4;
    }

    /** `handleExportPDF`: the selection is exported with the current PDF settings. */
    method HandleExportPdf(selected: seq<Label>) returns (result: PdfExport.ExportResult)
      requires |selected| >= 1 && pdfSettings.pdfType == Multiple && pdfSettings.pageSettings.Some? ==>
        PdfExport.Packable(PdfExport.GridFor(pdfSettings.pageSettings.value, selected[0]))
      ensures |selected| == 0 <==> result == PdfExport.NothingExported
      ensures result.Exported? ==> fresh(result.pdf) && result.pdf.saved == Some("labels.pdf")
      ensures result.Exported? && pdfSettings.pdfType == Multiple && pdfSettings.pageSettings.Some? ==>
        PdfExport.PackedPrefix(result.pdf.images, PdfExport.GridFor(pdfSettings.pageSettings.value, selected[0]),
                               selected, |selected|)
      ensures result.Exported? && !(pdfSettings.pdfType == Multiple && pdfSettings.pageSettings.Some?) ==>
        |result.pdf.pages| == |selected| &&
        result.pdf.images == seq(|selected|, i requires 0 <= i < |selected| =>
          PdfExport.Placement(i, selected[i], 0.0, 0.0, PdfExport.SingleWidthPt(selected[0]),
                              PdfExport.SingleHeightPt(selected[0])))
    {
      result := PdfExport.ExportToPdf(selected, pdfSettings);
    }
  }
}
