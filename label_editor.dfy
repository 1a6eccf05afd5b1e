/**
 * The label editor: a working copy of one label's elements, the padding and spacing being
 * edited, and the drag state. Pointer positions arrive already relative to the editor's box.
 */
module LabelEditor {
  import opened Wrappers
  import opened Types
  import Geometry

  /** A `Partial<ElementStyle>`: `Some` for every field the update carries. */
  datatype ElementPatch = ElementPatch(
    position: Option<Position>,
    size: Option<real>,
    width: Option<real>,
    height: Option<real>,
    textStyle: Option<TextStyle>,
    enabled: Option<bool>,
    color: Option<string>,
    rotation: Option<real>,
    imageUrl: Option<string>,
    aspectRatio: Option<real>)

  const NoChanges := ElementPatch(None, None, None, None, None, None, None, None, None, None)

  /** One optional field under a spread: the patch's value when it carries one, else the current value. */
  function Override<T>(patch: Option<T>, current: Option<T>): (r: Option<T>)
    ensures patch.Some? ==> r == patch
    ensures patch.None? ==> r == current
  {
    if patch.Some? then patch else current
  }

  /** `{ ...element, ...updates }`: a field the patch carries wins, every other is kept. */
  function ApplyPatch(e: ElementStyle, u: ElementPatch): (r: ElementStyle)
    ensures r.position == u.position.GetOr(e.position) && r.size == u.size.GetOr(e.size)
    ensures r.enabled == u.enabled.GetOr(e.enabled)
    ensures u.width.Some? ==> r.width == u.width
    ensures u.width.None?  ==> r.width == e.width
    ensures u.textStyle.Some? ==> r.textStyle == u.textStyle
    ensures u.textStyle.None? ==> r.textStyle == e.textStyle
    ensures u.height.Some? ==> r.height == u.height
    ensures u.height.None?  ==> r.height == e.height
    ensures u.color.Some? ==> r.color == u.color
    ensures u.color.None? ==> r.color == e.color
    ensures u.rotation.Some? ==> r.rotation == u.rotation
    ensures u.rotation.None?  ==> r.rotation == e.rotation
    ensures u.imageUrl.Some? ==> r.imageUrl == u.imageUrl
    ensures u.imageUrl.None?  ==> r.imageUrl == e.imageUrl
    ensures u.aspectRatio.Some? ==> r.aspectRatio == u.aspectRatio
    ensures u.aspectRatio.None?  ==> r.aspectRatio == e.aspectRatio
  {
    ElementStyle(
      u.position.GetOr(e.position),
      u.size.GetOr(e.size),
      Override(u.width, e.width),
      Override(u.height, e.height),
      Override(u.textStyle, e.textStyle),
      u.enabled.GetOr(e.enabled),
      Override(u.color, e.color),
      Override(u.rotation, e.rotation),
      Override(u.imageUrl, e.imageUrl),
      Override(u.aspectRatio, e.aspectRatio))
  }

  /** An empty patch changes nothing, and applying the same patch twice is applying it once. */
  lemma PatchLaws(e: ElementStyle, u: ElementPatch)
    ensures ApplyPatch(e, NoChanges) == e
    ensures ApplyPatch(ApplyPatch(e, u), u) == ApplyPatch(e, u)
  {
  }

  /** A `Partial<TextStyle>`. */
  datatype TextStylePatch = TextStylePatch(
    align: Option<Align>,
    multiline: Option<bool>,
    maxWidth: Option<real>,
    color: Option<string>,
    bold: Option<bool>,
    italic: Option<bool>,
    underline: Option<bool>,
    lineHeight: Option<real>,
    rotation: Option<real>)

  function ApplyTextPatch(t: TextStyle, u: TextStylePatch): (r: TextStyle)
    ensures r.align == u.align.GetOr(t.align) && r.multiline == u.multiline.GetOr(t.multiline)
    ensures r.color == u.color.GetOr(t.color)
    ensures u.maxWidth.Some? ==> r.maxWidth == u.maxWidth
    ensures u.maxWidth.None?  ==> r.maxWidth == t.maxWidth
    ensures u.bold.Some? ==> r.bold == u.bold
    ensures u.bold.None?  ==> r.bold == t.bold
    ensures u.italic.Some? ==> r.italic == u.italic
    ensures u.italic.None?  ==> r.italic == t.italic
    ensures u.underline.Some? ==> r.underline == u.underline
    ensures u.underline.None?  ==> r.underline == t.underline
    ensures u.lineHeight.Some? ==> r.lineHeight == u.lineHeight
    ensures u.lineHeight.None?  ==> r.lineHeight == t.lineHeight
    ensures u.rotation.Some? ==> r.rotation == u.rotation
    ensures u.rotation.None?  ==> r.rotation == t.rotation
  {
    TextStyle(
      u.align.GetOr(t.align),
      u.multiline.GetOr(t.multiline),
      Override(u.maxWidth, t.maxWidth),
      u.color.GetOr(t.color),
      Override(u.bold, t.bold),
      Override(u.italic, t.italic),
      Override(u.underline, t.underline),
      Override(u.lineHeight, t.lineHeight),
      Override(u.rotation, t.rotation))
  }

  /** `handleElementColorUpdate` on one element: the text colour when it has a text style, else its own colour. */
  function Recolour(e: ElementStyle, color: string): (r: ElementStyle)
    ensures e.textStyle.Some? ==> r == e.(textStyle := Some(e.textStyle.value.(color := color)))
    ensures e.textStyle.None? ==> r == e.(color := Some(color))
  {
    if e.textStyle.Some? then e.(textStyle := Some(e.textStyle.value.(color := color)))
    else e.(color := Some(color))
  }

  /** The label `handleSave` emits: the working elements, and the edited padding and spacing in its size. */
  function EditedLabel(lab: Label, elements: LabelElements, padding: Option<real>, spacing: real): (r: Label)
    ensures r.elements == elements && r.size.padding == padding && r.size.elementSpacing == spacing
    ensures r.(elements := lab.elements, size := lab.size) == lab
    ensures r.size.(padding := lab.size.padding, elementSpacing := lab.size.elementSpacing) == lab.size
  {
    lab.(elements := elements, size := lab.size.(padding := padding, elementSpacing := spacing))
  }

  /** `label.size.elementSpacing || 1`: a zero spacing is restored as 1. */
  function RestoredSpacing(ls: LabelSize): (r: real)
    ensures ls.elementSpacing != 0.0 ==> r == ls.elementSpacing
    ensures ls.elementSpacing == 0.0 ==> r == 1.0
  {
    if ls.elementSpacing != 0.0 then ls.elementSpacing else 1.0
  }

  /**
   * Saving right after a cancel gives back the label as it came in, except that a zero spacing
   * comes back as 1.
   */
  lemma SaveAfterCancel(lab: Label)
    ensures lab.size.elementSpacing != 0.0 ==>
      EditedLabel(lab, lab.elements, lab.size.padding, RestoredSpacing(lab.size)) == lab
    ensures lab.size.elementSpacing == 0.0 ==>
      EditedLabel(lab, lab.elements, lab.size.padding, RestoredSpacing(lab.size)) == lab.(size := lab.size.(elementSpacing := 1.0))
  {
  }

  /** The label size the drag clamps against: the label's own, with the editor's padding and spacing. */
  function DragBox(lab: Label, padding: Option<real>, spacing: real): LabelSize {
    lab.size.(padding := padding, elementSpacing := spacing)
  }

  /** Where a drag would put the element before clamping: the start position plus the pointer's delta in label units. */
  function UnclampedDrag(startPos: Position, dragStart: Position, pointer: Position, ls: LabelSize): Position {
    var scale := Geometry.ScaleFactor(ls.unit);
    Position(startPos.x + (pointer.x - dragStart.x) / scale, startPos.y + (pointer.y - dragStart.y) / scale)
  }

  /**
   * The position a drag moves an element to: start position plus pointer delta in label units,
   * clamped into the padded label box, so the clamp's own laws apply to it.
   */
  function DraggedPosition(e: ElementStyle, startPos: Position, dragStart: Position, pointer: Position,
                           ls: LabelSize): (r: Position)
    ensures r == Geometry.ConstrainPosition(UnclampedDrag(startPos, dragStart, pointer, ls), e.size, ls, e.width)
    ensures !ls.allowElementsOutside ==>
      r.x >= Geometry.EffectivePadding(ls) && r.y >= Geometry.EffectivePadding(ls)
    ensures !ls.allowElementsOutside && Geometry.XLimit(e.size, ls, e.width) >= Geometry.EffectivePadding(ls) ==>
      r.x <= Geometry.XLimit(e.size, ls, e.width)
    ensures !ls.allowElementsOutside && Geometry.YLimit(e.size, ls) >= Geometry.EffectivePadding(ls) ==>
      r.y <= Geometry.YLimit(e.size, ls)
    ensures ls.allowElementsOutside ==>
      r == Position(startPos.x + (pointer.x - dragStart.x) / Geometry.ScaleFactor(ls.unit),
                    startPos.y + (pointer.y - dragStart.y) / Geometry.ScaleFactor(ls.unit))
  {
    var scale := Geometry.ScaleFactor(ls.unit);
    Geometry.ConstrainPosition(
      Position(startPos.x + (pointer.x - dragStart.x) / scale, startPos.y + (pointer.y - dragStart.y) / scale),
      e.size, ls, e.width)
  }

  /** A drag that does not move the pointer leaves a legally placed element where it started. */
  lemma DragWithoutMotion(e: ElementStyle, startPos: Position, dragStart: Position, ls: LabelSize)
    requires !ls.allowElementsOutside
    requires Geometry.EffectivePadding(ls) <= startPos.x <= Geometry.XLimit(e.size, ls, e.width)
    requires Geometry.EffectivePadding(ls) <= startPos.y <= Geometry.YLimit(e.size, ls)
    ensures DraggedPosition(e, startPos, dragStart, dragStart, ls) == startPos
  {
  }

  /** The result outcome of `handleSave`: which of the two optional callbacks it calls. */
  datatype AfterSave = CallsNext | CallsClose | CallsNothing

  function SaveCallback(hasOnNext: bool, hasOnClose: bool): (r: AfterSave)
    ensures r == CallsNext <==> hasOnNext
    ensures r == CallsClose <==> !hasOnNext && hasOnClose
  {
    if hasOnNext then CallsNext else if hasOnClose then CallsClose else CallsNothing
  }

  /** Every mutable piece of the editor's state, as one value. */
  datatype EditorFields = EditorFields(
    lab: Label,
    elements: LabelElements,
    padding: Option<real>,
    elementSpacing: real,
    isPaddingEnabled: bool,
    isSpacingEnabled: bool,
    showSaveCancel: bool,
    isDragging: bool,
    draggingElement: Option<ElementKey>,
    startDragPos: Position,
    elementStartPos: Position)

  /** The editor component's state for one label. */
  class Editor {
    /** The `label` prop, which the parent may replace on a re-render. */
    var lab: Label
    var elements: LabelElements
    var padding: Option<real>
    var elementSpacing: real
    var isPaddingEnabled: bool
    var isSpacingEnabled: bool
    var showSaveCancel: bool
    var isDragging: bool
    var draggingElement: Option<ElementKey>
    var startDragPos: Position
    var elementStartPos: Position

    /** The whole mutable state, so that a handler's contract can say what it leaves unchanged. */
    function State(): EditorFields
      reads this
    {
      EditorFields(lab, elements, padding, elementSpacing, isPaddingEnabled, isSpacingEnabled, showSaveCancel,
                   isDragging, draggingElement, startDragPos, elementStartPos)
    }

    /** The initial state, as the `useState` defaults give it. */
    constructor (l: Label)
      ensures lab == l && elements == l.elements && padding == Some(0.0) && elementSpacing == 0.0
      ensures !isPaddingEnabled && !isSpacingEnabled && !showSaveCancel && !isDragging && draggingElement == None
    {
      lab := l;
      elements := l.elements;
      padding := Some(0.0);
      elementSpacing := 0.0;
      isPaddingEnabled := false;
      isSpacingEnabled := false;
      showSaveCancel := false;
      isDragging := false;
      draggingElement := None;
      startDragPos := Position(0.0, 0.0);
      elementStartPos := Position(0.0, 0.0);
    }

    /**
     * A new `label` prop. The effect on `label.elements` runs only when the elements change:
     * it resets the elements, padding, spacing and both toggles, and keeps save/cancel and the drag.
     */
    method ReceiveLabel(l: Label)
      modifies this
      ensures l.elements != old(lab.elements) ==>
        State() == old(State()).(lab := l, elements := l.elements, padding := Some(0.0), elementSpacing := 0.0,
                                 isPaddingEnabled := false, isSpacingEnabled := false)
      ensures l.elements == old(lab.elements) ==> State() == old(State()).(lab := l)
    {
      var changed := l.elements != lab.elements;
      lab := l;
      if changed {
        elements := l.elements;
        padding := Some(0.0);
        elementSpacing := 0.0;
        isPaddingEnabled := false;
        isSpacingEnabled := false;
      }
    }

    /** `handleElementUpdate`: only the target element changes, and save/cancel is shown. */
    method HandleElementUpdate(key: ElementKey, u: ElementPatch)
      modifies this
      ensures elements == old(elements).Set(key, ApplyPatch(old(elements).Get(key), u))
      ensures State() == old(State()).(elements := elements, showSaveCancel := true)
    {
      elements := elements.Set(key, ApplyPatch(elements.Get(key), u));
      showSaveCancel := true;
    }

    method HandleElementColorUpdate(key: ElementKey, color: string)
      modifies this
      ensures elements == old(elements).Set(key, Recolour(old(elements).Get(key), color))
      ensures State() == old(State()).(elements := elements, showSaveCancel := true)
    {
      elements := elements.Set(key, Recolour(elements.Get(key), color));
      showSaveCancel := true;
    }

    /** `handleTextStyleUpdate`: an element without a text style is left as it is, and nothing is shown. */
    method HandleTextStyleUpdate(key: ElementKey, u: TextStylePatch)
      modifies this
      ensures old(elements).Get(key).textStyle.None? ==>
        elements == old(elements) && showSaveCancel == old(showSaveCancel)
      ensures old(elements).Get(key).textStyle.Some? ==>
        elements == old(elements).Set(key, old(elements).Get(key).(textStyle :=
          Some(ApplyTextPatch(old(elements).Get(key).textStyle.value, u)))) && showSaveCancel
      ensures State() == old(State()).(elements := elements, showSaveCancel := showSaveCancel)
    {
      var e := elements.Get(key);
      if e.textStyle.Some? {
        elements := elements.Set(key, e.(textStyle := Some(ApplyTextPatch(e.textStyle.value, u))));
        showSaveCancel := true;
      }
    }

    /** `handlePaddingChange`: a parsed value (None is NaN) is accepted only when it is at least 0. */
    method HandlePaddingChange(parsed: Option<real>)
      modifies this
      ensures parsed.Some? && parsed.value >= 0.0 ==> padding == parsed && showSaveCancel
      ensures !(parsed.Some? && parsed.value >= 0.0) ==> padding == old(padding) && showSaveCancel == old(showSaveCancel)
      ensures State() == old(State()).(padding := padding, showSaveCancel := showSaveCancel)
    {
      if parsed.Some? && parsed.value >= 0.0 {
        padding := parsed;
        showSaveCancel := true;
      }
    }

    method HandleSpacingChange(parsed: Option<real>)
      modifies this
      ensures parsed.Some? && parsed.value >= 0.0 ==> elementSpacing == parsed.value && showSaveCancel
      ensures !(parsed.Some? && parsed.value >= 0.0) ==>
        elementSpacing == old(elementSpacing) && showSaveCancel == old(showSaveCancel)
      ensures State() == old(State()).(elementSpacing := elementSpacing, showSaveCancel := showSaveCancel)
    {
      if parsed.Some? && parsed.value >= 0.0 {
        elementSpacing := parsed.value;
        showSaveCancel := true;
      }
    }

    /** Enabling padding sets it to 5, disabling to 0. */
    method HandlePaddingToggle(enabled: bool)
      modifies this
      ensures isPaddingEnabled == enabled && padding == Some(if enabled then 5.0 else 0.0) && showSaveCancel
      ensures State() == old(State()).(isPaddingEnabled := enabled, padding := padding, showSaveCancel := true)
    {
      isPaddingEnabled := enabled;
      padding := Some(if enabled then 5.0 else 0.0);
      showSaveCancel := true;
    }

    /** Enabling spacing sets it to 1, disabling to 0. */
    method HandleSpacingToggle(enabled: bool)
      modifies this
      ensures isSpacingEnabled == enabled && elementSpacing == (if enabled then 1.0 else 0.0) && showSaveCancel
      ensures State() == old(State()).(isSpacingEnabled := enabled, elementSpacing := elementSpacing,
                                       showSaveCancel := true)
    {
      isSpacingEnabled := enabled;
      elementSpacing := if enabled then 1.0 else 0.0;
      showSaveCancel := true;
    }

    /** `handleMouseDown`: the drag starts, remembering the pointer and the element's current position. */
    method HandleMouseDown(key: ElementKey, pointer: Position)
      modifies this
      ensures isDragging && draggingElement == Some(key)
      ensures startDragPos == pointer && elementStartPos == old(elements).Get(key).position
      ensures State() == old(State()).(isDragging := true, draggingElement := Some(key), startDragPos := pointer,
                                       elementStartPos := elementStartPos)
    {
      isDragging := true;
      draggingElement := Some(key);
      startDragPos := pointer;
      elementStartPos := elements.Get(key).position;
    }

    /**
     * `handleMouseMove`: without an active drag nothing changes; otherwise only the dragged
     * element's position changes, to the clamped start position plus the pointer's delta.
     */
    method HandleMouseMove(pointer: Position)
      modifies this
      ensures !(old(isDragging) && old(draggingElement).Some?) ==>
        elements == old(elements) && showSaveCancel == old(showSaveCancel)
      ensures old(isDragging) && old(draggingElement).Some? ==>
        var key := old(draggingElement).value;
        && elements == old(elements).Set(key, old(elements).Get(key).(position :=
             DraggedPosition(old(elements).Get(key), old(elementStartPos), old(startDragPos), pointer,
                             DragBox(lab, old(padding), old(elementSpacing)))))
        && showSaveCancel
      ensures State() == old(State()).(elements := elements, showSaveCancel := showSaveCancel)
    {
      if !isDragging || draggingElement.None? {
        return;
      }
      var key := draggingElement.value;
      var e := elements.Get(key);
      var newPosition := DraggedPosition(e, elementStartPos, startDragPos, pointer, DragBox(lab, padding, elementSpacing));
      elements := elements.Set(key, e.(position := newPosition));
      showSaveCancel := true;
    }

    method HandleMouseUp()
      modifies this
      ensures !isDragging && draggingElement == None
      ensures State() == old(State()).(isDragging := false, draggingElement := None)
    {
      isDragging := false;
      draggingElement := None;
    }

    /** `handleSave`: emits the edited label, hides save/cancel, and calls `onNext` before `onClose`. */
    method HandleSave(hasOnNext: bool, hasOnClose: bool) returns (emitted: Label, after: AfterSave)
      modifies this
      ensures emitted == EditedLabel(lab, elements, padding, elementSpacing)
      ensures after == SaveCallback(hasOnNext, hasOnClose)
      ensures !showSaveCancel
      ensures State() == old(State()).(showSaveCancel := false)
    {
      emitted := lab.(elements := elements, size := lab.size.(padding := padding, elementSpacing := elementSpacing));
      showSaveCancel := false;
      after := if hasOnNext then CallsNext else if hasOnClose then CallsClose else CallsNothing;
    }

    /** `handleCancel`: restores the label's elements, padding and spacing (`|| 1`), and closes if it can. */
    method HandleCancel(hasOnClose: bool) returns (closes: bool)
      modifies this
      ensures elements == lab.elements && padding == lab.size.padding && elementSpacing == RestoredSpacing(lab.size)
      ensures !showSaveCancel && closes == hasOnClose
      ensures State() == old(State()).(elements := lab.elements, padding := lab.size.padding,
                                       elementSpacing := elementSpacing, showSaveCancel := false)
    {
      elements := lab.elements;
      padding := lab.size.padding;
      elementSpacing := if lab.size.elementSpacing != 0.0 then lab.size.elementSpacing else 1.0;
      showSaveCancel := false;
      closes := hasOnClose;
    }
  }
}
