/**
 * The numeric inputs of one element's controls: three text buffers that mirror the element's x,
 * y and size, the values forwarded to the parent while typing, and the repair of a bad buffer on
 * blur. `parseFloat` and `Number.prototype.toString` are parameters: `parse` returns None for NaN.
 */
module ElementControls {
  import opened Wrappers
  import opened Types

  /** What the controls forward to the parent. */
  datatype Forwarded = PositionUpdate(position: Position) | SizeUpdate(size: real)

  /** The position an edit of one axis forwards: the typed value on that axis, the element's value on the other. */
  function ForwardedPosition(axis: Axis, value: string, current: Position, parse: string -> Option<real>): (r: Option<Position>)
    ensures value == "" || parse(value).None? ==> r.None?
    ensures r.Some? ==> axis == X ==> r.value == Position(parse(value).value, current.y)
    ensures r.Some? ==> axis == Y ==> r.value == Position(current.x, parse(value).value)
    ensures value != "" && parse(value).Some? ==> r.Some?
  {
    if value == "" || parse(value).None? then None
    else if axis == X then Some(Position(parse(value).value, current.y))
    else Some(Position(current.x, parse(value).value))
  }

  /** An edit never moves the element along the other axis. */
  lemma EditKeepsOtherAxis(axis: Axis, value: string, current: Position, parse: string -> Option<real>)
    requires ForwardedPosition(axis, value, current, parse).Some?
    ensures var p := ForwardedPosition(axis, value, current, parse).value;
      (axis == X ==> p.y == current.y) && (axis == Y ==> p.x == current.x)
  {
  }

  /** A buffer after blur: an empty or unparsable one is replaced by the element's value shown as text. */
  function Blurred(buffer: string, current: real, parse: string -> Option<real>, show: real -> string): (r: string)
    ensures buffer != "" && parse(buffer).Some? ==> r == buffer
    ensures buffer == "" || parse(buffer).None? ==> r == show(current)
  {
    if buffer == "" || parse(buffer).None? then show(current) else buffer
  }

  /**
   * When showing a value gives text that parses back to it, every blurred buffer holds a number,
   * and blurring again changes nothing.
   */
  lemma BlurRepairs(buffer: string, current: real, parse: string -> Option<real>, show: real -> string)
    requires show(current) != "" && parse(show(current)) == Some(current)
    ensures var r := Blurred(buffer, current, parse, show);
      && r != "" && parse(r).Some?
      && Blurred(r, current, parse, show) == r
      && (buffer == "" || parse(buffer).None? ==> parse(r) == Some(current))
  {
  }

  /** The controls' buffers and what they forwarded. `parse` and `show` are the number conversions. */
  class Controls {
    const parse: string -> Option<real>
    const show: real -> string
    var element: ElementStyle
    var xText: string
    var yText: string
    var sizeText: string
    var forwarded: seq<Forwarded>

    /** The buffers start, and after every change of the element resync, as the element's values shown. */
    predicate InSync()
      reads this
    {
      xText == show(element.position.x) && yText == show(element.position.y) && sizeText == show(element.size)
    }

    constructor (e: ElementStyle, parse: string -> Option<real>, show: real -> string)
      ensures this.parse == parse && this.show == show && element == e && forwarded == []
      ensures InSync()
    {
      this.parse := parse;
      this.show := show;
      element := e;
      xText := show(e.position.x);
      yText := show(e.position.y);
      sizeText := show(e.size);
      forwarded := [];
    }

    /** A new `element` prop; the effect rewrites all three buffers. */
    method ReceiveElement(e: ElementStyle)
      modifies this
      ensures element == e && InSync() && forwarded == old(forwarded)
    {
      element := e;
      xText := show(e.position.x);
      yText := show(e.position.y);
      sizeText := show(e.size);
    }

    /** `handlePositionChange`: the buffer takes the text; a parsable, non-empty text is forwarded. */
    method HandlePositionChange(axis: Axis, value: string)
      modifies this
      ensures axis == X ==> xText == value && yText == old(yText)
      ensures axis == Y ==> yText == value && xText == old(xText)
      ensures var p := ForwardedPosition(axis, value, element.position, parse);
        forwarded == old(forwarded) + (if p.Some? then [PositionUpdate(p.value)] else [])
      ensures sizeText == old(sizeText) && element == old(element)
    {
      if axis == X {
        xText := value;
        if value == "" {
          return;
        }
        var numValue := parse(value);
        if numValue.Some? {
          forwarded := forwarded + [PositionUpdate(Position(numValue.value, element.position.y))];
        }
      } else {
        yText := value;
        if value == "" {
          return;
        }
        var numValue := parse(value);
        if numValue.Some? {
          forwarded := forwarded + [PositionUpdate(Position(element.position.x, numValue.value))];
        }
      }
    }

    /** `handleSizeChange`. */
    method HandleSizeChange(value: string)
      modifies this
      ensures sizeText == value && xText == old(xText) && yText == old(yText) && element == old(element)
      ensures value != "" && parse(value).Some? ==> forwarded == old(forwarded) + [SizeUpdate(parse(value).value)]
      ensures value == "" || parse(value).None? ==> forwarded == old(forwarded)
    {
      sizeText := value;
      if value == "" {
        return;
      }
      var numValue := parse(value);
      if numValue.Some? {
        forwarded := forwarded + [SizeUpdate(numValue.value)];
      }
    }

    /** `handlePositionBlur`: only the blurred axis's buffer may be repaired; nothing is forwarded. */
    method HandlePositionBlur(axis: Axis)
      modifies this
      ensures axis == X ==> xText == Blurred(old(xText), element.position.x, parse, show) && yText == old(yText)
      ensures axis == Y ==> yText == Blurred(old(yText), element.position.y, parse, show) && xText == old(xText)
      ensures sizeText == old(sizeText) && forwarded == old(forwarded) && element == old(element)
    {
      var value := if axis == X then xText else yText;
      if value == "" || parse(value).None? {
        if axis == X {
          xText := show(element.position.x);
        } else {
          yText := show(element.position.y);
        }
      }
    }

    method HandleSizeBlur()
      modifies this
      ensures sizeText == Blurred(old(sizeText), element.size, parse, show)
      ensures xText == old(xText) && yText == old(yText) && forwarded == old(forwarded) && element == old(element)
    {
      if sizeText == "" || parse(sizeText).None? {
        sizeText := show(element.size);
      }
    }
  }
}
