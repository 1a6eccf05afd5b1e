/**
 * The layout and constraint engine of the label editor: unit scale factors, element bounding
 * boxes, the strict overlap test, the clamp of a position into the padded label box, and the
 * 11 x 11 grid search for a position that overlaps no enabled element.
 */
module Geometry {
  import opened Wrappers
  import opened Types

  /** Pixels per millimetre. */
  const MillimetreScale: real := 3.779528

  /** Pixels per label unit. Any unit outside mm, cm and in falls back to the millimetre factor. */
  function ScaleFactor(unit: Unit): (r: real)
    ensures r > 0.0
    ensures unit == Mm ==> r == 3.779528
    ensures unit == Cm ==> r == 37.79528
    ensures unit == In ==> r == 96.0
    ensures !unit.Cm? && !unit.In? ==> r == MillimetreScale
  {
    match unit
    case Mm => MillimetreScale
    case Cm => 37.79528
    case In => 96.0
    case OtherUnit(_) => MillimetreScale
  }

  /** The centimetre factor is exactly ten millimetre factors. */
  lemma CentimetreIsTenMillimetres()
    ensures ScaleFactor(Cm) == 10.0 * ScaleFactor(Mm)
  {
  }

  /** `w || size` on an optional pixel width: an absent or zero width falls back to `size`. */
  function OrSize(w: Option<real>, size: real): (r: real)
    ensures w.Some? && w.value != 0.0 ==> r == w.value
    ensures w.None? || w.value == 0.0 ==> r == size
  {
    match w
    case Some(v) => if v != 0.0 then v else size
    case None => size
  }

  datatype Bounds = Bounds(left: real, top: real, right: real, bottom: real)

  /** An element's box in label units: anchored at its position, `width || size` wide, `size` high, both in pixels. */
  function ElementBounds(e: ElementStyle, scale: real): (b: Bounds)
    requires scale > 0.0
    ensures b.left == e.position.x && b.top == e.position.y
    ensures (b.right - b.left) * scale == OrSize(e.width, e.size)
    ensures (b.bottom - b.top) * scale == e.size
    ensures OrSize(e.width, e.size) >= 0.0 ==> b.right >= b.left
    ensures e.size >= 0.0 ==> b.bottom >= b.top
  {
    BoxAt(e.position, OrSize(e.width, e.size) / scale, e.size / scale)
  }

  /** The box of width `w` and height `h` whose top-left corner is `p`. */
  function BoxAt(p: Position, w: real, h: real): (b: Bounds)
    ensures b.left == p.x && b.top == p.y && b.right - b.left == w && b.bottom - b.top == h
  {
    Bounds(p.x, p.y, p.x + w, p.y + h)
  }

  /** Boxes overlap unless one lies entirely on one side of the other; shared edges do not overlap. */
  function Overlaps(a: Bounds, b: Bounds): (r: bool)
    ensures r <==> (a.left < b.right && b.left < a.right) && (a.top < b.bottom && b.top < a.bottom)
  {
    !(a.right <= b.left || a.left >= b.right || a.bottom <= b.top || a.top >= b.bottom)
  }

  lemma OverlapsSymmetric(a: Bounds, b: Bounds)
    ensures Overlaps(a, b) == Overlaps(b, a)
  {
  }

  /** Boxes that meet only along an edge do not overlap. */
  lemma TouchingBoxesDoNotOverlap(a: Bounds, b: Bounds)
    requires a.right == b.left || a.bottom == b.top
    ensures !Overlaps(a, b) && !Overlaps(b, a)
  {
  }

  /** A point strictly inside box `b`. */
  predicate InsideOpen(b: Bounds, x: real, y: real) {
    b.left < x < b.right && b.top < y < b.bottom
  }

  /** For boxes of positive size, the overlap test is the geometric one: the open boxes share a point. */
  lemma OverlapsIffCommonInteriorPoint(a: Bounds, b: Bounds)
    requires a.left < a.right && a.top < a.bottom
    requires b.left < b.right && b.top < b.bottom
    ensures Overlaps(a, b) <==> exists x, y :: InsideOpen(a, x, y) && InsideOpen(b, x, y)
  {
    if Overlaps(a, b) {
      var lo := if a.left > b.left then a.left else b.left;
      var hi := if a.right < b.right then a.right else b.right;
      var upper := if a.top > b.top then a.top else b.top;
      var lower := if a.bottom < b.bottom then a.bottom else b.bottom;
      assert InsideOpen(a, (lo + hi) / 2.0, (upper + lower) / 2.0);
      assert InsideOpen(b, (lo + hi) / 2.0, (upper + lower) / 2.0);
    }
  }

  function Max(a: real, b: real): real { if a >= b then a else b }
  function Min(a: real, b: real): real { if a <= b then a else b }

  /** `padding || 0`. */
  function EffectivePadding(ls: LabelSize): (r: real)
    ensures ls.padding.None? ==> r == 0.0
    ensures ls.padding.Some? ==> r == ls.padding.value
  {
    ls.padding.GetOr(0.0)
  }

  /** The largest x that keeps an element of pixel width `elementWidth || elementSize` inside the padded box. */
  function XLimit(elementSize: real, ls: LabelSize, elementWidth: Option<real>): real {
    ls.width - OrSize(elementWidth, elementSize) / ScaleFactor(ls.unit) - EffectivePadding(ls)
  }

  /** The largest y that keeps an element of pixel height `elementSize` inside the padded box. */
  function YLimit(elementSize: real, ls: LabelSize): real {
    ls.height - elementSize / ScaleFactor(ls.unit) - EffectivePadding(ls)
  }

  /**
   * `constrainPosition`: unchanged when elements may sit outside; otherwise each coordinate is
   * clamped into [padding, limit], and when the limit is below the padding it pins to the padding.
   */
  function ConstrainPosition(p: Position, elementSize: real, ls: LabelSize, elementWidth: Option<real>): (r: Position)
    ensures ls.allowElementsOutside ==> r == p
    ensures !ls.allowElementsOutside ==>
      && r.x >= EffectivePadding(ls)
      && r.y >= EffectivePadding(ls)
      && (XLimit(elementSize, ls, elementWidth) >= EffectivePadding(ls) ==> r.x <= XLimit(elementSize, ls, elementWidth))
      && (YLimit(elementSize, ls) >= EffectivePadding(ls) ==> r.y <= YLimit(elementSize, ls))
      && (XLimit(elementSize, ls, elementWidth) <= EffectivePadding(ls) ==> r.x == EffectivePadding(ls))
      && (YLimit(elementSize, ls) <= EffectivePadding(ls) ==> r.y == EffectivePadding(ls))
    ensures !ls.allowElementsOutside && EffectivePadding(ls) <= p.x <= XLimit(elementSize, ls, elementWidth) ==> r.x == p.x
    ensures !ls.allowElementsOutside && EffectivePadding(ls) <= p.y <= YLimit(elementSize, ls) ==> r.y == p.y
    ensures !ls.allowElementsOutside && p.x <= EffectivePadding(ls) ==> r.x == EffectivePadding(ls)
    ensures !ls.allowElementsOutside && p.y <= EffectivePadding(ls) ==> r.y == EffectivePadding(ls)
    ensures !ls.allowElementsOutside && EffectivePadding(ls) <= XLimit(elementSize, ls, elementWidth) <= p.x ==>
      r.x == XLimit(elementSize, ls, elementWidth)
    ensures !ls.allowElementsOutside && EffectivePadding(ls) <= YLimit(elementSize, ls) <= p.y ==>
      r.y == YLimit(elementSize, ls)
  {
    if ls.allowElementsOutside then p
    else
      var pad := EffectivePadding(ls);
      Position(
        Max(pad, Min(p.x, XLimit(elementSize, ls, elementWidth))),
        Max(pad, Min(p.y, YLimit(elementSize, ls))))
  }

  /** Constraining an already constrained position changes nothing. */
  lemma ConstrainIdempotent(p: Position, elementSize: real, ls: LabelSize, elementWidth: Option<real>)
    ensures var q := ConstrainPosition(p, elementSize, ls, elementWidth);
      ConstrainPosition(q, elementSize, ls, elementWidth) == q
  {
  }

  /** When the element fits, its whole box lies inside [padding, dimension - padding] on both axes. */
  lemma ConstrainedBoxInsidePaddedLabel(p: Position, elementSize: real, ls: LabelSize, elementWidth: Option<real>)
    requires !ls.allowElementsOutside
    requires XLimit(elementSize, ls, elementWidth) >= EffectivePadding(ls)
    requires YLimit(elementSize, ls) >= EffectivePadding(ls)
    ensures var q := ConstrainPosition(p, elementSize, ls, elementWidth);
      var b := BoxAt(q, OrSize(elementWidth, elementSize) / ScaleFactor(ls.unit), elementSize / ScaleFactor(ls.unit));
      && EffectivePadding(ls) <= b.left && b.right <= ls.width - EffectivePadding(ls)
      && EffectivePadding(ls) <= b.top && b.bottom <= ls.height - EffectivePadding(ls)
  {
  }

  // ---------------------------------------------------------------------------------------
  // findNonOverlappingPosition

  /** `other` is enabled and its box overlaps `b`. */
  predicate HitsEnabled(b: Bounds, other: ElementStyle, scale: real)
    requires scale > 0.0
  {
    other.enabled && Overlaps(b, ElementBounds(other, scale))
  }

  /** Some enabled element of `others` overlaps `b`; disabled ones never count. */
  predicate Blocked(b: Bounds, others: seq<ElementStyle>, scale: real)
    requires scale > 0.0
  {
    exists i :: 0 <= i < |others| && HitsEnabled(b, others[i], scale)
  }

  /** The element's width and height in label units, as the grid search computes them. */
  function SearchWidth(e: ElementStyle, scale: real): real
    requires scale > 0.0
  {
    OrSize(e.width, e.size) / scale
  }

  function SearchHeight(e: ElementStyle, scale: real): real
    requires scale > 0.0
  {
    e.size / scale
  }

  /** Grid step: a tenth of the free interior on each axis. */
  function StepX(e: ElementStyle, ls: LabelSize, scale: real): real
    requires scale > 0.0
  {
    (ls.width - SearchWidth(e, scale) - 2.0 * EffectivePadding(ls)) / 10.0
  }

  function StepY(e: ElementStyle, ls: LabelSize, scale: real): real
    requires scale > 0.0
  {
    (ls.height - SearchHeight(e, scale) - 2.0 * EffectivePadding(ls)) / 10.0
  }

  /** The candidate position of grid cell (i, j). */
  function GridPoint(e: ElementStyle, ls: LabelSize, scale: real, i: int, j: int): Position
    requires scale > 0.0
  {
    Position(
      EffectivePadding(ls) + i as real * StepX(e, ls, scale),
      EffectivePadding(ls) + j as real * StepY(e, ls, scale))
  }

  /** No enabled other element overlaps the element placed at grid cell (i, j). */
  predicate CellFree(e: ElementStyle, others: seq<ElementStyle>, ls: LabelSize, scale: real, i: int, j: int)
    requires scale > 0.0
  {
    !Blocked(BoxAt(GridPoint(e, ls, scale, i, j), SearchWidth(e, scale), SearchHeight(e, scale)), others, scale)
  }

  /** Cell number n in scan order: i = n / 11 is the outer loop, j = n % 11 the inner one. */
  predicate CellFreeAt(e: ElementStyle, others: seq<ElementStyle>, ls: LabelSize, scale: real, n: int)
    requires scale > 0.0
  {
    CellFree(e, others, ls, scale, n / 11, n % 11)
  }

  /** The first free cell number in scan order from `n` to 120. */
  function FirstFreeCell(e: ElementStyle, others: seq<ElementStyle>, ls: LabelSize, scale: real, n: nat): Option<nat>
    requires scale > 0.0
    decreases 121 - n
  {
    if n > 120 then None
    else if CellFreeAt(e, others, ls, scale, n) then Some(n)
    else FirstFreeCell(e, others, ls, scale, n + 1)
  }

  /** What `findNonOverlappingPosition` returns, as a reference definition for the search loop. */
  function NonOverlappingPosition(e: ElementStyle, others: seq<ElementStyle>, ls: LabelSize, scale: real): (r: Position)
    requires scale > 0.0
    ensures r == e.position || r == ConstrainPosition(e.position, e.size, ls, e.width) ||
      exists i, j :: 0 <= i <= 10 && 0 <= j <= 10 && r == GridPoint(e, ls, scale, i, j)
    ensures !ls.preventCollisions || ls.allowElementsOutside ==> r == e.position
  {
    FirstFreeCellIsFirst(e, others, ls, scale, 0);
    if !ls.preventCollisions || ls.allowElementsOutside then e.position
    else if !Blocked(ElementBounds(e, scale), others, scale) then e.position
    else match FirstFreeCell(e, others, ls, scale, 0)
      case Some(n) => GridPoint(e, ls, scale, n / 11, n % 11)
      case None => ConstrainPosition(e.position, e.size, ls, e.width)
  }

  /** FirstFreeCell finds the first free cell at or after `n`, or reports that none is free. */
  lemma {:induction false} FirstFreeCellIsFirst(e: ElementStyle, others: seq<ElementStyle>, ls: LabelSize, scale: real, n: nat)
    requires scale > 0.0
    ensures match FirstFreeCell(e, others, ls, scale, n)
      case Some(m) =>
        && n <= m <= 120
        && CellFreeAt(e, others, ls, scale, m)
        && forall k :: n <= k < m ==> !CellFreeAt(e, others, ls, scale, k)
      case None => forall k :: n <= k <= 120 ==> !CellFreeAt(e, others, ls, scale, k)
    decreases 121 - n
  {
    if n <= 120 && !CellFreeAt(e, others, ls, scale, n) {
      FirstFreeCellIsFirst(e, others, ls, scale, n + 1);
    }
  }

  /** Conversely, the first free cell is what FirstFreeCell returns. */
  lemma {:induction false} FirstFreeCellOf(e: ElementStyle, others: seq<ElementStyle>, ls: LabelSize, scale: real, n: nat, m: int)
    requires scale > 0.0
    requires n <= m <= 120
    requires forall k :: n <= k < m ==> !CellFreeAt(e, others, ls, scale, k)
    ensures CellFreeAt(e, others, ls, scale, m) ==> FirstFreeCell(e, others, ls, scale, n) == Some(m)
    ensures (forall k :: m <= k <= 120 ==> !CellFreeAt(e, others, ls, scale, k)) ==> FirstFreeCell(e, others, ls, scale, n) == None
    decreases 121 - n
  {
    if n < m {
      FirstFreeCellOf(e, others, ls, scale, n + 1, m);
    } else if !CellFreeAt(e, others, ls, scale, n) {
      if forall k :: m <= k <= 120 ==> !CellFreeAt(e, others, ls, scale, k) {
        if n + 1 <= 120 {
          FirstFreeCellOf(e, others, ls, scale, n + 1, n + 1);
        }
      }
    }
  }

  /** Grid cells in scan order: cell (i, j) is number 11 i + j. */
  lemma CellNumber(i: int, j: int)
    requires 0 <= i && 0 <= j < 11
    ensures (11 * i + j) / 11 == i && (11 * i + j) % 11 == j
  {
  }

  /** One step of the scan: cell (i, j) is the first free one from its number on, or the scan moves on. */
  lemma ScanStep(e: ElementStyle, others: seq<ElementStyle>, ls: LabelSize, scale: real, i: int, j: int)
    requires scale > 0.0 && 0 <= i <= 10 && 0 <= j < 11
    ensures FirstFreeCell(e, others, ls, scale, 11 * i + j) ==
      if CellFree(e, others, ls, scale, i, j) then Some(11 * i + j)
      else FirstFreeCell(e, others, ls, scale, 11 * i + j + 1)
  {
    CellFreeAtNumber(e, others, ls, scale, i, j);
  }

  lemma CellFreeAtNumber(e: ElementStyle, others: seq<ElementStyle>, ls: LabelSize, scale: real, i: int, j: int)
    requires scale > 0.0 && 0 <= i && 0 <= j < 11
    ensures CellFreeAt(e, others, ls, scale, 11 * i + j) == CellFree(e, others, ls, scale, i, j)
  {
    CellNumber(i, j);
  }

  /**
   * `findNonOverlappingPosition` as the source promises it: the element's own position when the
   * search is off or nothing enabled overlaps it; otherwise the first free grid cell in scan order
   * (outer i, inner j, 0..10 each), whose box overlaps no enabled element; and when no cell is
   * free, the constrained original position.
   */
  lemma NonOverlappingPositionMeaning(e: ElementStyle, others: seq<ElementStyle>, ls: LabelSize, scale: real)
    requires scale > 0.0
    ensures var r := NonOverlappingPosition(e, others, ls, scale);
      && (!ls.preventCollisions || ls.allowElementsOutside ==> r == e.position)
      && (!Blocked(ElementBounds(e, scale), others, scale) ==> r == e.position)
      && (ls.preventCollisions && !ls.allowElementsOutside && Blocked(ElementBounds(e, scale), others, scale) ==>
            || (exists i, j :: 0 <= i <= 10 && 0 <= j <= 10 && r == GridPoint(e, ls, scale, i, j)
                  && CellFree(e, others, ls, scale, i, j)
                  && !Blocked(BoxAt(r, SearchWidth(e, scale), SearchHeight(e, scale)), others, scale)
                  && (forall i', j' :: 0 <= i' < i && 0 <= j' <= 10 ==> !CellFree(e, others, ls, scale, i', j'))
                  && (forall j' :: 0 <= j' < j ==> !CellFree(e, others, ls, scale, i, j')))
            || (r == ConstrainPosition(e.position, e.size, ls, e.width)
                  && forall i, j :: 0 <= i <= 10 && 0 <= j <= 10 ==> !CellFree(e, others, ls, scale, i, j)))
  {
    if ls.preventCollisions && !ls.allowElementsOutside && Blocked(ElementBounds(e, scale), others, scale) {
      match FirstFreeCell(e, others, ls, scale, 0)
      case Some(m) =>
        FoundCellIsFirst(e, others, ls, scale, m);
        var i, j := m / 11, m % 11;
        assert CellFree(e, others, ls, scale, i, j);
      case None =>
        NoCellFree(e, others, ls, scale);
    }
  }

  /** The cell the search returns is free, and every cell before it in scan order is blocked. */
  lemma FoundCellIsFirst(e: ElementStyle, others: seq<ElementStyle>, ls: LabelSize, scale: real, m: nat)
    requires scale > 0.0 && FirstFreeCell(e, others, ls, scale, 0) == Some(m)
    ensures 0 <= m / 11 <= 10 && 0 <= m % 11 <= 10
    ensures CellFree(e, others, ls, scale, m / 11, m % 11)
    ensures forall i', j' :: 0 <= i' < m / 11 && 0 <= j' <= 10 ==> !CellFree(e, others, ls, scale, i', j')
    ensures forall j' :: 0 <= j' < m % 11 ==> !CellFree(e, others, ls, scale, m / 11, j')
  {
    FirstFreeCellIsFirst(e, others, ls, scale, 0);
    var i, j := m / 11, m % 11;
    assert m == 11 * i + j && m <= 120;
    forall i', j' | 0 <= i' < i && 0 <= j' <= 10
      ensures !CellFree(e, others, ls, scale, i', j')
    {
      assert 11 * i' + j' < m;
      assert !CellFreeAt(e, others, ls, scale, 11 * i' + j');
      CellFreeAtNumber(e, others, ls, scale, i', j');
    }
    forall j' | 0 <= j' < j
      ensures !CellFree(e, others, ls, scale, i, j')
    {
      assert !CellFreeAt(e, others, ls, scale, 11 * i + j');
      CellFreeAtNumber(e, others, ls, scale, i, j');
    }
  }

  /** When the search returns nothing, no cell of the grid is free. */
  lemma NoCellFree(e: ElementStyle, others: seq<ElementStyle>, ls: LabelSize, scale: real)
    requires scale > 0.0 && FirstFreeCell(e, others, ls, scale, 0) == None
    ensures forall i, j :: 0 <= i <= 10 && 0 <= j <= 10 ==> !CellFree(e, others, ls, scale, i, j)
  {
    FirstFreeCellIsFirst(e, others, ls, scale, 0);
    forall i, j | 0 <= i <= 10 && 0 <= j <= 10
      ensures !CellFree(e, others, ls, scale, i, j)
    {
      assert !CellFreeAt(e, others, ls, scale, 11 * i + j);
      CellFreeAtNumber(e, others, ls, scale, i, j);
    }
  }

  /** Every grid cell lies in [padding, dimension - element dimension - padding] when that interval is non-empty. */
  lemma GridPointInsideInterior(e: ElementStyle, ls: LabelSize, scale: real, i: int, j: int)
    requires scale > 0.0
    requires 0 <= i <= 10 && 0 <= j <= 10
    ensures var p := GridPoint(e, ls, scale, i, j);
      && (ls.width - SearchWidth(e, scale) - EffectivePadding(ls) >= EffectivePadding(ls) ==>
            EffectivePadding(ls) <= p.x <= ls.width - SearchWidth(e, scale) - EffectivePadding(ls))
      && (ls.height - SearchHeight(e, scale) - EffectivePadding(ls) >= EffectivePadding(ls) ==>
            EffectivePadding(ls) <= p.y <= ls.height - SearchHeight(e, scale) - EffectivePadding(ls))
  {
    var pad := EffectivePadding(ls);
    var sx, sy := StepX(e, ls, scale), StepY(e, ls, scale);
    var p := GridPoint(e, ls, scale, i, j);
    assert p.x == pad + i as real * sx && p.y == pad + j as real * sy;
    if ls.width - SearchWidth(e, scale) - pad >= pad {
      ScaledStepBounds(i, sx);
      assert 10.0 * sx == ls.width - SearchWidth(e, scale) - 2.0 * pad;
    }
    if ls.height - SearchHeight(e, scale) - pad >= pad {
      ScaledStepBounds(j, sy);
      assert 10.0 * sy == ls.height - SearchHeight(e, scale) - 2.0 * pad;
    }
  }

  lemma ScaledStepBounds(i: int, step: real)
    requires 0 <= i <= 10
    ensures step >= 0.0 ==> 0.0 <= i as real * step <= 10.0 * step
  {
    if step >= 0.0 {
      assert 10.0 * step - i as real * step == (10 - i) as real * step;
    }
  }

  /** Appending a disabled element to the others never changes whether a box is blocked. */
  lemma BlockedIgnoresDisabled(b: Bounds, others: seq<ElementStyle>, d: ElementStyle, scale: real)
    requires scale > 0.0 && !d.enabled
    ensures Blocked(b, others + [d], scale) == Blocked(b, others, scale)
  {
    if Blocked(b, others + [d], scale) {
      var i :| 0 <= i < |others + [d]| && HitsEnabled(b, (others + [d])[i], scale);
      assert i < |others| && HitsEnabled(b, others[i], scale);
    }
    if Blocked(b, others, scale) {
      var i :| 0 <= i < |others| && HitsEnabled(b, others[i], scale);
      assert HitsEnabled(b, (others + [d])[i], scale);
    }
  }

  lemma {:induction false} FirstFreeCellIgnoresDisabled(e: ElementStyle, others: seq<ElementStyle>, d: ElementStyle, ls: LabelSize, scale: real, n: nat)
    requires scale > 0.0 && !d.enabled
    ensures FirstFreeCell(e, others + [d], ls, scale, n) == FirstFreeCell(e, others, ls, scale, n)
    decreases 121 - n
  {
    if n <= 120 {
      BlockedIgnoresDisabled(
        BoxAt(GridPoint(e, ls, scale, n / 11, n % 11), SearchWidth(e, scale), SearchHeight(e, scale)), others, d, scale);
      FirstFreeCellIgnoresDisabled(e, others, d, ls, scale, n + 1);
    }
  }

  /** A disabled element among the others never influences the search. */
  lemma NonOverlappingIgnoresDisabled(e: ElementStyle, others: seq<ElementStyle>, d: ElementStyle, ls: LabelSize, scale: real)
    requires scale > 0.0 && !d.enabled
    ensures NonOverlappingPosition(e, others + [d], ls, scale) == NonOverlappingPosition(e, others, ls, scale)
  {
    BlockedIgnoresDisabled(ElementBounds(e, scale), others, d, scale);
    FirstFreeCellIgnoresDisabled(e, others, d, ls, scale, 0);
  }

  /** The inner `for (const other of otherElements)` loop: does an enabled element overlap `b`? */
  method AnyEnabledOverlap(b: Bounds, others: seq<ElementStyle>, scale: real) returns (hasOverlap: bool)
    requires scale > 0.0
    ensures hasOverlap == Blocked(b, others, scale)
  {
    hasOverlap := false;
    for k := 0 to |others|
      invariant forall m :: 0 <= m < k ==> !HitsEnabled(b, others[m], scale)
    {
      var other := others[k];
      if !other.enabled {
        continue;
      }
      var otherBounds := ElementBounds(other, scale);
      if Overlaps(b, otherBounds) {
        hasOverlap := true;
        break;
      }
    }
  }

  /** The position of the first free grid cell in scan order, if any. */
  function FirstFreePoint(e: ElementStyle, others: seq<ElementStyle>, ls: LabelSize, scale: real): Option<Position>
    requires scale > 0.0
  {
    match FirstFreeCell(e, others, ls, scale, 0)
    case Some(n) => Some(GridPoint(e, ls, scale, n / 11, n % 11))
    case None => None
  }

  /**
   * One iteration of the inner `j` loop: the candidate position of cell (i, j) and whether
   * no enabled element overlaps the element placed there.
   */
  method TestCell(e: ElementStyle, others: seq<ElementStyle>, ls: LabelSize, scale: real, i: int, j: int,
                  pad: real, stepX: real, stepY: real, elementWidth: real, elementHeight: real)
    returns (testPosition: Position, positionValid: bool)
    requires scale > 0.0 && 0 <= i && 0 <= j < 11
    requires pad == EffectivePadding(ls) && stepX == StepX(e, ls, scale) && stepY == StepY(e, ls, scale)
    requires elementWidth == SearchWidth(e, scale) && elementHeight == SearchHeight(e, scale)
    ensures testPosition == GridPoint(e, ls, scale, i, j)
    ensures positionValid == CellFree(e, others, ls, scale, i, j)
  {
    testPosition := Position(pad + i as real * stepX, pad + j as real * stepY);
    var testBounds := Bounds(testPosition.x, testPosition.y,
                             testPosition.x + elementWidth, testPosition.y + elementHeight);
    var blocked := AnyEnabledOverlap(testBounds, others, scale);
    assert testBounds == BoxAt(GridPoint(e, ls, scale, i, j), elementWidth, elementHeight);
    positionValid := !blocked;
  }

  /**
   * The inner `j` loop for row `i`: returns the first free cell of the row, or nothing, in
   * which case the search continues unchanged with the next row.
   */
  method ScanRow(e: ElementStyle, others: seq<ElementStyle>, ls: LabelSize, scale: real, i: int,
                 pad: real, stepX: real, stepY: real, elementWidth: real, elementHeight: real)
    returns (found: Option<Position>)
    requires scale > 0.0 && 0 <= i <= 10
    requires pad == EffectivePadding(ls) && stepX == StepX(e, ls, scale) && stepY == StepY(e, ls, scale)
    requires elementWidth == SearchWidth(e, scale) && elementHeight == SearchHeight(e, scale)
    ensures found.None? ==> FirstFreeCell(e, others, ls, scale, 11 * i) == FirstFreeCell(e, others, ls, scale, 11 * i + 11)
    ensures found.Some? ==>
      && FirstFreeCell(e, others, ls, scale, 11 * i).Some?
      && var n := FirstFreeCell(e, others, ls, scale, 11 * i).value;
         found.value == GridPoint(e, ls, scale, n / 11, n % 11)
  {
    for j := 0 to 11
      invariant FirstFreeCell(e, others, ls, scale, 11 * i) == FirstFreeCell(e, others, ls, scale, 11 * i + j)
    {
      var testPosition, positionValid :=
        TestCell(e, others, ls, scale, i, j, pad, stepX, stepY, elementWidth, elementHeight);
      ScanStep(e, others, ls, scale, i, j);
      if positionValid {
        CellNumber(i, j);
        return Some(testPosition);
      }
    }
    return None;
  }

  /** The nested `i`/`j` loops over the 11 x 11 grid, returning at the first free cell. */
  method ScanGrid(e: ElementStyle, others: seq<ElementStyle>, ls: LabelSize, scale: real)
    returns (found: Option<Position>)
    requires scale > 0.0
    ensures found == FirstFreePoint(e, others, ls, scale)
  {
    var pad := EffectivePadding(ls);
    var elementWidth := OrSize(e.width, e.size) / scale;
    var elementHeight := e.size / scale;
    var gridSize := 10;
    var stepX := (ls.width - elementWidth - 2.0 * pad) / 10.0;
    var stepY := (ls.height - elementHeight - 2.0 * pad) / 10.0;
    for i := 0 to gridSize + 1
      invariant FirstFreeCell(e, others, ls, scale, 0) == FirstFreeCell(e, others, ls, scale, 11 * i)
    {
      var inRow := ScanRow(e, others, ls, scale, i, pad, stepX, stepY, elementWidth, elementHeight);
      if inRow.Some? {
        return inRow;
      }
    }
    assert FirstFreeCell(e, others, ls, scale, 121) == None;
    return None;
  }

  /** `findNonOverlappingPosition`: the two early exits, the grid scan, then the clamp fallback. */
  method FindNonOverlappingPosition(e: ElementStyle, others: seq<ElementStyle>, ls: LabelSize, scale: real)
    returns (p: Position)
    requires scale > 0.0
    ensures p == NonOverlappingPosition(e, others, ls, scale)
  {
    if !ls.preventCollisions || ls.allowElementsOutside {
      return e.position;
    }
    var elementBounds := ElementBounds(e, scale);
    var hasOverlap := AnyEnabledOverlap(elementBounds, others, scale);
    if !hasOverlap {
      return e.position;
    }
    var found := ScanGrid(e, others, ls, scale);
    if found.Some? {
      return found.value;
    }
    return ConstrainPosition(e.position, e.size, ls, e.width);
  }
}
