/**
 * PDF export: the conversion of page and label sizes to points, the "spacing between items"
 * count of labels per row and per column, the row-major, page-by-page placement loop, and the
 * one-label-per-page export. The PDF builder is an abstract sink that records pages and image
 * placements; rasterising a label is left out, so a placement records the label it shows.
 */
module PdfExport {
  import opened Wrappers
  import opened Types

  const MmToPt: real := 2.835
  const CmToPt: real := 28.35

  /** `convertToPt`: 'mm' takes the millimetre factor and every other unit the centimetre one. */
  function ConvertToPt(value: real, unit: Unit): (r: real)
    ensures unit == Mm ==> r == value * MmToPt
    ensures unit != Mm ==> r == value * CmToPt
  {
    if unit == Mm then value * MmToPt else value * CmToPt
  }

  /** As written, a label measured in inches is converted with the centimetre factor. */
  lemma InchesConvertedAsCentimetres(value: real)
    ensures ConvertToPt(value, In) == ConvertToPt(value, Cm)
    ensures ConvertToPt(1.0, In) == 28.35
  {
  }

  /** The page and label geometry of a multi-label export, in points. */
  datatype PageGrid = PageGrid(
    pageWidth: real, pageHeight: real,
    marginTop: real, marginRight: real, marginBottom: real, marginLeft: real,
    spacing: real, labelWidth: real, labelHeight: real)

  /** Page settings in their unit, the first label's size in the label's unit, all converted to points. */
  function GridFor(ps: PageSettings, first: Label): (g: PageGrid)
    ensures g.labelWidth == ConvertToPt(first.size.width, first.size.unit)
    ensures g.labelHeight == ConvertToPt(first.size.height, first.size.unit)
    ensures g.pageWidth == ConvertToPt(ps.width, ps.unit) && g.pageHeight == ConvertToPt(ps.height, ps.unit)
    ensures g.marginTop == ConvertToPt(ps.marginTop, ps.unit) && g.marginRight == ConvertToPt(ps.marginRight, ps.unit)
    ensures g.marginBottom == ConvertToPt(ps.marginBottom, ps.unit) && g.marginLeft == ConvertToPt(ps.marginLeft, ps.unit)
    ensures g.spacing == ConvertToPt(ps.spacing, ps.unit)
  {
    PageGrid(
      ConvertToPt(ps.width, ps.unit), ConvertToPt(ps.height, ps.unit),
      ConvertToPt(ps.marginTop, ps.unit), ConvertToPt(ps.marginRight, ps.unit),
      ConvertToPt(ps.marginBottom, ps.unit), ConvertToPt(ps.marginLeft, ps.unit),
      ConvertToPt(ps.spacing, ps.unit),
      ConvertToPt(first.size.width, first.size.unit), ConvertToPt(first.size.height, first.size.unit))
  }

  /** The divisions of the two counts are defined. */
  predicate Divisible(g: PageGrid) {
    g.labelWidth + g.spacing != 0.0 && g.labelHeight + g.spacing != 0.0
  }

  /** `labelsPerRow = floor((availableWidth + spacing) / (labelWidth + spacing))`. */
  function LabelsPerRow(g: PageGrid): (r: int)
    requires Divisible(g)
    ensures var q := (g.pageWidth - g.marginLeft - g.marginRight + g.spacing) / (g.labelWidth + g.spacing);
      r as real <= q < r as real + 1.0
  {
    ((g.pageWidth - g.marginLeft - g.marginRight + g.spacing) / (g.labelWidth + g.spacing)).Floor
  }

  /** `labelsPerColumn = floor((availableHeight + spacing) / (labelHeight + spacing))`. */
  function LabelsPerColumn(g: PageGrid): (r: int)
    requires Divisible(g)
    ensures var q := (g.pageHeight - g.marginTop - g.marginBottom + g.spacing) / (g.labelHeight + g.spacing);
      r as real <= q < r as real + 1.0
  {
    ((g.pageHeight - g.marginTop - g.marginBottom + g.spacing) / (g.labelHeight + g.spacing)).Floor
  }

  /** Both counts are at least one, the only case in which the placement loop terminates. */
  predicate Packable(g: PageGrid) {
    Divisible(g) && LabelsPerRow(g) >= 1 && LabelsPerColumn(g) >= 1
  }

  function PerPage(g: PageGrid): (p: nat)
    requires Packable(g)
    ensures p >= 1
  {
    MulAtLeastOne(LabelsPerRow(g), LabelsPerColumn(g));
    LabelsPerRow(g) * LabelsPerColumn(g)
  }

  lemma MulAtLeastOne(a: int, b: int)
    requires a >= 1 && b >= 1
    ensures a * b >= 1
  {
  }

  function Clip(n: int): nat {
    if n > 0 then n else 0
  }

  /** How many labels one pass of the outer loop's body can place: 0 when either count is below 1. */
  function PassCapacity(g: PageGrid): nat
    requires Divisible(g)
  {
    Clip(LabelsPerRow(g)) * Clip(LabelsPerColumn(g))
  }

  /** The left edge of column `col` and the top edge of row `row`. */
  function CellX(g: PageGrid, col: int): real {
    g.marginLeft + col as real * (g.labelWidth + g.spacing)
  }

  function CellY(g: PageGrid, row: int): real {
    g.marginTop + row as real * (g.labelHeight + g.spacing)
  }

  /** Every column the count admits ends inside the right margin. */
  lemma ColumnFitsOnPage(g: PageGrid, col: int)
    requires Divisible(g) && g.labelWidth + g.spacing > 0.0
    requires 0 <= col < LabelsPerRow(g)
    ensures CellX(g, col) + g.labelWidth <= g.pageWidth - g.marginRight
  {
    var d := g.labelWidth + g.spacing;
    var q := (g.pageWidth - g.marginLeft - g.marginRight + g.spacing) / d;
    assert (col + 1) as real <= q;
    calc {
      (col + 1) as real * d;
      <= { MulRight((col + 1) as real, q, d); }
      q * d;
      == g.pageWidth - g.marginLeft - g.marginRight + g.spacing;
    }
  }

  /** Every row the count admits ends inside the bottom margin. */
  lemma RowFitsOnPage(g: PageGrid, row: int)
    requires Divisible(g) && g.labelHeight + g.spacing > 0.0
    requires 0 <= row < LabelsPerColumn(g)
    ensures CellY(g, row) + g.labelHeight <= g.pageHeight - g.marginBottom
  {
    var d := g.labelHeight + g.spacing;
    var q := (g.pageHeight - g.marginTop - g.marginBottom + g.spacing) / d;
    assert (row + 1) as real <= q;
    calc {
      (row + 1) as real * d;
      <= { MulRight((row + 1) as real, q, d); }
      q * d;
      == g.pageHeight - g.marginTop - g.marginBottom + g.spacing;
    }
  }

  lemma MulRight(a: real, b: real, d: real)
    requires a <= b && d > 0.0
    ensures a * d <= b * d
  {
  }

  /** Where the k-th label goes: its page, and the row and column of its cell on that page. */
  datatype Cell = Cell(page: nat, row: nat, col: nat)

  function CellOf(g: PageGrid, k: nat): Cell
    requires Packable(g)
  {
    var within := k % PerPage(g);
    Cell(k / PerPage(g), within / LabelsPerRow(g), within % LabelsPerRow(g))
  }

  /** Cells are filled row-major, `PerPage` to a page: k = page * PerPage + row * perRow + col. */
  lemma {:induction false} CellOfMeaning(g: PageGrid, k: nat)
    requires Packable(g)
    ensures var c := CellOf(g, k);
      && c.row < LabelsPerColumn(g) && c.col < LabelsPerRow(g)
      && k == c.page * PerPage(g) + c.row * LabelsPerRow(g) + c.col
  {
    var p, r, q := PerPage(g), LabelsPerRow(g), LabelsPerColumn(g);
    var within := k % p;
    assert k == (k / p) * p + within;
    assert within == (within / r) * r + within % r;
    QuotientBelow(within, r, q);
  }

  /** The decomposition is unique: a page, a row and a column in range name exactly one index. */
  lemma {:induction false} CellOfUnique(g: PageGrid, k: nat, page: nat, row: nat, col: nat)
    requires Packable(g)
    requires row < LabelsPerColumn(g) && col < LabelsPerRow(g)
    requires k == page * PerPage(g) + row * LabelsPerRow(g) + col
    ensures CellOf(g, k) == Cell(page, row, col)
  {
    var p, r, q := PerPage(g), LabelsPerRow(g), LabelsPerColumn(g);
    DivModUnique(row * r + col, r, row, col);
    RowStaysOnPage(row, col, r, q);
    DivModUnique(k, p, page, row * r + col);
  }

  lemma RowStaysOnPage(row: int, col: int, r: int, q: int)
    requires 0 <= row < q && 0 <= col < r
    ensures row * r + col < r * q
  {
    assert row * r <= (q - 1) * r by { MulMono(row, q - 1, r); }
  }

  lemma MulMono(a: int, b: int, c: int)
    requires a <= b && c >= 0
    ensures a * c <= b * c
  {
  }

  lemma QuotientBelow(i: int, r: int, q: int)
    requires r >= 1 && q >= 1 && 0 <= i < r * q
    ensures i / r < q
  {
    if i / r >= q {
      MulMono(q, i / r, r);
      assert false;
    }
  }

  lemma {:induction false} DivModUnique(a: int, d: int, q: int, r: int)
    requires d > 0 && 0 <= r < d && a == q * d + r
    ensures a / d == q && a % d == r
  {
    var q', r' := a / d, a % d;
    assert a == q' * d + r';
    if q' < q {
      MulMono(q' + 1, q, d);
      assert false;
    } else if q' > q {
      MulMono(q + 1, q', d);
      assert false;
    }
  }

  /** A recorded `addImage` call: the label shown, the page it lands on, its box in points. */
  datatype Placement = Placement(page: nat, shown: Label, x: real, y: real, width: real, height: real)

  /** The placement of the k-th label of a multi-label export. */
  function PackedPlacement(g: PageGrid, labels: seq<Label>, k: nat): Placement
    requires Packable(g) && k < |labels|
  {
    var c := CellOf(g, k);
    Placement(c.page, labels[k], CellX(g, c.col), CellY(g, c.row), g.labelWidth, g.labelHeight)
  }

  /** `ceil(n / d)`. */
  function CeilDiv(n: nat, d: nat): nat
    requires d >= 1
  {
    (n + d - 1) / d
  }

  /** For n > 0 labels the pages are exactly enough: the last label is on the last page. */
  lemma {:induction false} PageCountIsCeiling(n: nat, d: nat)
    requires d >= 1 && n >= 1
    ensures (CeilDiv(n, d) - 1) * d < n <= CeilDiv(n, d) * d
    ensures CeilDiv(n, d) == (n - 1) / d + 1
  {
    var q := (n - 1) / d;
    assert n - 1 == q * d + (n - 1) % d;
    DivModUnique(n + d - 1, d, q + 1, (n - 1) % d);
  }

  /**
   * The worked example of the A4 defaults: 210 x 297 mm, 10 mm margins, 2 mm spacing and
   * 100 x 50 mm labels give 1 label per row and 5 per column, so 12 labels fill pages of 5, 5 and 2.
   */
  lemma A4Example(first: Label)
    requires first.size.width == 100.0 && first.size.height == 50.0 && first.size.unit == Mm
    ensures var g := GridFor(PageSettings(210.0, 297.0, Mm, 10.0, 10.0, 10.0, 10.0, 2.0), first);
      && Packable(g) && LabelsPerRow(g) == 1 && LabelsPerColumn(g) == 5
      && CeilDiv(12, PerPage(g)) == 3
      && CellOf(g, 4) == Cell(0, 4, 0) && CellOf(g, 5) == Cell(1, 0, 0) && CellOf(g, 11) == Cell(2, 1, 0)
  {
    var g := GridFor(PageSettings(210.0, 297.0, Mm, 10.0, 10.0, 10.0, 10.0, 2.0), first);
    assert (g.pageWidth - g.marginLeft - g.marginRight + g.spacing) / (g.labelWidth + g.spacing) == 192.0 / 102.0;
    assert (g.pageHeight - g.marginTop - g.marginBottom + g.spacing) / (g.labelHeight + g.spacing) == 279.0 / 52.0;
    assert LabelsPerRow(g) == 1 && LabelsPerColumn(g) == 5;
    CellOfUnique(g, 4, 0, 4, 0);
    CellOfUnique(g, 5, 1, 0, 0);
    CellOfUnique(g, 11, 2, 1, 0);
  }

  datatype Orientation = Portrait | Landscape

  datatype PageFormat = PageFormat(width: real, height: real, orientation: Orientation)

  /** The PDF builder as a sink: the pages added so far, the images placed, and the saved file name. */
  class PdfDocument {
    var pages: seq<PageFormat>
    var images: seq<Placement>
    var saved: Option<string>

    /** `new jsPDF({ format, orientation })` starts with one page. */
    constructor (format: PageFormat)
      ensures pages == [format] && images == [] && saved == None
    {
      pages := [format];
      images := [];
      saved := None;
    }

    method AddPage(format: PageFormat)
      modifies this
      ensures pages == old(pages) + [format] && images == old(images) && saved == old(saved)
    {
      pages := pages + [format];
    }

    /** `addImage` draws on the current, that is the last, page. */
    method AddImage(shown: Label, x: real, y: real, width: real, height: real)
      requires |pages| >= 1
      modifies this
      ensures pages == old(pages) && saved == old(saved)
      ensures images == old(images) + [Placement(|pages| - 1, shown, x, y, width, height)]
    {
      images := images + [Placement(|pages| - 1, shown, x, y, width, height)];
    }

    method Save(name: string)
      modifies this
      ensures saved == Some(name) && pages == old(pages) && images == old(images)
    {
      saved := Some(name);
    }
  }

  function MinNat(a: nat, b: nat): nat {
    if a <= b then a else b
  }

  /** The placement of the i-th label of one pass that starts at label `start` on page `page`. */
  function PassPlacement(g: PageGrid, page: nat, labels: seq<Label>, start: nat, i: nat): Placement
    requires Divisible(g) && LabelsPerRow(g) >= 1 && start + i < |labels|
  {
    Placement(page, labels[start + i], CellX(g, i % LabelsPerRow(g)), CellY(g, i / LabelsPerRow(g)),
              g.labelWidth, g.labelHeight)
  }

  /** `images` holds, from index `base` on, exactly the first `count` placements of a pass. */
  predicate PassPlaced(images: seq<Placement>, base: nat, g: PageGrid, page: nat, labels: seq<Label>, start: nat, count: nat)
    requires Divisible(g)
  {
    && |images| == base + count && start + count <= |labels|
    && (count == 0 || (LabelsPerRow(g) >= 1 &&
        forall i :: 0 <= i < count ==> images[base + i] == PassPlacement(g, page, labels, start, i)))
  }

  lemma PassPlacedExtend(images: seq<Placement>, base: nat, g: PageGrid, page: nat, labels: seq<Label>,
                         start: nat, count: nat, row: nat, col: nat, x: Placement)
    requires Divisible(g) && PassPlaced(images, base, g, page, labels, start, count)
    requires col < LabelsPerRow(g) && count == row * LabelsPerRow(g) + col && start + count < |labels|
    requires x == Placement(page, labels[start + count], CellX(g, col), CellY(g, row), g.labelWidth, g.labelHeight)
    ensures PassPlaced(images + [x], base, g, page, labels, start, count + 1)
    ensures (images + [x])[..base] == images[..base]
  {
    DivModUnique(count, LabelsPerRow(g), row, col);
    var next := images + [x];
    forall i | 0 <= i < count + 1
      ensures next[base + i] == PassPlacement(g, page, labels, start, i)
    {
      if i < count {
        assert next[base + i] == images[base + i];
      }
    }
  }

  /** One iteration of the inner `col` loop: label `current` is drawn at column `col` of row `row`. */
  method PlaceLabel(pdf: PdfDocument, labels: seq<Label>, g: PageGrid, start: nat, row: nat, col: nat,
                    current: nat, ghost base: nat)
    requires Divisible(g) && |pdf.pages| >= 1
    requires col < LabelsPerRow(g) && start <= current < |labels|
    requires current - start == row * LabelsPerRow(g) + col
    requires PassPlaced(pdf.images, base, g, |pdf.pages| - 1, labels, start, current - start)
    modifies pdf
    ensures pdf.pages == old(pdf.pages) && pdf.saved == old(pdf.saved)
    ensures PassPlaced(pdf.images, base, g, |pdf.pages| - 1, labels, start, current + 1 - start)
    ensures pdf.images[..base] == old(pdf.images)[..base]
  {
    var x := g.marginLeft + col as real * (g.labelWidth + g.spacing);
    var y := g.marginTop + row as real * (g.labelHeight + g.spacing);
    assert x == CellX(g, col) && y == CellY(g, row);
    assert labels[start + (current - start)] == labels[current];
    PassPlacedExtend(pdf.images, base, g, |pdf.pages| - 1, labels, start, current - start, row, col,
                     Placement(|pdf.pages| - 1, labels[current], x, y, g.labelWidth, g.labelHeight));
    pdf.AddImage(labels[current], x, y, g.labelWidth, g.labelHeight);
  }

  /** The inner `col` loop of one row: labels from `current0` go to columns 0, 1, ... of row `row`. */
  method FillRow(pdf: PdfDocument, labels: seq<Label>, g: PageGrid, start: nat, row: nat, current0: nat,
                 ghost base: nat) returns (current: nat)
    requires Divisible(g) && |pdf.pages| >= 1
    requires current0 == start + row * Clip(LabelsPerRow(g)) <= |labels|
    requires PassPlaced(pdf.images, base, g, |pdf.pages| - 1, labels, start, current0 - start)
    modifies pdf
    ensures pdf.pages == old(pdf.pages) && pdf.saved == old(pdf.saved)
    ensures current == MinNat(|labels|, current0 + Clip(LabelsPerRow(g)))
    ensures PassPlaced(pdf.images, base, g, |pdf.pages| - 1, labels, start, current - start)
    ensures pdf.images[..base] == old(pdf.images)[..base]
  {
    var perRow := LabelsPerRow(g);
    current := current0;
    var col := 0;
    while col < perRow && current < |labels|
      invariant 0 <= col <= Clip(perRow)
      invariant current == current0 + col <= |labels|
      invariant pdf.pages == old(pdf.pages) && pdf.saved == old(pdf.saved)
      invariant PassPlaced(pdf.images, base, g, |pdf.pages| - 1, labels, start, current - start)
      invariant pdf.images[..base] == old(pdf.images)[..base]
      decreases perRow - col
    {
      PlaceLabel(pdf, labels, g, start, row, col, current, base);
      current := current + 1;
      col := col + 1;
    }
  }

  /**
   * One pass of the body of the `while (currentLabel < length)` loop: the nested `row`/`col`
   * loops, placing labels from `start` on the current page. When either count is below 1 the
   * pass places nothing, so `currentLabel` does not advance and the source loops forever.
   */
  method FillPage(pdf: PdfDocument, labels: seq<Label>, g: PageGrid, start: nat) returns (next: nat)
    requires Divisible(g) && start <= |labels| && |pdf.pages| >= 1
    modifies pdf
    ensures pdf.pages == old(pdf.pages) && pdf.saved == old(pdf.saved)
    ensures next == MinNat(|labels|, start + PassCapacity(g))
    ensures PassPlaced(pdf.images, |old(pdf.images)|, g, |pdf.pages| - 1, labels, start, next - start)
    ensures pdf.images[..|old(pdf.images)|] == old(pdf.images)
  {
    var perCol := LabelsPerColumn(g);
    var width := Clip(LabelsPerRow(g));
    ghost var base := |pdf.images|;
    var current := start;
    var row := 0;
    while row < perCol && current < |labels|
      invariant row <= Clip(perCol)
      invariant current == MinNat(|labels|, start + row * width)
      invariant pdf.pages == old(pdf.pages) && pdf.saved == old(pdf.saved)
      invariant PassPlaced(pdf.images, base, g, |pdf.pages| - 1, labels, start, current - start)
      invariant pdf.images[..base] == old(pdf.images)
      decreases perCol - row
    {
      RowStep(|labels|, start, row, width, current);
      current := FillRow(pdf, labels, g, start, row, current, base);
      row := row + 1;
    }
    PassEnds(|labels|, start, row, perCol, width, current);
    next := current;
  }

  /** Before a row, `current` is the row's first label; after it, the next row's. */
  lemma RowStep(n: nat, start: nat, row: nat, width: nat, current: nat)
    requires current == MinNat(n, start + row * width) && current < n
    ensures current == start + row * width
    ensures MinNat(n, current + width) == MinNat(n, start + (row + 1) * width)
  {
    assert (row + 1) * width == row * width + width;
  }

  /** When the row loop stops, the pass has placed min(labels left, capacity) labels. */
  lemma PassEnds(n: nat, start: nat, row: nat, perCol: int, width: nat, current: nat)
    requires start <= n && row <= Clip(perCol)
    requires current == MinNat(n, start + row * width)
    requires !(row < perCol && current < n)
    ensures current == MinNat(n, start + width * Clip(perCol))
  {
    if current == n {
      MulMono(row, Clip(perCol), width);
      assert width * Clip(perCol) == Clip(perCol) * width;
    } else {
      assert row == Clip(perCol);
    }
  }

  /** `images` holds exactly the placements of the first `count` labels of a multi-label export. */
  predicate PackedPrefix(images: seq<Placement>, g: PageGrid, labels: seq<Label>, count: nat)
    requires Packable(g)
  {
    |images| == count <= |labels| && forall k :: 0 <= k < count ==> images[k] == PackedPlacement(g, labels, k)
  }

  /** A pass on page `page` that starts at `base == page * PerPage` continues the packed layout. */
  lemma {:induction false} PassContinuesLayout(images: seq<Placement>, g: PageGrid, labels: seq<Label>,
                                               page: nat, base: nat, count: nat)
    requires Packable(g) && count <= PerPage(g) && base == page * PerPage(g) && base <= |images|
    requires PackedPrefix(images[..base], g, labels, base)
    requires PassPlaced(images, base, g, page, labels, base, count)
    ensures PackedPrefix(images, g, labels, base + count)
  {
    forall k | 0 <= k < base + count
      ensures images[k] == PackedPlacement(g, labels, k)
    {
      if k < base {
        assert images[k] == images[..base][k];
      } else {
        var i := k - base;
        assert images[base + i] == PassPlacement(g, page, labels, base, i);
        PassIndexIsPacked(g, labels, page, base, i);
      }
    }
  }

  lemma PassIndexIsPacked(g: PageGrid, labels: seq<Label>, page: nat, base: nat, i: nat)
    requires Packable(g) && i < PerPage(g) && base == page * PerPage(g) && base + i < |labels|
    ensures PassPlacement(g, page, labels, base, i) == PackedPlacement(g, labels, base + i)
  {
    var r, q := LabelsPerRow(g), LabelsPerColumn(g);
    QuotientBelow(i, r, q);
    CellOfUnique(g, base + i, page, i / r, i % r);
  }

  /**
   * `exportMultipleLabelsPerPage`: the k-th label is placed at `PackedPlacement(k)`, a page is
   * added before every page but the first, and the file is saved once. Requires both counts to be
   * at least 1, without which the source's loop never terminates.
   */
  method ExportMultipleLabelsPerPage(labels: seq<Label>, ps: PageSettings) returns (pdf: PdfDocument)
    requires |labels| >= 1
    requires Packable(GridFor(ps, labels[0]))
    ensures fresh(pdf)
    ensures PackedPrefix(pdf.images, GridFor(ps, labels[0]), labels, |labels|)
    ensures |pdf.pages| == CeilDiv(|labels|, PerPage(GridFor(ps, labels[0])))
    ensures forall p :: p in pdf.pages ==>
      p == PageFormat(GridFor(ps, labels[0]).pageWidth, GridFor(ps, labels[0]).pageHeight, Portrait)
    ensures pdf.saved == Some("labels.pdf")
  {
    var g := GridFor(ps, labels[0]);
    var format := PageFormat(g.pageWidth, g.pageHeight, Portrait);
    var perPage := PerPage(g);
    pdf := new PdfDocument(format);
    var current := 0;
    ghost var page := 0;
    while current < |labels|
      invariant 0 <= current <= |labels|
      invariant current == MinNat(|labels|, page * perPage)
      invariant page >= 1 ==> (page - 1) * perPage < |labels|
      invariant |pdf.pages| == if page == 0 then 1 else page
      invariant forall p :: p in pdf.pages ==> p == format
      invariant pdf.saved == None
      invariant PackedPrefix(pdf.images, g, labels, current)
      decreases |labels| - current
    {
      if page >= 1 {
        MulAtLeastOne(page, perPage);
      }
      if current > 0 {
        pdf.AddPage(format);
      }
      assert |pdf.pages| - 1 == page;
      current := FillPage(pdf, labels, g, current);
      PassContinuesLayout(pdf.images, g, labels, page, page * perPage, current - page * perPage);
      assert (page + 1) * perPage == page * perPage + perPage;
      page := page + 1;
    }
    assert page >= 1;
    assert (page - 1) * perPage == page * perPage - perPage;
    DivModUnique(|labels| + perPage - 1, perPage, page, |labels| - 1 - (page - 1) * perPage);
    pdf.Save("labels.pdf");
  }

  /** The single-label page size: both dimensions converted with the millimetre factor, whatever the unit. */
  function SingleWidthPt(first: Label): real {
    first.size.width * MmToPt
  }

  function SingleHeightPt(first: Label): real {
    first.size.height * MmToPt
  }

  /** The orientation chosen for every page: landscape exactly when the label is wider than tall. */
  function SingleOrientation(first: Label): (o: Orientation)
    ensures o == Landscape <==> SingleWidthPt(first) > SingleHeightPt(first)
  {
    if SingleWidthPt(first) > SingleHeightPt(first) then Landscape else Portrait
  }

  /** The first page's format: [width, height] in landscape, [height, width] in portrait. */
  function SingleFirstFormat(first: Label): (f: PageFormat)
    ensures f.orientation == SingleOrientation(first)
    ensures f.width >= f.height || f.orientation == Portrait
  {
    if SingleOrientation(first) == Landscape
    then PageFormat(SingleWidthPt(first), SingleHeightPt(first), Landscape)
    else PageFormat(SingleHeightPt(first), SingleWidthPt(first), Portrait)
  }

  /**
   * `exportSingleLabelPerPage`: label i fills page i from (0, 0), every added page has the
   * first label's [width, height] and orientation, and the file is saved once.
   */
  method ExportSingleLabelPerPage(labels: seq<Label>) returns (pdf: PdfDocument)
    requires |labels| >= 1
    ensures fresh(pdf)
    ensures |pdf.pages| == |labels| && pdf.pages[0] == SingleFirstFormat(labels[0])
    ensures forall i :: 1 <= i < |labels| ==>
      pdf.pages[i] == PageFormat(SingleWidthPt(labels[0]), SingleHeightPt(labels[0]), SingleOrientation(labels[0]))
    ensures pdf.images == seq(|labels|, i requires 0 <= i < |labels| =>
      Placement(i, labels[i], 0.0, 0.0, SingleWidthPt(labels[0]), SingleHeightPt(labels[0])))
    ensures pdf.saved == Some("labels.pdf")
  {
    var first := labels[0];
    var widthPt := first.size.width * MmToPt;
    var heightPt := first.size.height * MmToPt;
    var isLandscape := widthPt > heightPt;
    var orientation := if isLandscape then Landscape else Portrait;
    pdf := new PdfDocument(if isLandscape then PageFormat(widthPt, heightPt, Landscape)
                           else PageFormat(heightPt, widthPt, Portrait));
    for i := 0 to |labels|
      invariant |pdf.pages| == if i == 0 then 1 else i
      invariant pdf.pages[0] == SingleFirstFormat(first)
      invariant forall m :: 1 <= m < |pdf.pages| ==> pdf.pages[m] == PageFormat(widthPt, heightPt, orientation)
      invariant pdf.images == seq(i, m requires 0 <= m < i => Placement(m, labels[m], 0.0, 0.0, widthPt, heightPt))
      invariant pdf.saved == None
    {
      if i > 0 {
        pdf.AddPage(PageFormat(widthPt, heightPt, orientation));
      }
      pdf.AddImage(labels[i], 0.0, 0.0, widthPt, heightPt);
    }
    pdf.Save("labels.pdf");
  }

  /** What `exportToPDF` did. */
  datatype ExportResult = NothingExported | Exported(pdf: PdfDocument)

  /**
   * `exportToPDF`: nothing for an empty selection; the packed export when the type is 'multiple'
   * and page settings are present; the one-per-page export otherwise.
   */
  method ExportToPdf(labels: seq<Label>, settings: PdfSettings) returns (result: ExportResult)
    requires |labels| >= 1 && settings.pdfType == Multiple && settings.pageSettings.Some? ==>
      Packable(GridFor(settings.pageSettings.value, labels[0]))
    ensures |labels| == 0 <==> result == NothingExported
    ensures result.Exported? ==> fresh(result.pdf) && result.pdf.saved == Some("labels.pdf")
    ensures result.Exported? && settings.pdfType == Multiple && settings.pageSettings.Some? ==>
      PackedPrefix(result.pdf.images, GridFor(settings.pageSettings.value, labels[0]), labels, |labels|)
    ensures result.Exported? && !(settings.pdfType == Multiple && settings.pageSettings.Some?) ==>
      |result.pdf.pages| == |labels| &&
      result.pdf.images == seq(|labels|, i requires 0 <= i < |labels| =>
        Placement(i, labels[i], 0.0, 0.0, SingleWidthPt(labels[0]), SingleHeightPt(labels[0])))
  {
    if |labels| == 0 {
      return NothingExported;
    }
    var pdf;
    if settings.pdfType == Multiple && settings.pageSettings.Some? {
      pdf := ExportMultipleLabelsPerPage(labels, settings.pageSettings.value);
    } else {
      pdf := ExportSingleLabelPerPage(labels);
    }
    return Exported(pdf);
  }
}
