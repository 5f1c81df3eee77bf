/** The board preview: the layout of grid sections, the fit into the picture, and a model that does
    not depend on the order of the rows. Positions are exact reals. */
module PreviewLayout {
  const HEADER_HEIGHT := 42.0
  const VIEW_WIDTH := 320.0
  const VIEW_HEIGHT := 200.0

  datatype Rect = Rect(x: real, y: real, width: real, height: real)

  function Max(a: real, b: real): real {
    if a >= b then a else b
  }

  function Min(a: real, b: real): real {
    if a <= b then a else b
  }

  // ----- Sections of a column grid -----

  datatype Section = Section(col: int, row: int, colSpan: int, rowSpan: int)

  datatype Column = Column(
    box: Rect,
    gridCols: nat,
    gridRows: nat,
    colWeights: seq<real>,
    rowWeights: seq<real>,
    sections: seq<Section>)

  function Sum(weights: seq<real>, n: nat): real
    requires n <= |weights|
  {
    if n == 0 then 0.0 else Sum(weights, n - 1) + weights[n - 1]
  }

  function Total(weights: seq<real>): real {
    var sum := Sum(weights, |weights|);
    if sum == 0.0 then 1.0 else sum
  }

  function WeightAt(weights: seq<real>, i: nat): real {
    if i < |weights| then weights[i] else 1.0
  }

  /** Where cell `i` starts: every cell takes its share of the size. */
  function Start(base: real, size: real, weights: seq<real>, i: nat): real
    requires Total(weights) != 0.0
  {
    if i == 0 then base else Start(base, size, weights, i - 1) + size * (WeightAt(weights, i - 1) / Total(weights))
  }

  /** The start of a cell, or `otherwise` where there is no such cell. */
  function EdgeOr(starts: seq<real>, i: int, otherwise: real): real {
    if 0 <= i < |starts| then starts[i] else otherwise
  }

  method CellStarts(base: real, size: real, weights: seq<real>, n: nat) returns (starts: seq<real>)
    requires Total(weights) != 0.0
    ensures starts == seq(n, i requires 0 <= i => Start(base, size, weights, i))
  {
    var total := Total(weights);
    starts := [];
    var acc := base;
    for i := 0 to n
      invariant acc == Start(base, size, weights, i)
      invariant starts == seq(i, k requires 0 <= k => Start(base, size, weights, k))
    {
      starts := starts + [acc];
      acc := acc + size * (WeightAt(weights, i) / total);
    }
  }

  function BodyY(c: Column): real {
    c.box.y + HEADER_HEIGHT
  }

  function BodyHeight(c: Column): real {
    Max(40.0, c.box.height - HEADER_HEIGHT)
  }

  function SectionRect(c: Column, colStarts: seq<real>, rowStarts: seq<real>, s: Section): Rect {
    var x, y := EdgeOr(colStarts, s.col, c.box.x), EdgeOr(rowStarts, s.row, BodyY(c));
    var right := EdgeOr(colStarts, s.col + s.colSpan, c.box.x + c.box.width);
    var bottom := EdgeOr(rowStarts, s.row + s.rowSpan, BodyY(c) + BodyHeight(c));
    Rect(x, y, Max(1.0, right - x), Max(1.0, bottom - y))
  }

  /** Non-negative sizes and weights; a list of weights may be shorter than the cells, which then weigh 1. */
  ghost predicate Regular(c: Column) {
    && c.box.width >= 0.0
    && (forall w | w in c.colWeights :: w >= 0.0)
    && (forall w | w in c.rowWeights :: w >= 0.0)
  }

  /** The weight of the first `i` cells, as they are laid out. */
  function Used(weights: seq<real>, i: nat): real {
    if i == 0 then 0.0 else Used(weights, i - 1) + WeightAt(weights, i - 1)
  }

  /** The last of `n` cells starts inside the size that is shared out. */
  predicate Fits(weights: seq<real>, n: nat) {
    n == 0 || Used(weights, n - 1) <= Total(weights)
  }

  ghost predicate Within(at: real, extent: real, base: real, size: real) {
    base <= at && at + extent <= Max(base + size, at + 1.0) && at <= base + size
  }

  /** Left of: `a` ends before `b` starts, unless it had to be stretched to one unit. */
  ghost predicate Before(at: real, extent: real, next: real) {
    at + extent <= next || extent == 1.0
  }

  lemma {:induction false} SumGrows(weights: seq<real>, i: nat, j: nat)
    requires i <= j <= |weights| && forall w | w in weights :: w >= 0.0
    ensures 0.0 <= Sum(weights, i) <= Sum(weights, j)
    decreases j
  {
    if j > 0 {
      assert weights[j - 1] in weights;
      if i < j {
        SumGrows(weights, i, j - 1);
      } else {
        SumGrows(weights, i - 1, j - 1);
      }
    }
  }

  lemma ShareSum(size: real, a: real, b: real, total: real)
    requires total > 0.0
    ensures size * (a / total) + size * (b / total) == size * ((a + b) / total)
  {
    assert (a / total) + (b / total) == (a + b) / total;
  }

  lemma ShareBounds(size: real, a: real, total: real)
    requires total > 0.0 && size >= 0.0 && 0.0 <= a <= total
    ensures 0.0 <= size * (a / total) <= size
  {
    assert 0.0 <= a / total <= 1.0;
  }

  lemma ShareGrows(size: real, w: real, total: real)
    requires total > 0.0 && size >= 0.0 && w >= 0.0
    ensures size * (w / total) >= 0.0
  {
    assert w / total >= 0.0;
  }

  lemma TotalPositive(weights: seq<real>)
    requires forall w | w in weights :: w >= 0.0
    ensures Total(weights) > 0.0 && Total(weights) >= Sum(weights, |weights|) >= 0.0
  {
    SumGrows(weights, 0, |weights|);
  }

  lemma {:induction false} UsedIsSum(weights: seq<real>, i: nat)
    ensures Used(weights, i) ==
      if i <= |weights| then Sum(weights, i) else Sum(weights, |weights|) + (i - |weights|) as real
    decreases i
  {
    if i > 0 {
      UsedIsSum(weights, i - 1);
    }
  }

  lemma {:induction false} UsedGrows(weights: seq<real>, i: nat, j: nat)
    requires i <= j && forall w | w in weights :: w >= 0.0
    ensures 0.0 <= Used(weights, i) <= Used(weights, j)
    decreases j
  {
    if j > 0 {
      assert WeightAt(weights, j - 1) >= 0.0 by {
        if j - 1 < |weights| {
          assert weights[j - 1] in weights;
        }
      }
      UsedGrows(weights, if i < j then i else i - 1, j - 1);
    }
  }

  /** All cells start inside exactly when the weights do: a list that covers all cells but one always does, and a
      shorter one only if all its weights are zero and it is short by no more than two. */
  lemma FitsIff(weights: seq<real>, n: nat)
    requires forall w | w in weights :: w >= 0.0
    ensures Fits(weights, n) <==>
      n <= |weights| + 1 || (Sum(weights, |weights|) == 0.0 && n <= |weights| + 2)
  {
    TotalPositive(weights);
    if n > 0 {
      UsedIsSum(weights, n - 1);
      if n - 1 <= |weights| {
        SumGrows(weights, n - 1, |weights|);
      }
    }
  }

  lemma {:induction false} StartIsShare(base: real, size: real, weights: seq<real>, i: nat)
    requires Total(weights) > 0.0
    ensures Start(base, size, weights, i) == base + size * (Used(weights, i) / Total(weights))
  {
    if i > 0 {
      StartIsShare(base, size, weights, i - 1);
      ShareSum(size, Used(weights, i - 1), WeightAt(weights, i - 1), Total(weights));
    }
  }

  lemma ShareInsideIff(size: real, a: real, total: real)
    requires total > 0.0 && size > 0.0
    ensures size * (a / total) <= size <==> a <= total
  {
    if a <= total {
      assert a / total <= 1.0;
      assert size * (a / total) <= size * 1.0;
    } else {
      assert a / total > 1.0;
      assert size * (a / total) > size * 1.0;
    }
  }

  /** A cell starts inside its column, if the column has any width, exactly when the cells before it use no more
      than the total; otherwise a section in it leaves the grid. */
  lemma StartInsideIff(base: real, size: real, weights: seq<real>, i: nat)
    requires size > 0.0 && forall w | w in weights :: w >= 0.0
    ensures Total(weights) > 0.0 && (Start(base, size, weights, i) <= base + size <==> Used(weights, i) <= Total(weights))
  {
    hide Start, Used;
    TotalPositive(weights);
    var share := size * (Used(weights, i) / Total(weights));
    assert Start(base, size, weights, i) == base + share by { StartIsShare(base, size, weights, i); }
    assert share <= size <==> Used(weights, i) <= Total(weights) by { ShareInsideIff(size, Used(weights, i), Total(weights)); }
  }

  lemma StartInside(base: real, size: real, weights: seq<real>, n: nat, i: nat)
    requires size >= 0.0 && i < n && Fits(weights, n) && forall w | w in weights :: w >= 0.0
    ensures Total(weights) > 0.0 && base <= Start(base, size, weights, i) <= base + size
  {
    TotalPositive(weights);
    UsedGrows(weights, i, n - 1);
    StartIsShare(base, size, weights, i);
    ShareBounds(size, Used(weights, i), Total(weights));
  }

  lemma {:induction false} StartsGrow(base: real, size: real, weights: seq<real>, i: nat, j: nat)
    requires size >= 0.0 && i <= j && forall w | w in weights :: w >= 0.0
    ensures Total(weights) > 0.0 && Start(base, size, weights, i) <= Start(base, size, weights, j)
    decreases j
  {
    TotalPositive(weights);
    if i < j {
      StartsGrow(base, size, weights, i, j - 1);
      assert WeightAt(weights, j - 1) >= 0.0 by {
        if j - 1 < |weights| {
          assert weights[j - 1] in weights;
        }
      }
      ShareGrows(size, WeightAt(weights, j - 1), Total(weights));
    }
  }

  function Starts(base: real, size: real, weights: seq<real>, n: nat): seq<real>
    requires Total(weights) != 0.0
  {
    seq(n, i requires 0 <= i => Start(base, size, weights, i))
  }

  /** Along one axis: any two edges lie inside, and the edges of a cell range come in order. */
  lemma EdgesInside(base: real, size: real, weights: seq<real>, n: nat, i: int, otherwise: real)
    requires size >= 0.0 && Fits(weights, n) && (forall w | w in weights :: w >= 0.0)
    requires otherwise == base || otherwise == base + size
    ensures Total(weights) > 0.0 && base <= EdgeOr(Starts(base, size, weights, n), i, otherwise) <= base + size
  {
    TotalPositive(weights);
    if 0 <= i < n {
      StartInside(base, size, weights, n, i);
    }
  }

  lemma EdgesInOrder(base: real, size: real, weights: seq<real>, n: nat, i: nat, j: nat)
    requires size >= 0.0 && (forall w | w in weights :: w >= 0.0) && i <= j < n
    ensures Total(weights) > 0.0
    ensures EdgeOr(Starts(base, size, weights, n), i, base + size) <= EdgeOr(Starts(base, size, weights, n), j, base)
  {
    StartsGrow(base, size, weights, i, j);
  }

  function SectionRects(c: Column): seq<Rect> {
    var colStarts := Starts(c.box.x, c.box.width, c.colWeights, c.gridCols);
    var rowStarts := Starts(BodyY(c), BodyHeight(c), c.rowWeights, c.gridRows);
    seq(|c.sections|, i requires 0 <= i < |c.sections| => SectionRect(c, colStarts, rowStarts, c.sections[i]))
  }

  method CalcColumnSections(c: Column) returns (rects: seq<Rect>)
    ensures rects == SectionRects(c)
  {
    var colStarts := CellStarts(c.box.x, c.box.width, c.colWeights, c.gridCols);
    var rowStarts := CellStarts(BodyY(c), BodyHeight(c), c.rowWeights, c.gridRows);
    rects := [];
    for i := 0 to |c.sections|
      invariant |rects| == i
      invariant forall k | 0 <= k < i :: rects[k] == SectionRect(c, colStarts, rowStarts, c.sections[k])
    {
      rects := rects + [SectionRect(c, colStarts, rowStarts, c.sections[i])];
    }
  }

  /** Every section, whatever cells it names, lies in the body of its grid as soon as the cells do, save for a
      section thinner than one unit, which is drawn one unit wide. */
  lemma SectionsLieInside(c: Column, k: nat)
    requires Regular(c) && k < |c.sections|
    ensures var r := SectionRects(c)[k];
      && r.width >= 1.0 && r.height >= 1.0
      && (Fits(c.colWeights, c.gridCols) ==> Within(r.x, r.width, c.box.x, c.box.width))
      && (Fits(c.rowWeights, c.gridRows) ==> Within(r.y, r.height, BodyY(c), BodyHeight(c)))
  {
    var s := c.sections[k];
    if Fits(c.colWeights, c.gridCols) {
      EdgesInside(c.box.x, c.box.width, c.colWeights, c.gridCols, s.col, c.box.x);
      EdgesInside(c.box.x, c.box.width, c.colWeights, c.gridCols, s.col + s.colSpan, c.box.x + c.box.width);
    }
    if Fits(c.rowWeights, c.gridRows) {
      EdgesInside(BodyY(c), BodyHeight(c), c.rowWeights, c.gridRows, s.row, BodyY(c));
      EdgesInside(BodyY(c), BodyHeight(c), c.rowWeights, c.gridRows, s.row + s.rowSpan, BodyY(c) + BodyHeight(c));
    }
  }

  /** A list of weights that does not fit lets a section leave the grid: one on the last cell starts beyond it. */
  lemma SectionLeavesGrid(c: Column, k: nat)
    requires Regular(c) && k < |c.sections| && c.box.width > 0.0 && c.sections[k].col == c.gridCols - 1
    ensures SectionRects(c)[k].x <= c.box.x + c.box.width <==> Fits(c.colWeights, c.gridCols)
  {
    if c.gridCols > 0 {
      StartInsideIff(c.box.x, c.box.width, c.colWeights, c.gridCols - 1);
    }
  }

  /** Sections on disjoint cells do not overlap: the one on the earlier columns ends before the other starts, and
      so does the one on the earlier rows. */
  lemma SectionsDoNotOverlap(c: Column, i: nat, j: nat)
    requires Regular(c) && i < |c.sections| && j < |c.sections|
    ensures var a, b, p, q := c.sections[i], c.sections[j], SectionRects(c)[i], SectionRects(c)[j];
      && (0 <= a.col && 0 <= a.colSpan && a.col + a.colSpan <= b.col < c.gridCols ==> Before(p.x, p.width, q.x))
      && (0 <= a.row && 0 <= a.rowSpan && a.row + a.rowSpan <= b.row < c.gridRows ==> Before(p.y, p.height, q.y))
  {
    var a, b := c.sections[i], c.sections[j];
    if 0 <= a.col && 0 <= a.colSpan && a.col + a.colSpan <= b.col < c.gridCols {
      EdgesInOrder(c.box.x, c.box.width, c.colWeights, c.gridCols, a.col + a.colSpan, b.col);
    }
    if 0 <= a.row && 0 <= a.rowSpan && a.row + a.rowSpan <= b.row < c.gridRows {
      EdgesInOrder(BodyY(c), BodyHeight(c), c.rowWeights, c.gridRows, a.row + a.rowSpan, b.row);
    }
  }

  // ----- Fitting into the picture -----

  function MinX(rects: seq<Rect>): real
    requires rects != []
  {
    if |rects| == 1 then rects[0].x else Min(rects[0].x, MinX(rects[1..]))
  }

  function MinY(rects: seq<Rect>): real
    requires rects != []
  {
    if |rects| == 1 then rects[0].y else Min(rects[0].y, MinY(rects[1..]))
  }

  function MaxX(rects: seq<Rect>): real
    requires rects != []
  {
    if |rects| == 1 then rects[0].x + rects[0].width else Max(rects[0].x + rects[0].width, MaxX(rects[1..]))
  }

  function MaxY(rects: seq<Rect>): real
    requires rects != []
  {
    if |rects| == 1 then rects[0].y + rects[0].height else Max(rects[0].y + rects[0].height, MaxY(rects[1..]))
  }

  /** Scale both axes alike, then shift. */
  datatype Transform = Transform(scale: real, tx: real, ty: real)

  function Margined(low: real, high: real): real {
    Max(1.0, high - low + 16.0)
  }

  function Fit(rects: seq<Rect>): Transform {
    var minX, minY := if rects != [] then MinX(rects) else 0.0, if rects != [] then MinY(rects) else 0.0;
    var maxX, maxY := if rects != [] then MaxX(rects) else VIEW_WIDTH, if rects != [] then MaxY(rects) else VIEW_HEIGHT;
    var sourceWidth, sourceHeight := Margined(minX, maxX), Margined(minY, maxY);
    var scale := Min(VIEW_WIDTH / sourceWidth, VIEW_HEIGHT / sourceHeight);
    Transform(scale, Shift(minX, sourceWidth, VIEW_WIDTH, scale), Shift(minY, sourceHeight, VIEW_HEIGHT, scale))
  }

  /** Centre along one axis. */
  function Shift(low: real, source: real, view: real, scale: real): real {
    (view - source * scale) / 2.0 - (low - 8.0) * scale
  }

  lemma {:induction false} BoundsHold(rects: seq<Rect>, r: Rect)
    requires r in rects
    ensures MinX(rects) <= r.x && r.x + r.width <= MaxX(rects)
    ensures MinY(rects) <= r.y && r.y + r.height <= MaxY(rects)
  {
    if |rects| > 1 && r in rects[1..] {
      BoundsHold(rects[1..], r);
    }
  }

  lemma ScaleFits(view: real, source: real, scale: real)
    requires view > 0.0 && source > 0.0 && 0.0 < scale <= view / source
    ensures 0.0 < source * scale <= view
  {
    var most := view / source;
    assert source * most == view;
    assert source * scale <= source * most;
  }

  /** Along one axis, an interval between the extremes lands inside the view with a margin of eight scaled units. */
  lemma AxisFits(low: real, high: real, at: real, extent: real, view: real, scale: real)
    requires low <= at && extent >= 0.0 && at + extent <= high
    requires view > 0.0 && 0.0 < scale <= view / Margined(low, high)
    ensures var t := Shift(low, Margined(low, high), view, scale);
      8.0 * scale <= scale * at + t && scale * (at + extent) + t <= view - 8.0 * scale
  {
    var source := Margined(low, high);
    ScaleFits(view, source, scale);
    var offset := (view - source * scale) / 2.0;
    var t := offset - (low - 8.0) * scale;
    assert scale * at + t == offset + (at - low) * scale + 8.0 * scale;
    NotNegative(at - low, scale);
    assert scale * (at + extent) + t == offset + (at + extent - low) * scale + 8.0 * scale;
    NotNegative(high - (at + extent), scale);
    assert (at + extent - low) * scale + (high - (at + extent)) * scale == (high - low) * scale;
    assert source * scale == (high - low) * scale + 16.0 * scale;
  }

  lemma NotNegative(a: real, b: real)
    requires a >= 0.0 && b >= 0.0
    ensures a * b >= 0.0
  {
  }

  /** The fit puts every rectangle inside the picture with one uniform scale, and no larger scale
      would fit the margined bounds: one of the two sides is used up. */
  lemma FitIsInside(rects: seq<Rect>, r: Rect)
    requires (forall q | q in rects :: q.width >= 0.0 && q.height >= 0.0) && r in rects
    ensures var f := Fit(rects);
      && f.scale > 0.0
      && 0.0 <= f.scale * r.x + f.tx && f.scale * (r.x + r.width) + f.tx <= VIEW_WIDTH
      && 0.0 <= f.scale * r.y + f.ty && f.scale * (r.y + r.height) + f.ty <= VIEW_HEIGHT
      && (f.scale * Margined(MinX(rects), MaxX(rects)) == VIEW_WIDTH || f.scale * Margined(MinY(rects), MaxY(rects)) == VIEW_HEIGHT)
  {
    FitAcross(rects, r);
    FitDown(rects, r);
    FitUsesAll(rects);
    hide *;
  }

  lemma FitAcross(rects: seq<Rect>, r: Rect)
    requires r in rects && r.width >= 0.0
    ensures var f := Fit(rects); f.scale > 0.0 && 0.0 <= f.scale * r.x + f.tx && f.scale * (r.x + r.width) + f.tx <= VIEW_WIDTH
  {
    hide *;
    BoundsHold(rects, r);
    FitScale(rects);
    AxisFits(MinX(rects), MaxX(rects), r.x, r.width, VIEW_WIDTH, Fit(rects).scale);
  }

  lemma FitDown(rects: seq<Rect>, r: Rect)
    requires r in rects && r.height >= 0.0
    ensures var f := Fit(rects); 0.0 <= f.scale * r.y + f.ty && f.scale * (r.y + r.height) + f.ty <= VIEW_HEIGHT
  {
    hide *;
    BoundsHold(rects, r);
    FitScale(rects);
    AxisFits(MinY(rects), MaxY(rects), r.y, r.height, VIEW_HEIGHT, Fit(rects).scale);
  }

  lemma FitUsesAll(rects: seq<Rect>)
    requires rects != []
    ensures var s := Fit(rects).scale;
      s * Margined(MinX(rects), MaxX(rects)) == VIEW_WIDTH || s * Margined(MinY(rects), MaxY(rects)) == VIEW_HEIGHT
  {
    FitScale(rects);
    QuotientUsesAll(VIEW_WIDTH, Margined(MinX(rects), MaxX(rects)));
    QuotientUsesAll(VIEW_HEIGHT, Margined(MinY(rects), MaxY(rects)));
    hide Fit, Margined, MinX, MaxX, MinY, MaxY;
  }

  lemma FitScale(rects: seq<Rect>)
    requires rects != []
    ensures var f, w, h := Fit(rects), Margined(MinX(rects), MaxX(rects)), Margined(MinY(rects), MaxY(rects));
      && w > 0.0 && h > 0.0
      && 0.0 < f.scale <= VIEW_WIDTH / w && f.scale <= VIEW_HEIGHT / h
      && (f.scale == VIEW_WIDTH / w || f.scale == VIEW_HEIGHT / h)
      && f.tx == Shift(MinX(rects), w, VIEW_WIDTH, f.scale) && f.ty == Shift(MinY(rects), h, VIEW_HEIGHT, f.scale)
  {
    hide MinX, MaxX, MinY, MaxY, Shift;
    var w, h := Margined(MinX(rects), MaxX(rects)), Margined(MinY(rects), MaxY(rects));
    assert VIEW_WIDTH / w > 0.0 && VIEW_HEIGHT / h > 0.0;
  }

  lemma QuotientUsesAll(view: real, source: real)
    requires source > 0.0
    ensures (view / source) * source == view
  {
  }
}

/** The preview model of the rows of a board. */
module PreviewModel {
  import opened Elements
  import opened Cascade
  import opened PreviewLayout

  datatype PreviewNote = PreviewNote(box: Rect, colorKey: string)
  datatype PreviewGrid = PreviewGrid(box: Rect, sections: seq<Rect>)
  datatype Model = Model(notes: seq<PreviewNote>, grids: seq<PreviewGrid>)

  /** How single elements are drawn; any functions of the element and, for containers, its notes. */
  datatype Drawing = Drawing(
    freeNote: Element -> PreviewNote,
    notesInColumn: (Element, seq<Element>) -> seq<PreviewNote>,
    notesInTable: (Element, seq<Element>) -> seq<PreviewNote>,
    columnGrid: Element -> PreviewGrid,
    tableGrid: Element -> PreviewGrid)

  /** `id` and `kind` come from the columns, whatever the data says. */
  function NormalizeElement(row: Row): Element {
    Record(row.data + map["id" := Str(row.id), "kind" := Str(row.kind)])
  }

  function OfKind(rows: seq<Row>, kind: string): seq<Element> {
    if rows == [] then []
    else (if rows[0].kind == kind then [NormalizeElement(rows[0])] else []) + OfKind(rows[1..], kind)
  }

  type Comparison = (Id, Id) -> bool

  /** The comparison of ids is a strict total order. */
  ghost predicate StrictTotalOrder(less: Comparison) {
    && (forall a, b | less(a, b) :: !less(b, a))
    && (forall a, b, c | less(a, b) && less(b, c) :: less(a, c))
    && (forall a, b :: less(a, b) || less(b, a) || a == b)
  }

  function InsertById(e: Element, items: seq<Element>, less: Comparison): seq<Element> {
    if items == [] || less(IdOf(e), IdOf(items[0])) then [e] + items else [items[0]] + InsertById(e, items[1..], less)
  }

  function SortById(items: seq<Element>, less: Comparison): seq<Element> {
    if items == [] then [] else InsertById(items[0], SortById(items[1..], less), less)
  }

  /** JavaScript truthiness of a field. */
  predicate Truthy(e: Element, key: string) {
    key in e.fields && e.fields[key] !in {Null, Bool(false), Num(0.0), Str("")}
  }

  function FreeNotes(notes: seq<Element>, d: Drawing): seq<PreviewNote> {
    if notes == [] then []
    else (if !Truthy(notes[0], "containerId") then [d.freeNote(notes[0])] else []) + FreeNotes(notes[1..], d)
  }

  function NotesIn(notes: seq<Element>, container: Id): seq<Element> {
    if notes == [] then []
    else
      (if "containerId" in notes[0].fields && notes[0].fields["containerId"] == Str(container) then [notes[0]] else [])
      + NotesIn(notes[1..], container)
  }

  function Contained(containers: seq<Element>, notes: seq<Element>, draw: (Element, seq<Element>) -> seq<PreviewNote>): seq<PreviewNote> {
    if containers == [] then []
    else draw(containers[0], NotesIn(notes, IdOf(containers[0]))) + Contained(containers[1..], notes, draw)
  }

  function Grids(containers: seq<Element>, draw: Element -> PreviewGrid): seq<PreviewGrid> {
    seq(|containers|, i requires 0 <= i < |containers| => draw(containers[i]))
  }

  function BuildBoardPreviewModel(rows: seq<Row>, less: Comparison, d: Drawing): Model {
    var notes := SortById(OfKind(rows, "NOTE"), less);
    var columns, tables := SortById(OfKind(rows, "COLUMN"), less), SortById(OfKind(rows, "TABLE"), less);
    Model(FreeNotes(notes, d) + Contained(columns, notes, d.notesInColumn) + Contained(tables, notes, d.notesInTable),
          Grids(columns, d.columnGrid) + Grids(tables, d.tableGrid))
  }

  // ----- The model does not depend on the order of the rows -----

  ghost predicate DistinctRows(rows: seq<Row>) {
    forall i, j | 0 <= i < j < |rows| :: rows[i].id != rows[j].id
  }

  ghost predicate Increasing(items: seq<Element>, less: Comparison) {
    forall i, j | 0 <= i < j < |items| :: less(IdOf(items[i]), IdOf(items[j]))
  }

  lemma {:induction false} InsertAdds(e: Element, items: seq<Element>, less: Comparison)
    ensures SetOf(InsertById(e, items, less)) == {e} + SetOf(items)
  {
    if items == [] || less(IdOf(e), IdOf(items[0])) {
      SetOfCons(e, items);
    } else {
      InsertAdds(e, items[1..], less);
      SetOfCons(items[0], InsertById(e, items[1..], less));
      SetOfCons(items[0], items[1..]);
      assert items == [items[0]] + items[1..];
    }
  }

  lemma SetOfCons(x: Element, s: seq<Element>)
    ensures SetOf([x] + s) == {x} + SetOf(s)
  {
  }

  lemma {:induction false} InsertKeeps(e: Element, items: seq<Element>, less: Comparison)
    requires StrictTotalOrder(less) && Increasing(items, less) && forall x | x in items :: IdOf(x) != IdOf(e)
    ensures Increasing(InsertById(e, items, less), less)
    ensures SetOf(InsertById(e, items, less)) == {e} + SetOf(items)
  {
    InsertAdds(e, items, less);
    if items != [] && !less(IdOf(e), IdOf(items[0])) {
      assert items[0] in items;
      var rest := InsertById(e, items[1..], less);
      InsertKeeps(e, items[1..], less);
      forall j | 0 <= j < |rest| ensures less(IdOf(items[0]), IdOf(rest[j])) {
        assert rest[j] in SetOf(rest);
        if rest[j] != e {
          assert rest[j] in items[1..];
        }
      }
    }
  }

  ghost predicate DistinctItems(items: seq<Element>) {
    forall i, j | 0 <= i < j < |items| :: IdOf(items[i]) != IdOf(items[j])
  }

  lemma {:induction false} SortSorts(items: seq<Element>, less: Comparison)
    requires StrictTotalOrder(less) && DistinctItems(items)
    ensures Increasing(SortById(items, less), less) && SetOf(SortById(items, less)) == SetOf(items)
  {
    if items != [] {
      SortSorts(items[1..], less);
      forall x | x in SortById(items[1..], less) ensures IdOf(x) != IdOf(items[0]) {
        assert x in SetOf(SortById(items[1..], less));
      }
      InsertKeeps(items[0], SortById(items[1..], less), less);
      assert items == [items[0]] + items[1..];
      assert SetOf([items[0]] + items[1..]) == {items[0]} + SetOf(items[1..]);
    }
  }

  /** A strictly increasing list is determined by its elements. */
  lemma EmptyIffNoMembers(s: seq<Element>)
    ensures s == [] <==> SetOf(s) == {}
  {
    if s != [] {
      assert s[0] in SetOf(s);
    }
  }

  lemma {:induction false} IncreasingIsUnique(a: seq<Element>, b: seq<Element>, less: Comparison)
    requires StrictTotalOrder(less) && Increasing(a, less) && Increasing(b, less) && SetOf(a) == SetOf(b)
    ensures a == b
  {
    EmptyIffNoMembers(a);
    EmptyIffNoMembers(b);
    if a != [] {
      assert a[0] in SetOf(a);
      assert b != [];
      assert b[0] in SetOf(a);
      assert a[0] == b[0];
      TailSet(a, less);
      TailSet(b, less);
      IncreasingIsUnique(a[1..], b[1..], less);
      assert a == [a[0]] + a[1..] && b == [b[0]] + b[1..];
    }
  }

  lemma TailSet(a: seq<Element>, less: Comparison)
    requires StrictTotalOrder(less) && Increasing(a, less) && a != []
    ensures SetOf(a[1..]) == SetOf(a) - {a[0]}
  {
    assert a == [a[0]] + a[1..];
    assert forall i | 0 < i < |a| :: a[i] != a[0];
  }

  /** Which elements a kind selects. */
  ghost predicate Selected(rows: seq<Row>, kind: string, e: Element) {
    exists r | r in rows :: r.kind == kind && NormalizeElement(r) == e
  }

  lemma {:induction false} OfKindMembers(rows: seq<Row>, kind: string, e: Element)
    ensures e in OfKind(rows, kind) <==> Selected(rows, kind, e)
  {
    hide NormalizeElement;
    if rows != [] {
      OfKindMembers(rows[1..], kind, e);
      assert rows[0] in rows;
      assert forall r :: r in rows <==> r == rows[0] || r in rows[1..] by { assert rows == [rows[0]] + rows[1..]; }
    }
  }

  lemma SameSelection(rows: seq<Row>, other: seq<Row>, kind: string)
    requires SetOf(rows) == SetOf(other)
    ensures SetOf(OfKind(rows, kind)) == SetOf(OfKind(other, kind))
  {
    hide NormalizeElement, OfKind;
    assert forall r :: (r in rows <==> r in SetOf(rows)) && (r in other <==> r in SetOf(other));
    forall e ensures e in OfKind(rows, kind) <==> e in OfKind(other, kind) {
      OfKindMembers(rows, kind, e);
      OfKindMembers(other, kind, e);
    }
  }

  lemma NormalizeKeepsId(row: Row)
    ensures IdOf(NormalizeElement(row)) == row.id
  {
  }

  lemma {:induction false} OfKindDistinct(rows: seq<Row>, kind: string)
    requires DistinctRows(rows)
    ensures DistinctItems(OfKind(rows, kind))
    ensures forall e | e in OfKind(rows, kind) :: exists r | r in rows :: r.id == IdOf(e)
  {
    hide NormalizeElement;
    if rows != [] {
      OfKindDistinct(rows[1..], kind);
      NormalizeKeepsId(rows[0]);
      assert rows[0] in rows;
      forall e | e in OfKind(rows[1..], kind) ensures IdOf(e) != rows[0].id {
        var r :| r in rows[1..] && r.id == IdOf(e);
      }
    }
  }

  lemma SortedAlike(rows: seq<Row>, other: seq<Row>, kind: string, less: Comparison)
    requires StrictTotalOrder(less) && DistinctRows(rows) && DistinctRows(other) && SetOf(rows) == SetOf(other)
    ensures SortById(OfKind(rows, kind), less) == SortById(OfKind(other, kind), less)
  {
    OfKindDistinct(rows, kind);
    OfKindDistinct(other, kind);
    SortSorts(OfKind(rows, kind), less);
    SortSorts(OfKind(other, kind), less);
    SameSelection(rows, other, kind);
    IncreasingIsUnique(SortById(OfKind(rows, kind), less), SortById(OfKind(other, kind), less), less);
  }

  /** The same rows in any order give the same preview, whatever the drawing. */
  lemma ModelIgnoresRowOrder(rows: seq<Row>, other: seq<Row>, less: Comparison, d: Drawing)
    requires StrictTotalOrder(less) && DistinctRows(rows) && DistinctRows(other) && SetOf(rows) == SetOf(other)
    ensures BuildBoardPreviewModel(rows, less, d) == BuildBoardPreviewModel(other, less, d)
  {
    SortedAlike(rows, other, "NOTE", less);
    SortedAlike(rows, other, "COLUMN", less);
    SortedAlike(rows, other, "TABLE", less);
  }
}
