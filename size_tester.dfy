/**
 * The fit test behind the size search (the `SizeTester` object of
 * AutoResizeEditText.kt): for a candidate size, measure the text and
 * answer -1 when the measured box lies inside the available box and 1
 * otherwise.
 *
 * Text measurement (`TextPaint`, `StaticLayout`) is platform code; it is
 * a deterministic oracle here, a `Paint` value holding three functions
 * that answer in whole pixels.
 */
module SizeTester {
  import SizeSearch

  /** The `maxLines` value that means "no cap on the number of lines". */
  const NoLineLimit: int := -1

  /** A rectangle whose left and top edges are at the origin; `right` and `bottom` are its far edges. */
  datatype Rect = Rect(right: int, bottom: int)

  /**
   * `RectF.contains` for two origin-anchored rectangles: the outer one
   * must be non-empty, and reach at least as far right and as far down as
   * the inner one.
   */
  predicate Contains(outer: Rect, inner: Rect)
  {
    0 < outer.right && 0 < outer.bottom && inner.right <= outer.right && inner.bottom <= outer.bottom
  }

  /** A multi-line layout of the text: one (truncated) width per line, and the block's height. */
  datatype Layout = Layout(lineWidths: seq<int>, height: int)
  {
    function LineCount(): nat { |lineWidths| }
  }

  /**
   * The measurement oracle, at a given text size:
   * `fontSpacing(size)` is the line height, `measureText(text, size)` the
   * width of the text on one line, and `staticLayout(text, size, width,
   * spacingMult, spacingAdd)` the text broken into lines no wider than `width`.
   */
  datatype Paint = Paint(
    fontSpacing: int -> int,
    measureText: (string, int) -> int,
    staticLayout: (string, int, int, real, real) -> Layout)

  /** The widget state the tester reads: the text, the line cap and the layout parameters. */
  datatype Config = Config(text: string, maxLines: int, widthLimit: int, spacingMult: real, spacingAdd: real)

  /** The layout of the configured text at `size`. */
  function LayoutAt(cfg: Config, paint: Paint, size: int): Layout
  {
    paint.staticLayout(cfg.text, size, cfg.widthLimit, cfg.spacingMult, cfg.spacingAdd)
  }

  /**
   * The width of the widest line, starting from -1: the largest of -1 and
   * every element of `widths`.  Folded from the left, as the tester's loop does.
   */
  function MaxWidth(widths: seq<int>): (m: int)
    ensures -1 <= m
    ensures forall i :: 0 <= i < |widths| ==> widths[i] <= m
    ensures m == -1 || exists i :: 0 <= i < |widths| && widths[i] == m
  {
    if widths == [] then -1
    else
      var m := MaxWidth(widths[..|widths| - 1]);
      if m < widths[|widths| - 1] then widths[|widths| - 1] else m
  }

  /** The text is laid out on one line exactly when the line cap is 1. */
  predicate SingleLine(cfg: Config)
  {
    cfg.maxLines == 1
  }

  /** In multi-line mode with a cap, the layout at `size` has more lines than the cap allows. */
  predicate TooManyLines(cfg: Config, paint: Paint, size: int)
  {
    !SingleLine(cfg) && cfg.maxLines != NoLineLimit && LayoutAt(cfg, paint, size).LineCount() > cfg.maxLines
  }

  /** The measured box of the text at `size`, in the mode the line cap selects. */
  function MeasuredRect(cfg: Config, paint: Paint, size: int): Rect
  {
    if SingleLine(cfg) then
      Rect(paint.measureText(cfg.text, size), paint.fontSpacing(size))
    else
      var layout := LayoutAt(cfg, paint, size);
      Rect(MaxWidth(layout.lineWidths), layout.height)
  }

  /**
   * `onTestSize`: -1 when the text at `suggestedSize` fits the available
   * space, 1 when it is too big.  Never 0.
   */
  function TestSize(cfg: Config, paint: Paint, suggestedSize: int, availableSpace: Rect): (r: int)
    ensures r == -1 || r == 1
  {
    if TooManyLines(cfg, paint, suggestedSize) then 1
    else if Contains(availableSpace, MeasuredRect(cfg, paint, suggestedSize)) then -1
    else 1
  }

  /** The tester as the search sees it: a three-way answer for every size. */
  function Tester(cfg: Config, paint: Paint, availableSpace: Rect): int -> int
  {
    size => TestSize(cfg, paint, size, availableSpace)
  }

  /**
   * A size fits exactly when the line cap (if any, in multi-line mode) is
   * respected and the measured box is inside the non-empty available box.
   */
  lemma FitsIff(cfg: Config, paint: Paint, size: int, availableSpace: Rect)
    ensures var m := MeasuredRect(cfg, paint, size);
      SizeSearch.Fits(Tester(cfg, paint, availableSpace), size)
      <==> && (SingleLine(cfg) || cfg.maxLines == NoLineLimit || LayoutAt(cfg, paint, size).LineCount() <= cfg.maxLines)
           && 0 < availableSpace.right && 0 < availableSpace.bottom
           && m.right <= availableSpace.right && m.bottom <= availableSpace.bottom
  {
  }

  /**
   * Line-count short circuit: in multi-line mode with a cap that the
   * layout exceeds, the answer is 1 whatever the available space, so the
   * dimensions are never examined.
   */
  lemma TooManyLinesRejects(cfg: Config, paint: Paint, size: int)
    requires cfg.maxLines != 1 && cfg.maxLines != NoLineLimit
    requires LayoutAt(cfg, paint, size).LineCount() > cfg.maxLines
    ensures forall space :: TestSize(cfg, paint, size, space) == 1
  {
  }

  /** Single-line mode consults only the font spacing and the one-line width, never the layout. */
  lemma SingleLineIgnoresLayout(cfg: Config, p1: Paint, p2: Paint, size: int, space: Rect)
    requires SingleLine(cfg)
    requires p1.fontSpacing(size) == p2.fontSpacing(size)
    requires p1.measureText(cfg.text, size) == p2.measureText(cfg.text, size)
    ensures TestSize(cfg, p1, size, space) == TestSize(cfg, p2, size, space)
  {
  }

  /** Multi-line mode consults only the layout, never the font spacing or the one-line width. */
  lemma MultiLineIgnoresFontMetrics(cfg: Config, p1: Paint, p2: Paint, size: int, space: Rect)
    requires !SingleLine(cfg)
    requires LayoutAt(cfg, p1, size) == LayoutAt(cfg, p2, size)
    ensures TestSize(cfg, p1, size, space) == TestSize(cfg, p2, size, space)
  {
  }

  /** A larger available box accepts every size a smaller one accepts. */
  lemma WiderSpaceStillFits(cfg: Config, paint: Paint, size: int, small: Rect, large: Rect)
    requires small.right <= large.right && small.bottom <= large.bottom
    requires SizeSearch.Fits(Tester(cfg, paint, small), size)
    ensures SizeSearch.Fits(Tester(cfg, paint, large), size)
  {
  }

  /** The oracle's answers at size `a` are no larger than at size `b`. */
  ghost predicate MeasuresNoLarger(cfg: Config, paint: Paint, a: int, b: int)
  {
    var la, lb := LayoutAt(cfg, paint, a), LayoutAt(cfg, paint, b);
    && paint.fontSpacing(a) <= paint.fontSpacing(b)
    && paint.measureText(cfg.text, a) <= paint.measureText(cfg.text, b)
    && la.LineCount() <= lb.LineCount()
    && MaxWidth(la.lineWidths) <= MaxWidth(lb.lineWidths)
    && la.height <= lb.height
  }

  /** The measurement never shrinks as the size grows. */
  ghost predicate MonotoneMeasurer(cfg: Config, paint: Paint)
  {
    forall a, b :: a <= b ==> MeasuresNoLarger(cfg, paint, a, b)
  }

  /**
   * A measurer that never shrinks with size makes the tester monotone:
   * below a fitting size, every size fits.  With `TestSize` never 0, this
   * is what the search needs to find the largest fitting size.
   */
  lemma MonotoneTester(cfg: Config, paint: Paint, space: Rect, start: int, hi: int)
    requires MonotoneMeasurer(cfg, paint)
    ensures SizeSearch.Monotone(Tester(cfg, paint, space), start, hi)
    ensures SizeSearch.NeverZero(Tester(cfg, paint, space), start, hi)
  {
    var test := Tester(cfg, paint, space);
    forall a, b | start <= a <= b <= hi && test(b) < 0
      ensures test(a) < 0
    {
      assert MeasuresNoLarger(cfg, paint, a, b);
    }
  }
}
