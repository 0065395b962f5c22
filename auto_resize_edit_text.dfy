/**
 * The state of AutoResizeEditText that picks and applies a text size:
 * the size bounds, the line cap, the available space, the size cache
 * keyed by text length, and the setters and callbacks that update them
 * and recompute the size.
 *
 * The platform's measured size and paddings come in as a `HostMetrics`
 * value on every call that recomputes; the size the widget hands to its
 * rendering (`super.setTextSize(COMPLEX_UNIT_PX, …)`) is the field
 * `appliedSize`.
 */
module AutoResize {
  import opened SizeSearch
  import opened SizeTester

  /** Kotlin `Float.toInt()`: truncation toward zero, saturating at the `Int` bounds. */
  function ToInt(x: real): (r: int)
    ensures IntMin <= r <= IntMax
    ensures IntMax as real <= x ==> r == IntMax
    ensures x <= IntMin as real ==> r == IntMin
    ensures 0.0 <= x < IntMax as real ==> r as real <= x < r as real + 1.0
    ensures IntMin as real < x <= 0.0 ==> r as real - 1.0 < x <= r as real
  {
    if x >= IntMax as real then IntMax
    else if x <= IntMin as real then IntMin
    else if x >= 0.0 then x.Floor
    else -((-x).Floor)
  }

  /**
   * Kotlin `String.length`: the number of UTF-16 code units, so a
   * character above U+FFFF (a surrogate pair) counts twice.
   */
  function Utf16Length(s: string): (n: nat)
    ensures |s| <= n <= 2 * |s|
    ensures n == |s| <==> forall i :: 0 <= i < |s| ==> s[i] as int <= 0xFFFF
  {
    if s == [] then 0
    else Utf16Length(s[..|s| - 1]) + if s[|s| - 1] as int <= 0xFFFF then 1 else 2
  }

  /** The length of a concatenation is the sum of the lengths. */
  lemma {:induction false} Utf16LengthAppend(a: string, b: string)
    ensures Utf16Length(a + b) == Utf16Length(a) + Utf16Length(b)
    decreases |b|
  {
    if b == [] {
      assert a + b == a;
    } else {
      assert (a + b)[..|a + b| - 1] == a + b[..|b| - 1];
      Utf16LengthAppend(a, b[..|b| - 1]);
    }
  }

  /** What the platform reports when the size is recomputed: measured size and compound paddings. */
  datatype HostMetrics = HostMetrics(
    measuredWidth: int, measuredHeight: int,
    compoundPaddingLeft: int, compoundPaddingRight: int,
    compoundPaddingTop: int, compoundPaddingBottom: int)

  function WidthLimit(host: HostMetrics): int
  {
    host.measuredWidth - host.compoundPaddingLeft - host.compoundPaddingRight
  }

  function HeightLimit(host: HostMetrics): int
  {
    host.measuredHeight - host.compoundPaddingBottom - host.compoundPaddingTop
  }

  /** A snapshot of every field of the widget. */
  datatype WidgetState = WidgetState(
    text: string,
    maxTextSize: real,
    minTextSize: real,
    spacingMult: real,
    spacingAdd: real,
    widthLimit: int,
    maxLines: int,
    enableSizeCache: bool,
    initialized: bool,
    availableSpaceRect: Rect,
    textCachedSizes: map<int, int>,
    appliedSize: real)

  /** The truncated size bounds lie in the domain on which the search is modelled. */
  predicate SizesInDomain(s: WidgetState)
  {
    InDomain(ToInt(s.minTextSize), ToInt(s.maxTextSize))
  }

  /** What the size tester reads from the widget. */
  function TesterConfig(s: WidgetState): Config
  {
    Config(s.text, s.maxLines, s.widthLimit, s.spacingMult, s.spacingAdd)
  }

  /** The widget's size tester, bound to its current state and available space. */
  function SizeTesterOf(s: WidgetState, paint: Paint): int -> int
  {
    Tester(TesterConfig(s), paint, s.availableSpaceRect)
  }

  /** `SparseIntArray.get(key)`: the stored value, or 0 when the key is absent. */
  function CacheGet(cache: map<int, int>, key: int): int
  {
    if key in cache then cache[key] else 0
  }

  /**
   * `efficientTextSizeSearch`: the chosen size and the cache afterwards.
   * With caching off it is the plain search and the cache is neither read
   * nor written.  With caching on, a nonzero entry for the text's length
   * is the answer; otherwise the searched size is the answer and is stored
   * under that length.
   */
  function EfficientSearch(s: WidgetState, paint: Paint, start: int, end: int): (res: (int, map<int, int>))
    requires InDomain(start, end)
    ensures var searched := SearchResult(SizeTesterOf(s, paint), start, end);
      var cached := CacheGet(s.textCachedSizes, Utf16Length(s.text));
      && (res.0 == searched || (s.enableSizeCache && res.0 == cached != 0))
      && (!s.enableSizeCache ==> res.0 == searched && res.1 == s.textCachedSizes)
      && (s.enableSizeCache ==> CacheGet(res.1, Utf16Length(s.text)) == res.0)
      && (s.enableSizeCache && cached != 0 ==> res == (cached, s.textCachedSizes))
      && (forall k :: k != Utf16Length(s.text) ==> CacheGet(res.1, k) == CacheGet(s.textCachedSizes, k))
  {
    var searched := SearchResult(SizeTesterOf(s, paint), start, end);
    if !s.enableSizeCache then (searched, s.textCachedSizes)
    else
      var key := Utf16Length(s.text);
      var size := CacheGet(s.textCachedSizes, key);
      if size != 0 then (size, s.textCachedSizes)
      else (searched, s.textCachedSizes[key := searched])
  }

  /**
   * `adjustTextSize`: skipped before initialisation; otherwise records the
   * width limit, and, when it is positive, sets the available space and
   * applies the size `efficientTextSizeSearch` picks between the truncated
   * minimum and maximum sizes.
   */
  function Adjust(s: WidgetState, paint: Paint, host: HostMetrics): WidgetState
    requires SizesInDomain(s)
  {
    if !s.initialized then s
    else
      var startSize := ToInt(s.minTextSize);
      var heightLimit := HeightLimit(host);
      var s1 := s.(widthLimit := WidthLimit(host));
      if s1.widthLimit <= 0 then s1
      else
        var s2 := s1.(availableSpaceRect := Rect(s1.widthLimit, heightLimit));
        var res := EfficientSearch(s2, paint, startSize, ToInt(s2.maxTextSize));
        s2.(textCachedSizes := res.1, appliedSize := res.0 as real)
  }

  /** The state `Adjust` searches in: width limit and available space taken from the host. */
  function Measured(s: WidgetState, host: HostMetrics): WidgetState
  {
    s.(widthLimit := WidthLimit(host), availableSpaceRect := Rect(WidthLimit(host), HeightLimit(host)))
  }

  /** Before initialisation, adjusting changes nothing at all. */
  lemma AdjustSkipsUninitialized(s: WidgetState, paint: Paint, host: HostMetrics)
    requires SizesInDomain(s) && !s.initialized
    ensures Adjust(s, paint, host) == s
  {
  }

  /**
   * With no positive width, adjusting only records the width limit: no
   * size is applied, the available space and the cache are untouched.
   */
  lemma AdjustSkipsWithoutWidth(s: WidgetState, paint: Paint, host: HostMetrics)
    requires SizesInDomain(s) && s.initialized && WidthLimit(host) <= 0
    ensures Adjust(s, paint, host) == s.(widthLimit := WidthLimit(host))
  {
  }

  /**
   * When adjusting goes ahead, only the width limit, the available space,
   * the cache and the applied size change; the available space is the
   * host's box, and the applied size is what the cached search picks there.
   */
  lemma AdjustApplies(s: WidgetState, paint: Paint, host: HostMetrics)
    requires SizesInDomain(s) && s.initialized && 0 < WidthLimit(host)
    ensures var t := Adjust(s, paint, host);
      var m := Measured(s, host);
      var res := EfficientSearch(m, paint, ToInt(s.minTextSize), ToInt(s.maxTextSize));
      && t.availableSpaceRect == Rect(WidthLimit(host), HeightLimit(host))
      && t == m.(textCachedSizes := res.1, appliedSize := res.0 as real)
  {
  }

  /**
   * Recomputing twice with nothing changed in between gives the same
   * state as recomputing once (and so the same applied size).
   */
  lemma AdjustIdempotent(s: WidgetState, paint: Paint, host: HostMetrics)
    requires SizesInDomain(s)
    ensures SizesInDomain(Adjust(s, paint, host))
    ensures Adjust(Adjust(s, paint, host), paint, host) == Adjust(s, paint, host)
  {
    var t := Adjust(s, paint, host);
    if s.initialized && 0 < WidthLimit(host) {
      var m := Measured(s, host);
      var start, end := ToInt(s.minTextSize), ToInt(s.maxTextSize);
      var res := EfficientSearch(m, paint, start, end);
      assert t == m.(textCachedSizes := res.1, appliedSize := res.0 as real);
      var m' := Measured(t, host);
      assert m' == m.(textCachedSizes := res.1, appliedSize := res.0 as real);
      assert SizeTesterOf(m', paint) == SizeTesterOf(m, paint);
      var res' := EfficientSearch(m', paint, start, end);
      var searched := SearchResult(SizeTesterOf(m, paint), start, end);
      assert SearchResult(SizeTesterOf(m', paint), start, end) == searched;
      if m.enableSizeCache {
        var key := Utf16Length(s.text);
        if CacheGet(m.textCachedSizes, key) == 0 {
          assert res == (searched, m.textCachedSizes[key := searched]);
          if searched == 0 {
            assert m.textCachedSizes[key := searched][key := searched] == m.textCachedSizes[key := searched];
          }
        }
      }
      assert res' == res;
    }
  }

  /**
   * A stored 0 behaves exactly like a missing entry: the lookup treats
   * both as a miss, searches and stores the result.
   */
  lemma StoredZeroIsMiss(s: WidgetState, paint: Paint, start: int, end: int)
    requires InDomain(start, end)
    ensures var key := Utf16Length(s.text);
      var withZero := s.(textCachedSizes := s.textCachedSizes[key := 0]);
      var without := s.(textCachedSizes := s.textCachedSizes - {key});
      && EfficientSearch(withZero, paint, start, end).0 == EfficientSearch(without, paint, start, end).0
      && (s.enableSizeCache
          ==> EfficientSearch(withZero, paint, start, end).1 == EfficientSearch(without, paint, start, end).1)
  {
    var key := Utf16Length(s.text);
    var withZero := s.(textCachedSizes := s.textCachedSizes[key := 0]);
    var without := s.(textCachedSizes := s.textCachedSizes - {key});
    assert SizeTesterOf(withZero, paint) == SizeTesterOf(without, paint);
    assert withZero.textCachedSizes[key := 0] == withZero.textCachedSizes;
    var searched := SearchResult(SizeTesterOf(s, paint), start, end);
    assert withZero.textCachedSizes[key := searched] == without.textCachedSizes[key := searched];
  }

  /**
   * Cache consistency: right after the cache is cleared, the size applied
   * with caching on equals the size applied with caching off.
   */
  lemma ClearedCacheMatchesUncached(s: WidgetState, paint: Paint, host: HostMetrics)
    requires SizesInDomain(s) && s.textCachedSizes == map[]
    ensures Adjust(s, paint, host).appliedSize == Adjust(s.(enableSizeCache := false), paint, host).appliedSize
  {
    if s.initialized && 0 < WidthLimit(host) {
      var m := Measured(s, host);
      assert SizeTesterOf(m, paint) == SizeTesterOf(m.(enableSizeCache := false), paint);
    }
  }

  /**
   * A nonzero cached entry for the text's length is applied as it is,
   * whatever the current bounds, line cap or text: the cache is keyed by
   * length alone.
   */
  lemma CachedEntryWins(s: WidgetState, paint: Paint, host: HostMetrics)
    requires SizesInDomain(s) && s.initialized && 0 < WidthLimit(host)
    requires s.enableSizeCache && CacheGet(s.textCachedSizes, Utf16Length(s.text)) != 0
    ensures Adjust(s, paint, host).appliedSize == CacheGet(s.textCachedSizes, Utf16Length(s.text)) as real
    ensures Adjust(s, paint, host).textCachedSizes == s.textCachedSizes
  {
  }

  /**
   * When the size is searched rather than read from the cache, the
   * applied size is safe: it is one below the minimum or a size at which
   * the text fits the available space (and, in multi-line mode with a
   * cap, takes no more lines than the cap), and the maximum size itself
   * is never chosen.
   */
  lemma SearchedSizeIsSafe(s: WidgetState, paint: Paint, host: HostMetrics)
    requires SizesInDomain(s) && s.initialized && 0 < WidthLimit(host)
    requires !s.enableSizeCache || CacheGet(s.textCachedSizes, Utf16Length(s.text)) == 0
    requires ToInt(s.minTextSize) < ToInt(s.maxTextSize)
    ensures var m := Measured(s, host);
      var size := Adjust(s, paint, host).appliedSize.Floor;
      var lo, hi := ToInt(s.minTextSize), ToInt(s.maxTextSize);
      && Adjust(s, paint, host).appliedSize == size as real
      && lo - 1 <= size < hi
      && (size == lo - 1 || TestSize(TesterConfig(m), paint, size, m.availableSpaceRect) == -1)
      && (size == lo - 1 || SingleLine(TesterConfig(m)) || s.maxLines == NoLineLimit
          || LayoutAt(TesterConfig(m), paint, size).LineCount() <= s.maxLines)
  {
    var m := Measured(s, host);
    var test := SizeTesterOf(m, paint);
    var lo, hi := ToInt(s.minTextSize), ToInt(s.maxTextSize);
    assert NeverZero(test, lo, hi - 1);
    SearchResultIsSafe(test, lo, hi);
  }

  /**
   * Widening the available space (same text, constraints and width limit,
   * more height) never makes the searched size smaller, given a measurer
   * that never shrinks as the size grows.
   */
  lemma TallerSpaceNeverSmaller(s: WidgetState, paint: Paint, short: HostMetrics, tall: HostMetrics)
    requires SizesInDomain(s) && s.initialized
    requires !s.enableSizeCache || CacheGet(s.textCachedSizes, Utf16Length(s.text)) == 0
    requires 0 < WidthLimit(short) == WidthLimit(tall) && HeightLimit(short) <= HeightLimit(tall)
    requires MonotoneMeasurer(TesterConfig(Measured(s, short)), paint)
    ensures Adjust(s, paint, short).appliedSize <= Adjust(s, paint, tall).appliedSize
  {
    var lo, hi := ToInt(s.minTextSize), ToInt(s.maxTextSize);
    if lo < hi {
      var ms, mt := Measured(s, short), Measured(s, tall);
      assert TesterConfig(ms) == TesterConfig(mt);
      var ts, tt := SizeTesterOf(ms, paint), SizeTesterOf(mt, paint);
      MonotoneTester(TesterConfig(ms), paint, ms.availableSpaceRect, lo, hi - 1);
      MonotoneTester(TesterConfig(mt), paint, mt.availableSpaceRect, lo, hi - 1);
      forall size | lo <= size < hi && Fits(ts, size)
        ensures Fits(tt, size)
      {
        WiderSpaceStillFits(TesterConfig(ms), paint, size, ms.availableSpaceRect, mt.availableSpaceRect);
      }
      SearchGrowsWithFit(ts, tt, lo, hi);
    }
  }

  /** The widget. `paint` is the measurement oracle. */
  class AutoResizeEditText {
    const paint: Paint
    var text: string
    var maxTextSize: real
    var minTextSize: real
    var spacingMult: real
    var spacingAdd: real
    var widthLimit: int
    var maxLines: int
    var enableSizeCache: bool
    var initialized: bool
    var availableSpaceRect: Rect
    var textCachedSizes: map<int, int>
    /** The size tester's scratch rectangle. */
    var textRect: Rect
    /** The size last handed to the platform's rendering. */
    var appliedSize: real

    function State(): WidgetState
      reads this
    {
      WidgetState(text, maxTextSize, minTextSize, spacingMult, spacingAdd, widthLimit, maxLines,
                  enableSizeCache, initialized, availableSpaceRect, textCachedSizes, appliedSize)
    }

    ghost predicate Valid()
      reads this
    {
      SizesInDomain(State())
    }

    /**
     * The initialisation block: the minimum is the platform's 12sp in
     * pixels, the maximum the current text size; no line cap; caching on.
     */
    constructor (paint: Paint, text: string, textSize: real, minimalTextSize: real)
      requires InDomain(ToInt(minimalTextSize), ToInt(textSize))
      ensures Valid() && this.paint == paint
      ensures State() == WidgetState(text, textSize, minimalTextSize, 1.0, 0.0, 0, NoLineLimit,
                                     true, true, Rect(0, 0), map[], textSize)
      ensures textRect == Rect(0, 0)
    {
      this.paint := paint;
      this.text := text;
      spacingMult, spacingAdd := 1.0, 0.0;
      widthLimit := 0;
      maxLines := 0;
      enableSizeCache := true;
      availableSpaceRect := Rect(0, 0);
      textCachedSizes := map[];
      textRect := Rect(0, 0);
      appliedSize := textSize;
      minTextSize := minimalTextSize;
      maxTextSize := textSize;
      initialized := false;
      new;
      if maxLines == 0 {
        maxLines := NoLineLimit;
      }
      initialized := true;
    }

    /** `getMaxLines`: the widget's own line cap, the one the tester reads. */
    function GetMaxLines(): (n: int)
      reads this
      ensures n == State().maxLines
    {
      maxLines
    }

    /**
     * `onTestSize`: measures the text at `suggestedSize` into `textRect`
     * and answers -1 when it fits `availableSpace`, 1 when it does not.
     * On the line-count short circuit `textRect` is left as it was.
     */
    method OnTestSize(suggestedSize: int, availableSpace: Rect) returns (r: int)
      modifies this`textRect
      ensures r == TestSize(TesterConfig(old(State())), paint, suggestedSize, availableSpace)
      ensures textRect == if TooManyLines(TesterConfig(old(State())), paint, suggestedSize) then old(textRect)
                          else MeasuredRect(TesterConfig(old(State())), paint, suggestedSize)
    {
      var singleline := GetMaxLines() == 1;
      if singleline {
        textRect := textRect.(bottom := paint.fontSpacing(suggestedSize));
        textRect := textRect.(right := paint.measureText(text, suggestedSize));
      } else {
        var layout := paint.staticLayout(text, suggestedSize, widthLimit, spacingMult, spacingAdd);
        if GetMaxLines() != NoLineLimit && layout.LineCount() > GetMaxLines() {
          return 1;
        }
        textRect := textRect.(bottom := layout.height);
        var maxWidth := -1;
        for i := 0 to layout.LineCount()
          invariant maxWidth == MaxWidth(layout.lineWidths[..i])
        {
          assert layout.lineWidths[..i + 1][..i] == layout.lineWidths[..i];
          if maxWidth < layout.lineWidths[i] {
            maxWidth := layout.lineWidths[i];
          }
        }
        assert layout.lineWidths[..layout.LineCount()] == layout.lineWidths;
        textRect := textRect.(right := maxWidth);
      }
      // offsetTo(0, 0): the rectangle already has its left and top edges at the origin.
      r := if Contains(availableSpace, textRect) then -1 else 1;
    }

    /** `efficientTextSizeSearch`: the cached search, reading and updating the cache in place. */
    method EfficientTextSizeSearch(start: int, end: int) returns (size: int)
      requires InDomain(start, end)
      modifies this`textCachedSizes
      ensures (size, textCachedSizes) == EfficientSearch(old(State()), paint, start, end)
    {
      var sizeTester := SizeTesterOf(State(), paint);
      ghost var probes;
      if !enableSizeCache {
        size, probes := BinarySearch(start, end, sizeTester);
        return;
      }
      var key := Utf16Length(text);
      size := CacheGet(textCachedSizes, key);
      if size != 0 {
        return;
      }
      size, probes := BinarySearch(start, end, sizeTester);
      textCachedSizes := textCachedSizes[key := size];
    }

    /** `adjustTextSize`. */
    method AdjustTextSize(host: HostMetrics)
      requires Valid()
      modifies this
      ensures Valid()
      ensures State() == Adjust(old(State()), paint, host)
    {
      if !initialized {
        return;
      }
      var startSize := ToInt(minTextSize);
      var heightLimit := HeightLimit(host);
      widthLimit := WidthLimit(host);
      if widthLimit <= 0 {
        return;
      }
      availableSpaceRect := Rect(widthLimit, heightLimit);
      var size := EfficientTextSizeSearch(startSize, ToInt(maxTextSize));
      appliedSize := size as real;
    }

    /** `setTextSize(size)`: new maximum, cache cleared, recompute. */
    method SetTextSize(size: real, host: HostMetrics)
      requires Valid() && InDomain(ToInt(minTextSize), ToInt(size))
      modifies this
      ensures Valid()
      ensures State() == Adjust(old(State()).(maxTextSize := size, textCachedSizes := map[]), paint, host)
    {
      maxTextSize := size;
      textCachedSizes := map[];
      AdjustTextSize(host);
    }

    /**
     * `setTextSize(unit, size)`: the maximum becomes `size` in `unit`
     * converted to pixels by `applyDimension`; cache cleared, recompute.
     */
    method SetTextSizeInUnit(unit: int, size: real, applyDimension: (int, real) -> real, host: HostMetrics)
      requires Valid() && InDomain(ToInt(minTextSize), ToInt(applyDimension(unit, size)))
      modifies this
      ensures Valid()
      ensures State() == Adjust(old(State()).(maxTextSize := applyDimension(unit, size), textCachedSizes := map[]),
                                paint, host)
    {
      maxTextSize := applyDimension(unit, size);
      textCachedSizes := map[];
      AdjustTextSize(host);
    }

    /** `setMaxLines`: new line cap, recompute; the cache is kept. */
    method SetMaxLines(maxlines: int, host: HostMetrics)
      requires Valid()
      modifies this
      ensures Valid() && GetMaxLines() == maxlines
      ensures State() == Adjust(old(State()).(maxLines := maxlines), paint, host)
    {
      maxLines := maxlines;
      AdjustTextSize(host);
    }

    /** `setSingleLine()`: line cap 1, recompute; the cache is kept. */
    method SetSingleLine(host: HostMetrics)
      requires Valid()
      modifies this
      ensures Valid() && GetMaxLines() == 1
      ensures State() == Adjust(old(State()).(maxLines := 1), paint, host)
    {
      maxLines := 1;
      AdjustTextSize(host);
    }

    /** `setSingleLine(singleLine)`: line cap 1, or no cap; recompute; the cache is kept. */
    method SetSingleLineEnabled(singleLine: bool, host: HostMetrics)
      requires Valid()
      modifies this
      ensures Valid() && GetMaxLines() == if singleLine then 1 else NoLineLimit
      ensures State() == Adjust(old(State()).(maxLines := if singleLine then 1 else NoLineLimit), paint, host)
    {
      if singleLine {
        maxLines := 1;
      } else {
        maxLines := NoLineLimit;
      }
      AdjustTextSize(host);
    }

    /** `setLines`: the line count becomes the line cap, recompute; the cache is kept. */
    method SetLines(lines: int, host: HostMetrics)
      requires Valid()
      modifies this
      ensures Valid() && GetMaxLines() == lines
      ensures State() == Adjust(old(State()).(maxLines := lines), paint, host)
    {
      maxLines := lines;
      AdjustTextSize(host);
    }

    /** `setLineSpacing`: stores the two values and nothing else. */
    method SetLineSpacing(add: real, mult: real)
      requires Valid()
      modifies this
      ensures Valid()
      ensures State() == old(State()).(spacingMult := mult, spacingAdd := add)
    {
      spacingMult := mult;
      spacingAdd := add;
    }

    /** `setMinTextSize`: new minimum, recompute; the cache is kept. */
    method SetMinTextSize(minTextSize: real, host: HostMetrics)
      requires Valid() && InDomain(ToInt(minTextSize), ToInt(maxTextSize))
      modifies this
      ensures Valid()
      ensures State() == Adjust(old(State()).(minTextSize := minTextSize), paint, host)
    {
      this.minTextSize := minTextSize;
      AdjustTextSize(host);
    }

    /** `setEnableSizeCache`: sets the flag, clears the cache, recompute. */
    method SetEnableSizeCache(enable: bool, host: HostMetrics)
      requires Valid()
      modifies this
      ensures Valid()
      ensures State() == Adjust(old(State()).(enableSizeCache := enable, textCachedSizes := map[]), paint, host)
    {
      enableSizeCache := enable;
      textCachedSizes := map[];
      AdjustTextSize(host);
    }

    /**
     * `onTextChanged`: the platform has replaced the text with `text`;
     * recompute, keeping the cache.
     */
    method OnTextChanged(text: string, start: int, before: int, after: int, host: HostMetrics)
      requires Valid()
      modifies this
      ensures Valid()
      ensures State() == Adjust(old(State()).(text := text), paint, host)
    {
      this.text := text;
      AdjustTextSize(host);
    }

    /**
     * `onSizeChanged`: always clears the cache; recomputes only when the
     * width or the height actually changed.
     */
    method OnSizeChanged(width: int, height: int, oldwidth: int, oldheight: int, host: HostMetrics)
      requires Valid()
      modifies this
      ensures Valid()
      ensures State() == var cleared := old(State()).(textCachedSizes := map[]);
        if width != oldwidth || height != oldheight then Adjust(cleared, paint, host) else cleared
    {
      textCachedSizes := map[];
      if width != oldwidth || height != oldheight {
        AdjustTextSize(host);
      }
    }
  }
}
