# AutoResizeEditText: the text-size fitting engine

`AutoResizeEditText` is an Android `EditText` that shrinks its text so that
it fits the box it is laid out in. Inside it sits a small engine:

- a **size tester** (`onTestSize`): measures the text at a candidate size,
  on one line when the line cap is 1 and broken into lines otherwise. It
  answers -1 when the measured box lies inside the available box and 1 when
  it does not. In multi-line mode it answers 1 at once when the layout has
  more lines than the cap.
- a **binary search** (`binarySearch`) over the whole-pixel sizes
  `[min, max - 1]`, driven by that tester;
- a **size cache** (`efficientTextSizeSearch`) from text length (Kotlin's
  `length`, in UTF-16 code units) to chosen size, in which 0 means "no entry";
- the **widget state**: the setters and platform callbacks that store size
  bounds, line cap, line spacing and the cache flag. Some of them clear the
  cache, and most recompute the size (`adjustTextSize`). The recompute
  takes the available box from the measured size minus the paddings, and
  hands the chosen size to the platform.

The Dafny model has three modules, one per part of that engine:

- `size_search.dfy` (`SizeSearch`): the search as an imperative method,
  `BinarySearch`. It is proved equal to a recursive reading of its loop,
  `SearchResult`. What that result means is proved in lemmas: it always
  lands on a fit/no-fit boundary, and with a monotone tester it is the
  largest fitting size. That size is defined independently by a downward
  scan, `LargestFitting`.
- `size_tester.dfy` (`SizeTester`): the fit test as a function,
  `TestSize`. Text measurement is an oracle (`Paint`) holding three
  functions: font spacing, one-line width and multi-line layout. The
  module also has `RectF.contains` on boxes anchored at the origin, and the
  widest-line fold `MaxWidth`.
- `auto_resize_edit_text.dfy` (`AutoResize`): the widget as a class
  `AutoResizeEditText` with the source's fields and one method per setter
  and callback. The imperative `onTestSize` writes the tester's scratch
  rectangle `textRect`. Every state-changing method states its new state
  through `State()` (a `WidgetState` snapshot) and the pure transition
  `Adjust`, which the module's lemmas are about.

Sizes are Kotlin `Float`s that the engine truncates with `toInt()`; the
model keeps the stored sizes as `real` and truncates with `ToInt`. That
function rounds toward zero and saturates at the `Int` bounds. The
measurement oracle answers in whole pixels.

## Behaviour of the code that the model keeps

These are properties of the code as written. A plain reading of "pick the
largest size between the minimum and the maximum" would expect something
different.

- The maximum size is never tried. The search runs over
  `[min, max - 1]` (`hi = end - 1`). See `SizeSearch.EndSizeNeverTested`.
- When even the minimum does not fit, the search returns `min - 1`, not
  `min`. See `SizeSearch.NothingFitsGivesStartMinusOne`.
- An empty range (`max <= min`) returns `min`, and the tester is not
  called. See `SizeSearch.EmptyRangeGivesStart` and `SizeSearch.BinarySearch`.
- The `lastBest = lo` step on a fit looks wrong, but the result is still the
  boundary. The last iteration always leaves `lastBest == hi == lo - 1`
  (`SizeSearch.SearchOutcome`). So with a monotone tester the result is
  exactly the largest fitting size (`SizeSearch.SearchFindsLargestFitting`).
- Only `setTextSize` (both overloads), `setEnableSizeCache` and every
  `onSizeChanged` clear the cache. `setMinTextSize`, `setMaxLines`,
  `setLines`, `setSingleLine` and `onTextChanged` recompute but keep it. A
  cached size for the text's length is then applied unchanged, even if it
  lies outside the new bounds (`AutoResize.CachedEntryWins`).
- `onSizeChanged` clears the cache even when it does not recompute.
- `adjustTextSize` writes `_widthLimit` before it returns early on a
  non-positive width.
- `setLineSpacing` stores the two values and does not recompute.

## Model

| member | source | states |
|---|---|---|
| `SizeSearch.UShr1` | app/src/main/java/com/example/kieun/biometricprompt/AutoResizeEditText.kt:242 | `(lo + hi).ushr(1)` on the 32-bit value: always in `[0, Int.MAX_VALUE]`, and equal to `(lo + hi) / 2` whenever the sum is in `[0, 2^32)` |
| `SizeSearch.BinarySearch` | app/src/main/java/com/example/kieun/biometricprompt/AutoResizeEditText.kt:233-256 | the loop returns exactly `SearchResult`; an empty range returns `start` with no call to the tester; otherwise the result is in `[start - 1, end - 1]`; every size passed to the tester is in `[start, end - 1]`; every probe but the last was answered nonzero, and a last probe answered 0 is the result (the loop stops at the first exact match) |
| `SizeSearch.Wrap32` | app/src/main/java/com/example/kieun/biometricprompt/AutoResizeEditText.kt:242 | Kotlin `Int` addition's wrap-around: the result is an `Int`, a sum already in range is unchanged, and a sum just above `Int.MAX_VALUE` loses 2^32 |
| `SizeSearch.MidpointOfWrappedSum` | app/src/main/java/com/example/kieun/biometricprompt/AutoResizeEditText.kt:242 | for sizes `0 <= lo <= hi`, `ushr(1)` of the wrapped `lo + hi` is the true midpoint and lies in `[lo, hi]` |
| `SizeSearch.LargestFitting` | app/src/main/java/com/example/kieun/biometricprompt/AutoResizeEditText.kt:237-255 | reference answer: a size in `[start - 1, hi]` that is `start - 1` or fits, with no fitting size above it |
| `SizeSearch.SearchOutcome` | app/src/main/java/com/example/kieun/biometricprompt/AutoResizeEditText.kt:237-255 | for any tester, the search over `[lo, hi]` returns a size in the range that the tester answers 0, or a boundary: `lo - 1` or a fitting size, just below `hi + 1` or a size the tester rejected |
| `SizeSearch.SearchReadsOnlyRange` | app/src/main/java/com/example/kieun/biometricprompt/AutoResizeEditText.kt:241-251 | the search's result depends only on the tester's answers on `[lo, hi]` |
| `SizeSearch.EndSizeNeverTested` | app/src/main/java/com/example/kieun/biometricprompt/AutoResizeEditText.kt:237-243 | testers that agree on `[start, end - 1]` give the same result, whatever they answer at `end` |
| `SizeSearch.EmptyRangeGivesStart` | app/src/main/java/com/example/kieun/biometricprompt/AutoResizeEditText.kt:237-241 | when `end <= start` the result is `start` |
| `SizeSearch.NothingFitsGivesStartMinusOne` | app/src/main/java/com/example/kieun/biometricprompt/AutoResizeEditText.kt:247-255 | when no size of a non-empty range fits, the result is `start - 1` |
| `SizeSearch.SearchResultIsSafe` | app/src/main/java/com/example/kieun/biometricprompt/AutoResizeEditText.kt:241-255 | with a tester that never answers 0: the result is `start - 1` or fits, and the size above it is `end` or does not fit |
| `SizeSearch.SearchFindsLargestFitting` | app/src/main/java/com/example/kieun/biometricprompt/AutoResizeEditText.kt:237-255 | with a monotone tester that never answers 0, the search returns the largest fitting size of `[start, end - 1]`, or `start - 1` |
| `SizeSearch.LargestFittingGrows` | app/src/main/java/com/example/kieun/biometricprompt/AutoResizeEditText.kt:241-255 | a tester that accepts more sizes has a largest fitting size at least as large |
| `SizeSearch.SearchGrowsWithFit` | app/src/main/java/com/example/kieun/biometricprompt/AutoResizeEditText.kt:241-255 | for monotone testers that never answer 0, accepting more sizes never makes the search result smaller |
| `SizeTester.MaxWidth` | app/src/main/java/com/example/kieun/biometricprompt/AutoResizeEditText.kt:88-92 | the widest-line fold starting from -1 is the maximum of -1 and all line widths: at least -1, no line wider, and either -1 or some line's width |
| `SizeTester.TestSize` | app/src/main/java/com/example/kieun/biometricprompt/AutoResizeEditText.kt:66-97 | the tester answers -1 or 1, never 0 |
| `SizeTester.FitsIff` | app/src/main/java/com/example/kieun/biometricprompt/AutoResizeEditText.kt:72-95 | a size fits if and only if the line cap holds (single-line mode, no cap, or line count within the cap) and the measured box lies inside a non-empty available box, width and height each |
| `SizeTester.TooManyLinesRejects` | app/src/main/java/com/example/kieun/biometricprompt/AutoResizeEditText.kt:85-86 | in multi-line mode with a cap the layout exceeds, the answer is 1 for every available box |
| `SizeTester.SingleLineIgnoresLayout` | app/src/main/java/com/example/kieun/biometricprompt/AutoResizeEditText.kt:72-75 | with line cap 1 the answer depends only on font spacing and one-line width |
| `SizeTester.MultiLineIgnoresFontMetrics` | app/src/main/java/com/example/kieun/biometricprompt/AutoResizeEditText.kt:76-92 | with any other line cap the answer depends only on the multi-line layout |
| `SizeTester.WiderSpaceStillFits` | app/src/main/java/com/example/kieun/biometricprompt/AutoResizeEditText.kt:94-95 | a size that fits a box also fits any box at least as wide and as tall |
| `SizeTester.MonotoneTester` | app/src/main/java/com/example/kieun/biometricprompt/AutoResizeEditText.kt:66-97 | a measurer that never shrinks as the size grows makes the tester monotone (every size below a fitting one fits), and it never answers 0 |
| `AutoResize.ToInt` | app/src/main/java/com/example/kieun/biometricprompt/AutoResizeEditText.kt:184 | `Float.toInt()`: `Int.MAX_VALUE` at or above it, `Int.MIN_VALUE` at or below it, and the whole part of the value (toward zero) between them |
| `AutoResize.Utf16Length` | app/src/main/java/com/example/kieun/biometricprompt/AutoResizeEditText.kt:224 | Kotlin `String.length`: between the number of characters and twice that, and equal to it exactly when no character lies above U+FFFF |
| `AutoResize.Utf16LengthAppend` | app/src/main/java/com/example/kieun/biometricprompt/AutoResizeEditText.kt:224 | the length of a concatenation is the sum of the lengths |
| `AutoResize.EfficientSearch` | app/src/main/java/com/example/kieun/biometricprompt/AutoResizeEditText.kt:217-231 | the result is the plain search result or a nonzero cached entry keyed by the text's UTF-16 length; with caching off it is the search result and the cache is untouched; with caching on, a nonzero entry for the length is returned as it is and the cache is untouched, and otherwise the entry for the length is the result afterwards; other lengths' entries never change |
| `AutoResize.AdjustSkipsUninitialized` | app/src/main/java/com/example/kieun/biometricprompt/AutoResizeEditText.kt:182-183 | before initialisation a recompute changes nothing |
| `AutoResize.AdjustSkipsWithoutWidth` | app/src/main/java/com/example/kieun/biometricprompt/AutoResizeEditText.kt:187-190 | with a non-positive width limit, only the width limit is recorded: no size applied, cache and available space untouched |
| `AutoResize.AdjustApplies` | app/src/main/java/com/example/kieun/biometricprompt/AutoResizeEditText.kt:184-199 | otherwise the available box becomes (width limit, height limit) and the applied size and cache are those of the cached search over `[toInt(min), toInt(max))`; no other field of the widget's state changes |
| `AutoResize.AdjustIdempotent` | app/src/main/java/com/example/kieun/biometricprompt/AutoResizeEditText.kt:181-231 | recomputing twice with nothing changed in between leaves the same state, and so the same size, as recomputing once |
| `AutoResize.StoredZeroIsMiss` | app/src/main/java/com/example/kieun/biometricprompt/AutoResizeEditText.kt:225-229 | a stored 0 for the text's length gives the same size as a missing entry, and with caching on the same cache afterwards |
| `AutoResize.ClearedCacheMatchesUncached` | app/src/main/java/com/example/kieun/biometricprompt/AutoResizeEditText.kt:221-230 | with an empty cache, the size applied with caching on equals the size applied with caching off |
| `AutoResize.CachedEntryWins` | app/src/main/java/com/example/kieun/biometricprompt/AutoResizeEditText.kt:224-227 | a nonzero entry for the text's length is applied as it is and the cache is unchanged, whatever the bounds and line cap |
| `AutoResize.SearchedSizeIsSafe` | app/src/main/java/com/example/kieun/biometricprompt/AutoResizeEditText.kt:193-199 | a searched (not cached) size is in `[min - 1, max - 1]`; it is `min - 1` or the text fits the available box at it, and in capped multi-line mode it uses no more lines than the cap |
| `AutoResize.TallerSpaceNeverSmaller` | app/src/main/java/com/example/kieun/biometricprompt/AutoResizeEditText.kt:185-199 | with a measurer that never shrinks as the size grows, more height (same width) never gives a smaller searched size |
| `AutoResize.AutoResizeEditText.constructor` | app/src/main/java/com/example/kieun/biometricprompt/AutoResizeEditText.kt:51-100 | the initialisation block: minimum 12sp in pixels, maximum the current text size, no line cap (0 becomes `NO_LINE_LIMIT`), caching on, initialised, empty cache and empty scratch rectangle |
| `AutoResize.AutoResizeEditText.GetMaxLines` | app/src/main/java/com/example/kieun/biometricprompt/AutoResizeEditText.kt:121-123 | the line cap is the widget's own stored cap |
| `AutoResize.AutoResizeEditText.OnTestSize` | app/src/main/java/com/example/kieun/biometricprompt/AutoResizeEditText.kt:66-97 | the imperative tester, with its widest-line loop, answers exactly `TestSize`; it leaves the measured box in `textRect`, or leaves `textRect` alone on the line-count short circuit |
| `AutoResize.AutoResizeEditText.EfficientTextSizeSearch` | app/src/main/java/com/example/kieun/biometricprompt/AutoResizeEditText.kt:217-231 | reads and updates the cache in place exactly as `EfficientSearch` describes |
| `AutoResize.AutoResizeEditText.AdjustTextSize` | app/src/main/java/com/example/kieun/biometricprompt/AutoResizeEditText.kt:181-200 | the new state is `Adjust` of the old one |
| `AutoResize.AutoResizeEditText.SetTextSize` | app/src/main/java/com/example/kieun/biometricprompt/AutoResizeEditText.kt:109-113 | stores the new maximum, clears the cache, recomputes |
| `AutoResize.AutoResizeEditText.SetTextSizeInUnit` | app/src/main/java/com/example/kieun/biometricprompt/AutoResizeEditText.kt:146-159 | stores the converted maximum, clears the cache, recomputes |
| `AutoResize.AutoResizeEditText.SetMaxLines` | app/src/main/java/com/example/kieun/biometricprompt/AutoResizeEditText.kt:115-119 | stores the line cap, recomputes, keeps the cache |
| `AutoResize.AutoResizeEditText.SetSingleLine` | app/src/main/java/com/example/kieun/biometricprompt/AutoResizeEditText.kt:125-129 | line cap 1, recomputes, keeps the cache |
| `AutoResize.AutoResizeEditText.SetSingleLineEnabled` | app/src/main/java/com/example/kieun/biometricprompt/AutoResizeEditText.kt:131-138 | line cap 1 or `NO_LINE_LIMIT`, recomputes, keeps the cache |
| `AutoResize.AutoResizeEditText.SetLines` | app/src/main/java/com/example/kieun/biometricprompt/AutoResizeEditText.kt:140-144 | the line count becomes the cap, recomputes, keeps the cache |
| `AutoResize.AutoResizeEditText.SetLineSpacing` | app/src/main/java/com/example/kieun/biometricprompt/AutoResizeEditText.kt:161-165 | stores multiplier and addend, and changes nothing else |
| `AutoResize.AutoResizeEditText.SetMinTextSize` | app/src/main/java/com/example/kieun/biometricprompt/AutoResizeEditText.kt:172-175 | stores the new minimum, recomputes, keeps the cache |
| `AutoResize.AutoResizeEditText.SetEnableSizeCache` | app/src/main/java/com/example/kieun/biometricprompt/AutoResizeEditText.kt:211-215 | stores the flag, clears the cache, recomputes |
| `AutoResize.AutoResizeEditText.OnTextChanged` | app/src/main/java/com/example/kieun/biometricprompt/AutoResizeEditText.kt:258-264 | takes the new text, recomputes, keeps the cache |
| `AutoResize.AutoResizeEditText.OnSizeChanged` | app/src/main/java/com/example/kieun/biometricprompt/AutoResizeEditText.kt:266-274 | always clears the cache; recomputes only when the width or the height changed |

## Left out

- `SizeSearch.BinarySearch`: modelled only for a start size in `[0, Int.MAX_VALUE]` and an end size above `Int.MIN_VALUE`. Within that domain `end - 1`, `mid + 1` and `mid - 1` never wrap around. Only `lo + hi` can, when both are large, and `ushr(1)` of the wrapped sum is still the true midpoint (`SizeSearch.MidpointOfWrappedSum`). `UShr1` takes that midpoint. Outside the domain, `(lo + hi).ushr(1)` of a negative sum lands far above the range, and `end - 1` or `mid + 1` can wrap. With `start = Int.MAX_VALUE`, `end = Int.MIN_VALUE` and a tester that accepts `Int.MAX_VALUE`, the loop never ends. `UShr1` itself is modelled on all inputs.
- `AutoResize.AutoResizeEditText.SetMinTextSize`: requires the truncated new minimum to be non-negative, the search domain above.
- `AutoResize.AutoResizeEditText.SetTextSize`: requires the truncated new maximum to be above `Int.MIN_VALUE`, the search domain above.
- `AutoResize.AutoResizeEditText.SetTextSizeInUnit`: the same requirement on the converted maximum. `TypedValue.applyDimension` (unit conversion with the display metrics) is a function parameter.
- `AutoResize.AutoResizeEditText.constructor`: requires the initial sizes to be in the search domain. Platform construction is not modelled: the attribute set, the `EditText` super-constructor, and the setters it may call before `_initiallized` is set. In the model the widget is initialised when the constructor returns. The 12sp minimum in pixels is a constructor parameter.
- Text measurement (`TextPaint.fontSpacing`, `measureText`, `StaticLayout`, `getLineWidth`) is platform code. It is the `Paint` oracle, which answers in whole pixels. For whole-pixel answers the model's comparisons are the source's Float comparisons. Fractional widths and heights are not modelled.
- `RectF.contains` is platform code. It is modelled as Android documents it: the outer box must be non-empty, and the inner box must lie within it. Both boxes are anchored at the origin (`offsetTo(0f, 0f)`, and the available box's left and top are never set).
- `setTypeface` and the creation of `paint`: the oracle is fixed for the widget's lifetime. The null `paint!!` failure is not modelled.
- `AutoResize.AutoResizeEditText.AdjustTextSize`: the search consults the pure tester `TestSize`, not the method `OnTestSize`. So the model does not say what the tester's scratch rectangle `textRect` holds after a recompute. In the source it is the box measured at the last probe that passed the line-count check. `textRect` is not part of `WidgetState`, and every recomputing member leaves it unspecified. Nothing outside `onTestSize` reads it.
- `AutoResize.ToInt`: stored sizes are exact `real`s. Float rounding of sizes and spacing, and `NaN` (which `toInt()` turns into 0), are not represented.
- `reAdjust` only calls `adjustTextSize`. The setters call `AdjustTextSize` directly.
- The `super.*` calls to `EditText` and the `Log.d` calls are not modelled. `Log.d` has no effect, but some platform setters call back into the overridden ones. `setSingleLine()` calls `setSingleLine(true)`; `setSingleLine(b)` calls `setLines(1)` or `setMaxLines(Int.MAX_VALUE)`; a text reset fires `onTextChanged`. Each such call recomputes once more. Each override calls `super` before it stores its own cap, so these extra recomputes can run under the previous cap or `Int.MAX_VALUE`. The model's setters do only their own final recompute. When nothing changed between two recomputes, the repeat is harmless (`AutoResize.AdjustIdempotent`). With caching on, though, an extra recompute under another cap can store an entry that the final recompute then applies (`AutoResize.CachedEntryWins`). That sequence is not modelled. The platform's own text buffer is the `text` field, which `OnTextChanged` sets from its argument.
- `measuredWidth`, `measuredHeight` and the compound paddings are platform state. They are a `HostMetrics` parameter of every member that recomputes. The Kotlin `Int` overflow of their differences is not modelled.
- Rendering: the size handed to `super.setTextSize(COMPLEX_UNIT_PX, …)` is the field `appliedSize` and nothing more.
- `SizeSearch.SearchFindsLargestFitting` and `AutoResize.TallerSpaceNeverSmaller` assume a measurer that never shrinks as the size grows. The source relies on this without stating it. `TallerSpaceNeverSmaller` keeps the width limit fixed, because the width limit is also the layout's line-breaking width and the oracle says nothing about how a wider layout measures.
- Nothing in the engine is concurrent; all calls run to completion one after another.
