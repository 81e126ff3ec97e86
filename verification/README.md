# Virtual scroll list — windowing engine in Dafny

This project models the windowing engine of the `VirtualScrollList` React component. The
component renders only the rows of a long, uniform-height list that the viewport can show.

- From the scroll position it picks the first row, `floor(scrollTop / rowHeight)`.
- It slices at most `renderLength = ceil(viewportHeight / rowHeight) + 4` items from that row.
- It translates the rendered block down by that row's pixel offset.
- It calls `onScrollBottom` whenever the viewport ends within `offset` pixels of the content's end.

Before the row height is known, it renders a single probe row, measures it and then renders the first real window.

The model has two layers:

- **Pure arithmetic** (`window.dfy`, `geometry.dfy`, `bottom.dfy`):
  - `Array.prototype.slice` on integers, and `getRenderList` built on it;
  - the start row and the pixel offset;
  - `Math.ceil` and the render length;
  - the near-bottom predicate.

  All pixel quantities are whole numbers. A measured row height has the positive type `Height`.
- **The controller** (`controller.dfy`): the class `VirtualScrollList`. Its fields are:
  - the props `dataList`, `offset` and whether `onScrollBottom` is given;
  - the state `renderList` and `offSetY`;
  - the refs `scrollTopData`, `renderLength` and `rowNodeHeight`;
  - a count of `onScrollBottom` calls.

  It has one method per event: `HandleTableScroll`, `OnDataListChanged` (the `dataList` effect) and `OnRenderListChanged` (the `renderList` effect). `GetRenderLength` is the measuring closure. DOM reads become parameters:
  - `ContainerMetrics` for the container, `None` when it is not mounted;
  - `Option<Height>` for the row.

  The write of the saved scroll position back to the container is returned as an out-parameter of `OnDataListChanged`. The object invariant `Valid()` says three things:
  - the rendered rows are a contiguous run of the list, no longer than the render length or the one probe row;
  - a known render length comes with a known row height;
  - the saved position is only written through the container ref.

  `Phase()` names the lifecycle: `Uninitialized`, `Bootstrapping` or `Ready`.
- **Runs** (`scenarios.dfy`): client methods drive the class through several events and state what comes out. They cover mounting and measuring, scrolling, growth of the list, repeated bottom calls, mounting empty, and a one-row window.

A mount is modelled in five steps: the constructor, `OnRenderListChanged`, `OnDataListChanged` with the initial list, `OnRenderListChanged`, and `OnRenderListChanged` again. On the first commit React runs both effects with the first render's values. The `dataList` effect only schedules the probe row, so the first `renderList` effect still sees the initial empty list and runs the bottom test. The effect runs again once the probe row is rendered and measures it. Because `slice` returns a new list, the first real window triggers the effect a third time, and that run performs the bottom test. An empty mount has no probe row: `[].slice(0, 1)` is a new empty list, so the effect runs twice and both runs perform the bottom test. Either way, a list that fits in the viewport calls `onScrollBottom` twice on mount.

Where the code and the usual description of the component differ, the model follows the code:
- The saved scroll position is written only when `containerRef.current` is set. The component never attaches that ref (see Findings).
- A list of exactly one item never leaves the probe state: the probe row is then the whole list, so the probe test fails and geometry is not measured until the list grows.
- The start row is not clamped to the list. A start past the end gives an empty window, and `offSetY` still points at the unclamped row.
- A one-row window in the ready state also passes the probe test. The geometry is then measured again and the window restarts at row 0.

## Model

| member | source | states |
|---|---|---|
| Window.JsSlice | src/components/virtual-scroll-list/index.tsx:13 | `slice` returns the run of the list between the clamped start and end indices, element by element. It has length `max(0, hi - lo)` and never reads past the end. |
| Window.GetRenderList | src/components/virtual-scroll-list/index.tsx:7-14 | For non-negative start `s` and length `r`, the result is exactly `list[min(s,n) .. min(s+r,n))`, of length `max(0, min(r, n - s))`. A start past the end gives `[]`. An omitted start gives the first `r` items. |
| Window.GetRenderListIsRowsFrom | src/components/virtual-scroll-list/index.tsx:11-13 | For non-negative start and length, the render list equals the independent row-by-row definition `RowsFrom`: row `start`, then `start + 1`, and so on while the list has them, up to `renderLength` rows. |
| Window.RenderListGrowth | src/components/virtual-scroll-list/index.tsx:96-105 | Appending items never changes the rows already chosen for a window. The old window is a prefix of the new one, and equal to it when it was already full. |
| Window.StartIndex | src/components/virtual-scroll-list/index.tsx:76-78 | The start row `i` is the row under the viewport's top edge: `i*h <= scrollTop < (i+1)*h`. |
| Window.OffsetY | src/components/virtual-scroll-list/index.tsx:75 | `scrollTop - scrollTop % h` equals `StartIndex * h` and satisfies `offSetY <= scrollTop < offSetY + h`. |
| Window.StartIndexMonotone | src/components/virtual-scroll-list/index.tsx:75-78 | Scrolling further down never moves the start row or the offset up. |
| Geometry.CeilDiv | src/components/virtual-scroll-list/index.tsx:66 | `Math.ceil(a / b)` is the least `q` with `a <= q*b`, that is `a <= q*b < a+b`. |
| Geometry.RenderLengthFor | src/components/virtual-scroll-list/index.tsx:65-68 | The render length is at least 4. The rows it holds beyond the redundancy of 4 cover the viewport, and one row fewer would not. |
| Geometry.MeasuredRenderLength | src/components/virtual-scroll-list/index.tsx:56-71 | The result is 0 exactly when the container or the row is missing. Otherwise it is `ceil(clientHeight/h) + 4`, at least 4. |
| Geometry.WindowCoversViewport | src/components/virtual-scroll-list/index.tsx:4 | Rows `[start, start + renderLength)` reach more than 3 whole rows below the viewport's bottom edge, wherever the viewport stands. |
| BottomDetector.IsScrollToBottom | src/components/virtual-scroll-list/index.tsx:25-37 | True iff the container is mounted and `scrollHeight <= scrollTop + clientHeight + offset`. Exact equality counts. False without a container. |
| BottomDetector.BottomIsMonotone | src/components/virtual-scroll-list/index.tsx:30-34 | Scrolling further down or widening the threshold never leaves the bottom. |
| BottomDetector.ShortContentIsAtBottom | src/components/virtual-scroll-list/index.tsx:30-34 | Content no taller than the viewport is at the bottom for any non-negative threshold. |
| Controller.VirtualScrollList.constructor | src/components/virtual-scroll-list/index.tsx:39-53 | Initial state: empty render list, offset 0, refs 0 and `offset` defaulting to 50. The invariant holds and the phase is `Uninitialized`. |
| Controller.VirtualScrollList.GetRenderLength | src/components/virtual-scroll-list/index.tsx:56-71 | Returns the measured render length. `rowNodeHeight` becomes the row's height when both nodes exist and is otherwise unchanged. Nothing else changes. |
| Controller.VirtualScrollList.HandleTableScroll | src/components/virtual-scroll-list/index.tsx:73-94 | The render list becomes the slice at `floor(scrollTop/h)` of length `renderLength`, and `offSetY = start*h` is aligned. `scrollTopData` records `scrollTop` only when the container ref is set. The invariant is kept; geometry and the list are unchanged. |
| Controller.VirtualScrollList.OnDataListChanged | src/components/virtual-scroll-list/index.tsx:96-114 | With geometry known, the window is at `floor(scrollTopData/h)` in the new list, and the saved position is written back when the ref is set. Without geometry, it is `newList.slice(0, 1)` with no write, entering `Bootstrapping` iff the list has at least 2 items. `offSetY` and geometry are untouched. |
| Controller.VirtualScrollList.OnRenderListChanged | src/components/virtual-scroll-list/index.tsx:116-128 | After a probe row: geometry is measured, the window from row 0 is rendered and the result is never a probe again. With both nodes the phase becomes `Ready`. Otherwise `onScrollBottom` fires exactly when the bottom test holds and the callback exists; the count grows by one per firing and nothing else changes. |
| Scenarios.Bootstrap | src/components/virtual-scroll-list/index.tsx:96-128 | A list change that reaches a controller without geometry (such as the first batch of data after an empty mount) renders the probe row, measures it, and renders the first window `list[..min(renderLength, n)]`; with at least 2 items it reaches `Ready`. The effect that runs on that window performs the bottom test. `onScrollBottom` is called exactly when that test holds and the callback exists, and `offSetY` is unchanged. |
| Scenarios.Mount | src/components/virtual-scroll-list/index.tsx:39-128 | Mounting with at least 2 items, in React's order, reaches `Ready` with the first window from row 0 at offset 0. The bottom test runs twice: once on the first, empty layout before the probe, and once on the first real window. The call count is the number of those tests that hold (0, 1 or 2). |
| Scenarios.MountShortList | src/components/virtual-scroll-list/index.tsx:116-127 | Three items under a 200 px viewport with 20 px rows: the window is all three items, and mounting calls `onScrollBottom` twice. |
| Scenarios.WindowScenarios | src/components/virtual-scroll-list/index.tsx:73-94 | With a 200 px viewport and 20 px rows over 100 items: items 0..13 at offset 0 after mounting, and items 10..23 at offset 200 after scrolling to 205. |
| Scenarios.ScrollThenGrow | src/components/virtual-scroll-list/index.tsx:73-114 | With the ref attached, growth after a scroll keeps the window at the scrolled row, in agreement with `offSetY`. It extends the window that the scroll rendered, and the scroll position is written back. The `renderList` effect in between is not run; it would replace a one-row window. |
| Scenarios.ScrollThenGrowWithoutRef | src/components/virtual-scroll-list/index.tsx:79-81 | Without the ref, growth after a scroll re-renders from row 0 while `offSetY` stays at the scrolled row, and nothing is written back. |
| Scenarios.GrowthScenarioAsWritten | src/components/virtual-scroll-list/index.tsx:96-109 | Growth from 50 to 70 items after scrolling to 800 px over 20 px rows, without the ref: the window is items 0..13, drawn at 800 px. |
| Scenarios.GrowthScenario | src/components/virtual-scroll-list/index.tsx:107-109 | The same run with the ref attached: the window is items 40..53 at 800 px, and 800 is written back. |
| Scenarios.RepeatedBottomCalls | src/components/virtual-scroll-list/index.tsx:121-127 | Two evaluations near the bottom make two `onScrollBottom` calls; there is no deduplication. |
| Scenarios.MountEmpty | src/components/virtual-scroll-list/index.tsx:110-127 | Mounting with an empty list calls `onScrollBottom` twice, for any viewport that its content does not overflow: once on the initial empty list, and again after `[].slice(0, 1)` renders a new empty list. |
| Scenarios.OneRowWindowRemeasures | src/components/virtual-scroll-list/index.tsx:116-120 | A scroll that leaves one row of a longer list triggers re-measuring. The window restarts at row 0 while `offSetY` stays at the last row. |

## Findings

| source | as written | input that shows it | evidently intended | confidence | as-written member | corrected member |
|---|---|---|---|---|---|---|
| src/components/virtual-scroll-list/index.tsx:131-134 | `containerRef` (line 50) is never passed as `ref` to the container element, so `containerRef.current` is never set. The scroll position is then never saved (lines 79-81) or written back (lines 107-109). | 20 px rows, 200 px viewport, 50 items; scroll to 800; the list grows to 70. The window becomes items 0..13 drawn at 800 px, where items 40..53 belong. | The container carries `ref={containerRef}`, so growth re-renders items 40..53 at 800 px and restores `scrollTop = 800`. | high; not executed | Scenarios.GrowthScenarioAsWritten | Scenarios.ScrollThenGrow |

`containerRefAttached` is a constructor parameter of the class. `false` is the markup as written and `true` is the corrected markup. Every method is proved for both values.

## Left out

- `src/App.tsx`, the demo page: random test data, a timer standing in for loading, and logging. `renderItem`, the JSX, the `translateY` style string and the CSS are left out too.
- Props other than `dataList` are fixed at construction: `offset` and whether `onScrollBottom` is given. In the source each effect reads the latest render's props, so a change of `offset` or of the callback between renders is not modelled.
- The `onScroll` passthrough at index.tsx:91-93 has no logic and is not modelled.
- DOM access is not modelled:
  - `document.querySelector` results and element heights are parameters;
  - the `scrollTop` write at index.tsx:108 is the out-parameter of `OnDataListChanged`;
  - the browser's own scroll state is not modelled.
- React scheduling is not modelled. The caller invokes the three events explicitly, and asynchronous batching of state updates and re-renders is not represented.
- Fractional pixel values are not modelled, and neither is a negative `scrollTop` (elastic overscroll). All pixel quantities are whole and non-negative, so JavaScript's `%` and Dafny's `%` agree.
- `slice` arguments that are `NaN`, infinite or fractional are not modelled. `start || 0` is modelled for an omitted start only.
- A row height of zero is not modelled: the source divides by it unguarded, which yields `NaN` or `Infinity`. A measured row height has the positive type `Height`.
- Controller.VirtualScrollList.HandleTableScroll: requires `rowNodeHeight != 0`. A scroll before the row height is known divides by zero in the source and is not modelled.
- Window.GetRenderList: its contract describes the result for a non-negative start and length only. That covers every call the component makes. Negative arguments are described only through `Window.JsSlice`.
