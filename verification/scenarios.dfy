/** Runs of the component through several events, as a page using it would drive them, and
    what each run is guaranteed to produce. */
module Scenarios {
  import opened Wrappers
  import opened Viewport
  import opened Window
  import opened Geometry
  import opened BottomDetector
  import opened Controller

  /** A new list reaching a component that has no geometry yet (for instance the first batch of
      data after an empty mount). The `dataList` effect renders one probe row. The `renderList`
      effect that follows measures it against `measured` and `h` and renders the first real
      window from the top. That window is a new list, so the `renderList` effect runs once more;
      the window is not a probe, so this time it evaluates the bottom test against the container
      as laid out with that window (`laidOut`), and `fired` tells whether `onScrollBottom` was
      called. `offSetY` is left where it was. */
  method Bootstrap<T>(c: VirtualScrollList<T>, list: seq<T>, measured: ContainerMetrics, h: Height, laidOut: ContainerMetrics)
    returns (firstWindow: seq<T>, fired: bool)
    requires c.Valid() && c.Phase() != Ready && |list| >= 2
    modifies c
    ensures c.Valid() && c.Phase() == Ready && c.dataList == list
    ensures c.rowNodeHeight == h && c.renderLength == RenderLengthFor(measured.clientHeight, h)
    ensures firstWindow == c.renderList == list[..Min(c.renderLength, |list|)]
    ensures c.offSetY == old(c.offSetY) && c.scrollTopData == old(c.scrollTopData)
    ensures fired == (c.hasOnScrollBottom && IsScrollToBottom(Some(laidOut), c.offset))
    ensures c.bottomFirings == old(c.bottomFirings) + (if fired then 1 else 0)
  {
    var restored := c.OnDataListChanged(list);
    assert c.Phase() == Bootstrapping;
    var measuring := c.OnRenderListChanged(Some(measured), Some(h));
    firstWindow := c.renderList;
    fired := c.OnRenderListChanged(Some(laidOut), Some(h));
  }

  /** Mounting with at least two items, in the order React runs it. On the first commit both
      effects see the first render's values: the `dataList` effect only asks for the probe row,
      while the `renderList` effect still sees the initial empty list, so it evaluates the bottom
      test against the container as first laid out (`first`, no row mounted). The probe row then
      comes in as for any list change without geometry (see `Bootstrap`): it is measured against
      `measured` and `h`, and the first real window gets a bottom test of its own against
      `laidOut`. So `onScrollBottom` is called once for each of the two tests that holds. */
  method Mount<T>(items: seq<T>, offset: Option<int>, hasOnScrollBottom: bool, containerRefAttached: bool,
                  first: ContainerMetrics, measured: ContainerMetrics, h: Height, laidOut: ContainerMetrics)
    returns (c: VirtualScrollList<T>)
    requires |items| >= 2
    ensures fresh(c) && c.Valid() && c.Phase() == Ready
    ensures c.dataList == items && c.offset == offset.GetOr(DefaultOffset)
    ensures c.hasOnScrollBottom == hasOnScrollBottom && c.containerRefAttached == containerRefAttached
    ensures c.rowNodeHeight == h && c.renderLength == RenderLengthFor(measured.clientHeight, h)
    ensures c.renderList == items[..Min(c.renderLength, |items|)] && c.offSetY == 0 && c.scrollTopData == 0
    ensures c.bottomFirings ==
      (if hasOnScrollBottom && IsScrollToBottom(Some(first), c.offset) then 1 else 0) +
      (if hasOnScrollBottom && IsScrollToBottom(Some(laidOut), c.offset) then 1 else 0)
  {
    c := new VirtualScrollList(items, offset, hasOnScrollBottom, containerRefAttached);
    var fired := c.OnRenderListChanged(Some(first), None);
    var firstWindow, windowFired := Bootstrap(c, items, measured, h, laidOut);
  }

  /** Three items under a 200-pixel viewport with 20-pixel rows: the empty first layout and the
      60-pixel first window are both at the bottom, so mounting calls `onScrollBottom` twice. */
  method MountShortList<T>(items: seq<T>) returns (window: seq<T>, firings: nat)
    requires |items| == 3
    ensures window == items && firings == 2
  {
    var c := Mount(items, None, true, false, ContainerMetrics(200, 200, 0), ContainerMetrics(200, 200, 0), 20,
                   ContainerMetrics(200, 200, 0));
    window, firings := c.renderList, c.bottomFirings;
  }

  /** A 200-pixel viewport over 20-pixel rows renders `ceil(200 / 20) + 4 = 14` rows: items
      0 to 13 at offset 0 after mounting, and items 10 to 23 at offset 200 once scrolled to 205. */
  method WindowScenarios<T>(items: seq<T>) returns (windowA: seq<T>, offsetA: nat, windowB: seq<T>, offsetB: nat)
    requires |items| == 100
    ensures windowA == items[0..14] && offsetA == 0
    ensures windowB == items[10..24] && offsetB == 200
  {
    var c := Mount(items, None, true, true, ContainerMetrics(200, 200, 0), ContainerMetrics(200, 200, 0), 20,
                   ContainerMetrics(200, 280, 0));
    windowA, offsetA := c.renderList, c.offSetY;
    c.HandleTableScroll(205);
    windowB, offsetB := c.renderList, c.offSetY;
  }

  /** With the container ref attached, a scroll followed by growth of the list keeps the
      window where the scroll put it: the window starts at the row for the saved position,
      agrees with `offSetY`, extends the window `before` that the scroll rendered, and the saved
      position is written back to the container. When the scroll leaves a single row of a
      longer list, the `renderList` effect that follows it replaces `before` by the window from
      row 0 (see `OneRowWindowRemeasures`); this run does not include that effect. */
  method ScrollThenGrow<T>(c: VirtualScrollList<T>, scrollTop: nat, more: seq<T>)
    returns (before: seq<T>, restoredScrollTop: Option<nat>)
    requires c.Valid() && c.Phase() == Ready && c.containerRefAttached
    modifies c
    ensures c.Valid() && c.Phase() == Ready && c.dataList == old(c.dataList) + more
    ensures c.renderLength == old(c.renderLength) && c.rowNodeHeight == old(c.rowNodeHeight)
    ensures c.renderList == GetRenderList(c.dataList, c.renderLength, Some(StartIndex(scrollTop, c.rowNodeHeight)))
    ensures c.offSetY == StartIndex(scrollTop, c.rowNodeHeight) * c.rowNodeHeight
    ensures before <= c.renderList
    ensures restoredScrollTop == Some(scrollTop)
  {
    c.HandleTableScroll(scrollTop);
    before := c.renderList;
    var grown := c.dataList + more;
    restoredScrollTop := c.OnDataListChanged(grown);
    RenderListGrowth(old(c.dataList), more, c.renderLength, StartIndex(scrollTop, c.rowNodeHeight));
  }

  /** With the container ref never attached, as the component's markup leaves it, the scroll
      position is never saved: growth of the list re-renders the window from row 0 while
      `offSetY` still translates it to the scrolled row, and nothing is written back. */
  method ScrollThenGrowWithoutRef<T>(c: VirtualScrollList<T>, scrollTop: nat, more: seq<T>)
    returns (restoredScrollTop: Option<nat>)
    requires c.Valid() && c.Phase() == Ready && !c.containerRefAttached
    modifies c
    ensures c.Valid() && c.Phase() == Ready && c.dataList == old(c.dataList) + more
    ensures c.renderLength == old(c.renderLength) && c.rowNodeHeight == old(c.rowNodeHeight)
    ensures c.renderList == c.dataList[..Min(c.renderLength, |c.dataList|)]
    ensures c.offSetY == StartIndex(scrollTop, c.rowNodeHeight) * c.rowNodeHeight
    ensures restoredScrollTop == None
  {
    c.HandleTableScroll(scrollTop);
    restoredScrollTop := c.OnDataListChanged(c.dataList + more);
  }

  /** Growth from 50 to 70 items after scrolling to 800 pixels over 20-pixel rows: the window
      starts again at item 0 but is drawn 800 pixels down, where item 40 belongs. */
  method GrowthScenarioAsWritten<T>(items: seq<T>) returns (window: seq<T>, offsetY: nat, restoredScrollTop: Option<nat>)
    requires |items| == 70
    ensures window == items[0..14] && offsetY == 800 && restoredScrollTop == None
  {
    var c := Mount(items[..50], None, true, false, ContainerMetrics(200, 200, 0), ContainerMetrics(200, 200, 0), 20,
                   ContainerMetrics(200, 280, 0));
    restoredScrollTop := ScrollThenGrowWithoutRef(c, 800, items[50..]);
    assert items[..50] + items[50..] == items;
    window, offsetY := c.renderList, c.offSetY;
  }

  /** The same growth with the container ref attached: the window still starts at item 40,
      drawn at 800 pixels, and the scroll position 800 is written back. */
  method GrowthScenario<T>(items: seq<T>) returns (window: seq<T>, offsetY: nat, restoredScrollTop: Option<nat>)
    requires |items| == 70
    ensures window == items[40..54] && offsetY == 800 && restoredScrollTop == Some(800)
  {
    var c := Mount(items[..50], None, true, true, ContainerMetrics(200, 200, 0), ContainerMetrics(200, 200, 0), 20,
                   ContainerMetrics(200, 280, 0));
    var before;
    before, restoredScrollTop := ScrollThenGrow(c, 800, items[50..]);
    assert items[..50] + items[50..] == items;
    window, offsetY := c.renderList, c.offSetY;
  }

  /** While the viewport stays near the bottom, every evaluation of the bottom test calls
      `onScrollBottom` again: two evaluations, two calls. */
  method RepeatedBottomCalls<T>(c: VirtualScrollList<T>, m: ContainerMetrics, rowHeight: Option<Height>)
    returns (first: bool, second: bool)
    requires c.Valid() && !c.ProbeRendered() && c.hasOnScrollBottom
    requires IsScrollToBottom(Some(m), c.offset)
    modifies c
    ensures first && second
    ensures c.bottomFirings == old(c.bottomFirings) + 2
    ensures c.renderList == old(c.renderList)
  {
    first := c.OnRenderListChanged(Some(m), rowHeight);
    second := c.OnRenderListChanged(Some(m), rowHeight);
  }

  /** Mounting with an empty list calls `onScrollBottom` twice for any viewport whose content
      does not overflow it. The first `renderList` effect sees the initial empty list and
      calls it; the `dataList` effect then sets `[].slice(0, 1)`, a new empty list, and the
      `renderList` effect runs again and calls it a second time. This is how an empty page
      asks for its first data, and it asks twice. */
  method MountEmpty(clientHeight: nat) returns (first: bool, second: bool, firings: nat)
    ensures first && second && firings == 2
  {
    var c := new VirtualScrollList<int>([], None, true, false);
    var m := ContainerMetrics(clientHeight, clientHeight, 0);
    ShortContentIsAtBottom(m, c.offset);
    first := c.OnRenderListChanged(Some(m), None);
    var restored := c.OnDataListChanged([]);
    second := c.OnRenderListChanged(Some(m), None);
    firings := c.bottomFirings;
  }

  /** A scroll that leaves exactly one row in the window of a longer list passes the probe
      test of the `renderList` effect: the geometry is measured again and the window jumps
      back to the first rows while `offSetY` stays at the scrolled row. */
  method OneRowWindowRemeasures<T>(c: VirtualScrollList<T>, scrollTop: nat, m: ContainerMetrics, h: Height)
    returns (fired: bool)
    requires c.Valid() && c.Phase() == Ready && |c.dataList| >= 2
    requires StartIndex(scrollTop, c.rowNodeHeight) == |c.dataList| - 1
    modifies c
    ensures !fired && c.Valid() && c.Phase() == Ready && c.rowNodeHeight == h
    ensures c.renderList == c.dataList[..Min(c.renderLength, |c.dataList|)]
    ensures c.offSetY == (|c.dataList| - 1) * old(c.rowNodeHeight)
  {
    c.HandleTableScroll(scrollTop);
    assert c.ProbeRendered();
    fired := c.OnRenderListChanged(Some(m), Some(h));
  }
}
