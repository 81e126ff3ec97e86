/** The `VirtualScrollList` component as a state machine: its props, its two pieces of React
    state, its three refs, and one method per event that changes them. DOM reads become
    parameters; calls to `onScrollBottom` are counted. */
module Controller {
  import opened Wrappers
  import opened Viewport
  import opened Window
  import opened Geometry
  import opened BottomDetector

  /** The near-bottom threshold used when the `offset` prop is omitted. */
  const DefaultOffset: int := 50

  /** Where the component is in its lifecycle. */
  datatype Phase =
    | Uninitialized   // no geometry, and no probe row waiting to be measured
    | Bootstrapping   // one probe row rendered, geometry not yet measured
    | Ready           // render length and row height known

  class VirtualScrollList<T> {
    // Props.
    var dataList: seq<T>
    const offset: int
    const hasOnScrollBottom: bool
    /** Whether `containerRef.current` holds the container element. */
    const containerRefAttached: bool

    // State: the rows rendered and the translation of the rendered block.
    var renderList: seq<T>
    var offSetY: nat

    // Refs: the saved scroll position, the measured render length and row height.
    var scrollTopData: nat
    var renderLength: nat
    var rowNodeHeight: nat

    /** How many times `onScrollBottom` has been called. */
    var bottomFirings: nat

    /** Index in `dataList` of the first rendered row. */
    ghost var windowStart: nat

    /** The rendered rows are a contiguous run of the data list, no longer than the render
        length (or the one probe row); a known render length comes with a known row height;
        the saved scroll position is only ever written through the container ref. */
    ghost predicate Valid()
      reads this
    {
      && windowStart + |renderList| <= |dataList|
      && renderList == dataList[windowStart..windowStart + |renderList|]
      && |renderList| <= Max(renderLength, 1)
      && (renderLength != 0 ==> renderLength >= Redundancy && rowNodeHeight != 0)
      && (!containerRefAttached ==> scrollTopData == 0)
    }

    /** The test at the head of the `renderList` effect: one row rendered, and the list is
        longer than that. */
    predicate ProbeRendered()
      reads this
    {
      |renderList| == 1 && |renderList| != |dataList|
    }

    function Phase(): Phase
      reads this
    {
      if renderLength != 0 && rowNodeHeight != 0 then Ready
      else if ProbeRendered() then Bootstrapping
      else Uninitialized
    }

    /** The first render: empty state, zeroed refs, `offset` defaulting to 50. */
    constructor (dataList: seq<T>, offset: Option<int>, hasOnScrollBottom: bool, containerRefAttached: bool)
      ensures Valid() && Phase() == Uninitialized
      ensures this.dataList == dataList && this.offset == offset.GetOr(DefaultOffset)
      ensures this.hasOnScrollBottom == hasOnScrollBottom && this.containerRefAttached == containerRefAttached
      ensures renderList == [] && offSetY == 0
      ensures scrollTopData == 0 && renderLength == 0 && rowNodeHeight == 0 && bottomFirings == 0
    {
      this.dataList := dataList;
      this.offset := offset.GetOr(DefaultOffset);
      this.hasOnScrollBottom := hasOnScrollBottom;
      this.containerRefAttached := containerRefAttached;
      renderList, offSetY := [], 0;
      scrollTopData, renderLength, rowNodeHeight := 0, 0, 0;
      bottomFirings := 0;
      windowStart := 0;
    }

    /** `getRenderLength`: measures the row height into its ref when both nodes are mounted,
        and returns the render length for the measured geometry (0 when a node is missing). */
    method GetRenderLength(container: Option<ContainerMetrics>, rowHeight: Option<Height>) returns (n: nat)
      modifies this`rowNodeHeight
      ensures n == MeasuredRenderLength(container, rowHeight)
      ensures rowNodeHeight == if container.Some? && rowHeight.Some? then rowHeight.value else old(rowNodeHeight)
    {
      if container.Some? && rowHeight.Some? {
        rowNodeHeight := rowHeight.value;
        var h: Height := rowHeight.value;
        n := CeilDiv(container.value.clientHeight, h) + Redundancy;
      } else {
        n := 0;
      }
    }

    /** `handleTableScroll`: a scroll event at `scrollTop` renders the window starting at the
        row under the viewport's top edge, translated to that row's true position, and saves
        the scroll position when the container ref is attached. Geometry is left alone. */
    method HandleTableScroll(scrollTop: nat)
      requires Valid() && rowNodeHeight != 0
      modifies this`scrollTopData, this`offSetY, this`renderList, this`windowStart
      ensures Valid()
      ensures scrollTopData == if containerRefAttached then scrollTop else old(scrollTopData)
      ensures offSetY == StartIndex(scrollTop, rowNodeHeight) * rowNodeHeight
      ensures offSetY <= scrollTop < offSetY + rowNodeHeight
      ensures renderList == GetRenderList(dataList, renderLength, Some(StartIndex(scrollTop, rowNodeHeight)))
      ensures StartIndex(scrollTop, rowNodeHeight) <= |dataList| ==> windowStart == StartIndex(scrollTop, rowNodeHeight)
    {
      var h: Height := rowNodeHeight;
      var newOffSetY := OffsetY(scrollTop, h);
      var offsetItemNumber := StartIndex(scrollTop, h);
      if containerRefAttached {
        scrollTopData := scrollTop;
      }
      var list := GetRenderList(dataList, renderLength, Some(offsetItemNumber));
      offSetY := newOffSetY;
      renderList := list;
      windowStart := Min(offsetItemNumber, |dataList|);
    }

    /** The effect on `dataList`: with geometry known, render the window at the saved scroll
        position in the new list and write that position back to the container (when the ref
        is attached), the write being returned; without geometry, render one probe row.
        `offSetY` and the geometry refs are not touched. */
    method OnDataListChanged(newDataList: seq<T>) returns (restoredScrollTop: Option<nat>)
      requires Valid()
      modifies this`dataList, this`renderList, this`windowStart
      ensures Valid() && dataList == newDataList
      ensures old(Phase()) == Ready ==>
        && Phase() == Ready
        && renderList == GetRenderList(newDataList, renderLength, Some(StartIndex(scrollTopData, rowNodeHeight)))
        && restoredScrollTop == (if containerRefAttached then Some(scrollTopData) else None)
      ensures old(Phase()) != Ready ==>
        && renderList == newDataList[..Min(1, |newDataList|)]
        && restoredScrollTop == None
        && (Phase() == Bootstrapping <==> |newDataList| >= 2)
    {
      dataList := newDataList;
      if renderLength != 0 && rowNodeHeight != 0 {
        var h: Height := rowNodeHeight;
        var offsetItemNumber := StartIndex(scrollTopData, h);
        renderList := GetRenderList(dataList, renderLength, Some(offsetItemNumber));
        windowStart := Min(offsetItemNumber, |dataList|);
        if containerRefAttached {
          restoredScrollTop := Some(scrollTopData);
        } else {
          restoredScrollTop := None;
        }
      } else {
        renderList := JsSlice(dataList, 0, 1);
        windowStart := 0;
        restoredScrollTop := None;
      }
    }

    /** The effect on `renderList`. After a probe row, measure the geometry and render the
        window from the top; the window rendered right after measuring is never itself a
        probe. Otherwise evaluate the bottom test and call `onScrollBottom` whenever it
        holds, with no memory of earlier calls. */
    method OnRenderListChanged(container: Option<ContainerMetrics>, rowHeight: Option<Height>) returns (fired: bool)
      requires Valid()
      modifies this`renderLength, this`rowNodeHeight, this`renderList, this`windowStart, this`bottomFirings
      ensures Valid()
      ensures old(ProbeRendered()) ==>
        && renderLength == MeasuredRenderLength(container, rowHeight)
        && rowNodeHeight == (if container.Some? && rowHeight.Some? then rowHeight.value else old(rowNodeHeight))
        && renderList == dataList[..Min(renderLength, |dataList|)]
        && !ProbeRendered()
        && (container.Some? && rowHeight.Some? ==> Phase() == Ready)
        && !fired && bottomFirings == old(bottomFirings)
      ensures !old(ProbeRendered()) ==>
        && fired == (hasOnScrollBottom && IsScrollToBottom(container, offset))
        && bottomFirings == old(bottomFirings) + (if fired then 1 else 0)
        && renderLength == old(renderLength) && rowNodeHeight == old(rowNodeHeight)
        && renderList == old(renderList)
    {
      if |renderList| == 1 && |renderList| != |dataList| {
        var n := GetRenderLength(container, rowHeight);
        renderLength := n;
        renderList := GetRenderList(dataList, renderLength, None);
        windowStart := 0;
        fired := false;
      } else {
        var isScrollToBottom := IsScrollToBottom(container, offset);
        fired := isScrollToBottom && hasOnScrollBottom;
        if fired {
          bottomFirings := bottomFirings + 1;
        }
      }
    }
  }
}
