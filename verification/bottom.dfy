/** Whether the viewport has been scrolled to within a threshold of the end of its content. */
module BottomDetector {
  import opened Wrappers
  import opened Viewport

  /** Pixels of content still below the viewport's bottom edge. */
  function OffsetBottom(m: ContainerMetrics): int {
    m.scrollHeight - m.scrollTop - m.clientHeight
  }

  /** `getIsScrollToBottom(offset)`: true exactly when the container is mounted and the end of
      its content lies no more than `offset` pixels below the viewport's bottom edge (lying
      exactly `offset` below counts). */
  function IsScrollToBottom(container: Option<ContainerMetrics>, offset: int): (b: bool)
    ensures b <==> (container.Some? &&
                    container.value.scrollHeight <= container.value.scrollTop + container.value.clientHeight + offset)
  {
    match container
    case None => false
    case Some(m) => OffsetBottom(m) <= offset
  }

  /** Scrolling further down, or widening the threshold, never leaves the bottom. */
  lemma BottomIsMonotone(m: ContainerMetrics, m': ContainerMetrics, offset: int, offset': int)
    requires m'.clientHeight == m.clientHeight && m'.scrollHeight == m.scrollHeight
    requires m.scrollTop <= m'.scrollTop && offset <= offset'
    requires IsScrollToBottom(Some(m), offset)
    ensures IsScrollToBottom(Some(m'), offset')
  {
  }

  /** Content no taller than the viewport is always at the bottom for a non-negative threshold:
      an empty list asks for more data as soon as it is mounted. */
  lemma ShortContentIsAtBottom(m: ContainerMetrics, offset: int)
    requires m.scrollHeight <= m.clientHeight && 0 <= offset
    ensures IsScrollToBottom(Some(m), offset)
  {
  }
}
