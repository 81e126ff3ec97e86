/** How many rows one render holds: enough to fill the viewport, plus a fixed margin. */
module Geometry {
  import opened Wrappers
  import opened Viewport
  import opened Window

  /** Extra rows rendered beyond the viewport's capacity, to hide rendering lag while scrolling. */
  const Redundancy: nat := 4

  /** `Math.ceil(a / b)` on whole numbers: the least multiple of `b` that is not below `a`. */
  function CeilDiv(a: nat, b: Height): (q: nat)
    ensures a <= q * b < a + b
  {
    var q := (a + b - 1) / b;
    assert q * b <= a + b - 1 < (q + 1) * b;
    assert q * b + b == (q + 1) * b;
    q
  }

  /** `Math.ceil(clientHeight / rowHeight) + redundancy`: the rows needed to cover a viewport of
      `clientHeight` pixels, fewest first, and then `Redundancy` more. */
  function RenderLengthFor(clientHeight: nat, rowHeight: Height): (n: nat)
    ensures n >= Redundancy
    ensures clientHeight <= (n - Redundancy) * rowHeight < clientHeight + rowHeight
  {
    CeilDiv(clientHeight, rowHeight) + Redundancy
  }

  /** The value `getRenderLength` returns: zero unless both the container and a row are
      mounted, and otherwise the render length for the container's height and the row's. */
  function MeasuredRenderLength(container: Option<ContainerMetrics>, rowHeight: Option<Height>): (n: nat)
    ensures n == 0 <==> container.None? || rowHeight.None?
    ensures n != 0 ==> n >= Redundancy && n == RenderLengthFor(container.value.clientHeight, rowHeight.value)
  {
    if container.Some? && rowHeight.Some? then
      RenderLengthFor(container.value.clientHeight, rowHeight.value)
    else
      0
  }

  /** A window of `RenderLengthFor(clientHeight, h)` rows starting at the start index for
      `scrollTop` reaches past the bottom edge of the viewport by more than
      `Redundancy - 1` whole rows, wherever the viewport stands. */
  lemma WindowCoversViewport(scrollTop: nat, clientHeight: nat, h: Height)
    ensures scrollTop + clientHeight + (Redundancy - 1) * h
          < (StartIndex(scrollTop, h) + RenderLengthFor(clientHeight, h)) * h
  {
    var i, n := StartIndex(scrollTop, h), RenderLengthFor(clientHeight, h);
    var c := n - Redundancy;
    assert scrollTop < i * h + h;
    assert clientHeight <= c * h;
    calc {
      (i + n) * h;
    ==
      i * h + c * h + Redundancy * h;
    >
      scrollTop - h + clientHeight + Redundancy * h;
    }
  }
}
