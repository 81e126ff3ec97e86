/** Quantities read from the rendering environment. All pixel values are whole numbers. */
module Viewport {

  /** The measured height of one row; the component assumes every row has this height. */
  type Height = h: nat | h > 0 witness 1

  /** What the component reads from the `.virtual_scroll_container` element. */
  datatype ContainerMetrics = ContainerMetrics(clientHeight: nat, scrollHeight: nat, scrollTop: nat)

  function Min(a: int, b: int): int {
    if a <= b then a else b
  }

  function Max(a: int, b: int): int {
    if a <= b then b else a
  }
}
