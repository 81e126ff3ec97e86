/** Which rows to render: the slice of the data list and the pixel offset of that slice. */
module Window {
  import opened Wrappers
  import opened Viewport

  /** How `Array.prototype.slice` reads one of its arguments for a list of length `n`:
      a negative index counts back from the end; the result is clamped to `[0, n]`. */
  function RelativeIndex(i: int, n: nat): (k: nat)
    ensures k <= n
  {
    if i < 0 then Max(n + i, 0) else Min(i, n)
  }

  /** `list.slice(begin, end)`: a contiguous run of `list`, empty when `end` does not lie
      beyond `begin` once both are clamped. */
  function JsSlice<T>(list: seq<T>, begin: int, end: int): (r: seq<T>)
    ensures RelativeIndex(begin, |list|) + |r| <= |list|
    ensures |r| == Max(0, RelativeIndex(end, |list|) - RelativeIndex(begin, |list|))
    ensures forall k :: 0 <= k < |r| ==> r[k] == list[RelativeIndex(begin, |list|) + k]
  {
    var lo, hi := RelativeIndex(begin, |list|), RelativeIndex(end, |list|);
    if hi <= lo then [] else list[lo..hi]
  }

  /** `start || 0`: an omitted start reads as 0. */
  function StartOrZero(start: Option<int>): int {
    start.GetOr(0)
  }

  /** `getRenderList(list, renderLength, start)`: at most `renderLength` items of `list`
      beginning at `start` (or 0). For non-negative arguments this is exactly the in-range part
      of `list[start .. start + renderLength)`, so no index outside `list` is ever read. */
  function GetRenderList<T>(list: seq<T>, renderLength: int, start: Option<int>): (r: seq<T>)
    ensures 0 <= StartOrZero(start) && 0 <= renderLength ==>
      |r| == Max(0, Min(renderLength, |list| - StartOrZero(start))) &&
      r == list[Min(StartOrZero(start), |list|)..Min(StartOrZero(start) + renderLength, |list|)]
    ensures start.None? && 0 <= renderLength ==> r == list[..Min(renderLength, |list|)]
  {
    var s := StartOrZero(start);
    JsSlice(list, s, s + renderLength)
  }

  /** The rows a window of `count` rows from `start` shows, one row at a time: row `start`
      when the list has it, followed by the window of `count - 1` rows from `start + 1`. */
  function RowsFrom<T>(list: seq<T>, start: nat, count: nat): seq<T>
    decreases count
  {
    if count == 0 || |list| <= start then [] else [list[start]] + RowsFrom(list, start + 1, count - 1)
  }

  /** `getRenderList` with a non-negative start and length renders exactly the rows that
      `RowsFrom` lists. */
  lemma {:induction false} GetRenderListIsRowsFrom<T>(list: seq<T>, renderLength: nat, start: nat)
    ensures GetRenderList(list, renderLength, Some(start)) == RowsFrom(list, start, renderLength)
  {
    if renderLength == 0 || |list| <= start {
    } else {
      GetRenderListIsRowsFrom(list, renderLength - 1, start + 1);
      var rest := GetRenderList(list, renderLength - 1, Some(start + 1));
      assert GetRenderList(list, renderLength, Some(start)) == [list[start]] + rest;
    }
  }

  /** Appending items to the list never changes the rows already chosen for a window: the old
      window is a prefix of the new one, and equal to it when it was already full. */
  lemma RenderListGrowth<T>(list: seq<T>, more: seq<T>, renderLength: nat, start: nat)
    ensures GetRenderList(list, renderLength, Some(start))
         <= GetRenderList(list + more, renderLength, Some(start))
    ensures start + renderLength <= |list| ==>
      GetRenderList(list, renderLength, Some(start)) == GetRenderList(list + more, renderLength, Some(start))
  {
    var grown := list + more;
    var w, w' := GetRenderList(list, renderLength, Some(start)), GetRenderList(grown, renderLength, Some(start));
    assert |w| <= |w'|;
    forall k | 0 <= k < |w| ensures w[k] == w'[k] {
      assert w[k] == list[start + k] && w'[k] == grown[start + k];
    }
  }

  /** `Math.floor(scrollTop / h)`: the index of the row under the top edge of the viewport. */
  function StartIndex(scrollTop: nat, h: Height): (i: nat)
    ensures i * h <= scrollTop < (i + 1) * h
  {
    scrollTop / h
  }

  /** `scrollTop - scrollTop % h` (for `scrollTop >= 0` JavaScript's remainder and the
      Euclidean one agree): the top of the first rendered row, so that the translated block
      puts every rendered row at its true position. */
  function OffsetY(scrollTop: nat, h: Height): (y: nat)
    ensures y == StartIndex(scrollTop, h) * h
    ensures y <= scrollTop < y + h
  {
    scrollTop - scrollTop % h
  }

  /** Two scroll positions within the same row render the same window at the same offset;
      a scroll position further down never starts the window higher up. */
  lemma StartIndexMonotone(a: nat, b: nat, h: Height)
    requires a <= b
    ensures StartIndex(a, h) <= StartIndex(b, h)
    ensures OffsetY(a, h) <= OffsetY(b, h)
  {
    var i, j := StartIndex(a, h), StartIndex(b, h);
    assert i * h < (j + 1) * h;
    var d := j + 1 - i;
    assert d * h == (j + 1) * h - i * h;
    assert 0 < d;
  }
}
