/** The zoom controller and the viewport breakpoints of the document viewer:
    the fixed table of zoom percentages, the index it is seeded with from the
    window width, the clamped zoom-in / zoom-out updates, and the predicates
    that disable the two zoom buttons. */
module Zoom {

  /** The supported zoom levels, in percent, in ascending order. */
  const ZoomSteps: seq<int> := [10, 20, 25, 33, 50, 67, 75, 80, 90, 100, 110, 125, 150, 175, 200, 250, 300, 400, 500]

  /** The index of the largest zoom level. */
  const LastZoomIndex: int := |ZoomSteps| - 1

  /** The width, in CSS pixels, below which the layout is compact ("mobile"). */
  const CompactBreakpoint: int := 768

  predicate ValidZoomIndex(i: int) {
    0 <= i < |ZoomSteps|
  }

  /** JavaScript's Math.min and Math.max on integers. */
  function Min(a: int, b: int): int { if a <= b then a else b }
  function Max(a: int, b: int): int { if a >= b then a else b }


  /** The zoom index chosen from the window width when the viewer is mounted or opened or closed. */
  function SeedIndex(width: int): (i: int)
    ensures ValidZoomIndex(i)
    ensures width < CompactBreakpoint <==> i == 1
    ensures width >= CompactBreakpoint ==> 3 <= i <= 5
  {
    if width >= 1920 then 5
    else if width >= 1024 then 4
    else if width >= CompactBreakpoint then 3
    else 1
  }

  /** The viewport classifier: compact ("mobile") exactly when the window is
      narrower than the breakpoint, which is exactly when the seed is index 1
      (20%), and wide exactly when the seed is one of the indices 3 to 5. */
  function IsCompact(width: int): (compact: bool)
    ensures compact <==> SeedIndex(width) == 1
    ensures !compact <==> 3 <= SeedIndex(width) <= 5
  {
    width < CompactBreakpoint
  }

  /** The percentage the viewer is seeded with, read from the table. */
  lemma SeedPercent(width: int)
    ensures ZoomSteps[SeedIndex(width)] ==
      if width >= 1920 then 67
      else if width >= 1024 then 50
      else if width >= 768 then 33
      else 20
  {
  }

  /** A wider window never seeds a smaller zoom level. */
  lemma SeedMonotone(narrow: int, wide: int)
    requires narrow <= wide
    ensures SeedIndex(narrow) <= SeedIndex(wide)
    ensures ZoomSteps[SeedIndex(narrow)] <= ZoomSteps[SeedIndex(wide)]
  {
  }

  /** The zoom-in update: Math.min(prevIndex + 1, zoomSteps.length - 1). */
  function ZoomedIn(i: int): (j: int)
    requires ValidZoomIndex(i)
    ensures ValidZoomIndex(j)
    ensures i == LastZoomIndex ==> j == i
    ensures i < LastZoomIndex ==> j == i + 1
  {
    Min(i + 1, |ZoomSteps| - 1)
  }

  /** The zoom-out update: Math.max(prevIndex - 1, 0). */
  function ZoomedOut(i: int): (j: int)
    requires ValidZoomIndex(i)
    ensures ValidZoomIndex(j)
    ensures i == 0 ==> j == i
    ensures 0 < i ==> j == i - 1
  {
    Max(i - 1, 0)
  }

  /** The zoom-in button is disabled at the last index. */
  predicate ZoomInDisabled(i: int) {
    i == |ZoomSteps| - 1
  }

  /** The zoom-out button is disabled at the first index. */
  predicate ZoomOutDisabled(i: int) {
    i == 0
  }

  /** The zoom-in button is disabled exactly where zooming in would change nothing. */
  lemma ZoomInDisabledIffNoOp(i: int)
    requires ValidZoomIndex(i)
    ensures ZoomInDisabled(i) <==> ZoomedIn(i) == i
  {
  }

  /** The zoom-out button is disabled exactly where zooming out would change nothing. */
  lemma ZoomOutDisabledIffNoOp(i: int)
    requires ValidZoomIndex(i)
    ensures ZoomOutDisabled(i) <==> ZoomedOut(i) == i
  {
  }

  /** Zooming out undoes a zoom-in that was not clamped. */
  lemma ZoomOutUndoesZoomIn(i: int)
    requires ValidZoomIndex(i) && i < LastZoomIndex
    ensures ZoomedOut(ZoomedIn(i)) == i
  {
  }

  /** Zooming in undoes a zoom-out that was not clamped. */
  lemma ZoomInUndoesZoomOut(i: int)
    requires ValidZoomIndex(i) && 0 < i
    ensures ZoomedIn(ZoomedOut(i)) == i
  {
  }

  predicate StrictlyAscending(s: seq<int>) {
    forall i, j :: 0 <= i < j < |s| ==> s[i] < s[j]
  }

  /** The zoom table is strictly ascending. */
  lemma ZoomStepsStrictlyAscending()
    ensures StrictlyAscending(ZoomSteps)
  {
  }

  /** Zooming in never lowers the displayed percentage, and raises it unless clamped. */
  lemma ZoomInNeverLowersScale(i: int)
    requires ValidZoomIndex(i)
    ensures ZoomSteps[i] <= ZoomSteps[ZoomedIn(i)]
    ensures i < LastZoomIndex ==> ZoomSteps[i] < ZoomSteps[ZoomedIn(i)]
  {
  }

  /** Zooming out never raises the displayed percentage, and lowers it unless clamped. */
  lemma ZoomOutNeverRaisesScale(i: int)
    requires ValidZoomIndex(i)
    ensures ZoomSteps[ZoomedOut(i)] <= ZoomSteps[i]
    ensures 0 < i ==> ZoomSteps[ZoomedOut(i)] < ZoomSteps[i]
  {
  }

  /** The index after pressing zoom-in n times in a row. */
  function ZoomedInTimes(i: int, n: nat): (j: int)
    requires ValidZoomIndex(i)
    ensures ValidZoomIndex(j)
    decreases n
  {
    if n == 0 then i else ZoomedInTimes(ZoomedIn(i), n - 1)
  }

  /** The index after pressing zoom-out n times in a row. */
  function ZoomedOutTimes(i: int, n: nat): (j: int)
    requires ValidZoomIndex(i)
    ensures ValidZoomIndex(j)
    decreases n
  {
    if n == 0 then i else ZoomedOutTimes(ZoomedOut(i), n - 1)
  }

  /** Repeated zoom-in saturates at the last index: n presses reach min(i + n, last). */
  lemma {:induction false} RepeatedZoomIn(i: int, n: nat)
    requires ValidZoomIndex(i)
    ensures ZoomedInTimes(i, n) == Min(i + n, LastZoomIndex)
    decreases n
  {
    if n > 0 {
      RepeatedZoomIn(ZoomedIn(i), n - 1);
    }
  }

  /** Repeated zoom-out saturates at index 0: n presses reach max(i - n, 0). */
  lemma {:induction false} RepeatedZoomOut(i: int, n: nat)
    requires ValidZoomIndex(i)
    ensures ZoomedOutTimes(i, n) == Max(i - n, 0)
    decreases n
  {
    if n > 0 {
      RepeatedZoomOut(ZoomedOut(i), n - 1);
    }
  }
}
