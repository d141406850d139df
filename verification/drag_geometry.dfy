/** The geometry of drag-controller.js: the hit test that picks the row
    closest to the mouse, and the auto-scroll speed near the edges of the
    scrolling view. Client coordinates are whole pixels; a row's midpoint
    `top + height / 2` is compared doubled so that it stays an integer. */
module DragGeometry {

  /** A row's bounding box, vertically. */
  datatype Rect = Rect(top: int, height: nat)

  /** The container's bounding box. */
  datatype Box = Box(left: int, top: int, right: int, bottom: int)

  function Bottom(r: Rect): int { r.top + r.height }

  /** Twice the row's vertical midpoint. */
  function Mid2(r: Rect): int { 2 * r.top + r.height }

  /** Twice `Math.abs(y - midY)`. */
  function Dist2(y: int, r: Rect): nat
  {
    if 2 * y >= Mid2(r) then 2 * y - Mid2(r) else Mid2(r) - 2 * y
  }

  /** The loop skips a row with `rect.bottom < 0 || rect.top > window.innerHeight`. */
  predicate OnScreen(r: Rect, viewportHeight: int)
  {
    !(Bottom(r) < 0 || r.top > viewportHeight)
  }

  /** The mouse is outside `[left, right + 20] x [top, bottom]`: a drop there is refused. */
  predicate Outside(x: int, y: int, b: Box)
  {
    x < b.left || x > b.right + 20 || y < b.top || y > b.bottom
  }

  /** Row `k` is on screen, no on-screen row is nearer to `y`, and no earlier
      on-screen row is as near. */
  predicate IsClosest(y: int, rows: seq<Rect>, viewportHeight: int, k: int)
  {
    0 <= k < |rows| && OnScreen(rows[k], viewportHeight) &&
    forall j :: 0 <= j < |rows| && OnScreen(rows[j], viewportHeight) ==>
      Dist2(y, rows[k]) <= Dist2(y, rows[j]) && (j < k ==> Dist2(y, rows[k]) < Dist2(y, rows[j]))
  }

  predicate AnyOnScreen(rows: seq<Rect>, viewportHeight: int)
  {
    exists j :: 0 <= j < |rows| && OnScreen(rows[j], viewportHeight)
  }

  /** The `for` loop of `checkDropTarget`: the on-screen row nearest the
      mouse by its midpoint, the first one winning a tie, and whether the
      mouse is below that midpoint. */
  method FindClosest(y: int, rows: seq<Rect>, viewportHeight: int) returns (found: bool, k: int, after: bool)
    ensures found <==> AnyOnScreen(rows, viewportHeight)
    ensures found ==> IsClosest(y, rows, viewportHeight, k)
    ensures found ==> (after <==> 2 * y > Mid2(rows[k]))
  {
    found, k, after := false, -1, false;
    var minDist: nat := 0;
    for i := 0 to |rows|
      invariant found <==> exists j :: 0 <= j < i && OnScreen(rows[j], viewportHeight)
      invariant found ==> 0 <= k < i && OnScreen(rows[k], viewportHeight) && minDist == Dist2(y, rows[k])
      invariant found ==> forall j :: 0 <= j < i && OnScreen(rows[j], viewportHeight) ==>
        minDist <= Dist2(y, rows[j]) && (j < k ==> minDist < Dist2(y, rows[j]))
      invariant found ==> (after <==> 2 * y > Mid2(rows[k]))
    {
      if !OnScreen(rows[i], viewportHeight) {
        continue;
      }
      var dist := Dist2(y, rows[i]);
      if !found || dist < minDist {
        found, minDist, k := true, dist, i;
        after := 2 * y > Mid2(rows[i]);
      }
    }
  }

  /** Width of the edge zones, in pixels (`scrollZoneSize`). */
  const ScrollZone: int := 50

  /** Fastest scroll, in pixels per frame (`maxScrollSpeed`). */
  const MaxScrollSpeed: real := 15.0

  /** `updateDrag`'s speed for mouse height `y` in a view spanning `top..bottom`:
      negative (up) within the top zone, which is checked first, positive (down)
      within the bottom zone, zero elsewhere, scaling linearly with how far into
      the zone the mouse is. */
  function AutoScrollSpeed(y: int, top: int, bottom: int): (speed: real)
    ensures -MaxScrollSpeed <= speed <= MaxScrollSpeed
    ensures y - top < ScrollZone ==> speed <= 0.0
    ensures y - top >= ScrollZone && bottom - y < ScrollZone ==> speed >= 0.0
    ensures y - top >= ScrollZone && bottom - y >= ScrollZone ==> speed == 0.0
    ensures y - top <= 0 ==> speed == -MaxScrollSpeed
    ensures y - top >= ScrollZone && bottom - y <= 0 ==> speed == MaxScrollSpeed
  {
    var distTop := y - top;
    var distBottom := bottom - y;
    if distTop < ScrollZone then
      -MaxScrollSpeed * (1.0 - (if distTop > 0 then distTop else 0) as real / ScrollZone as real)
    else if distBottom < ScrollZone then
      MaxScrollSpeed * (1.0 - (if distBottom > 0 then distBottom else 0) as real / ScrollZone as real)
    else 0.0
  }

  /** Closer to the top edge never scrolls up more slowly. */
  lemma ScrollUpGrowsTowardEdge(y1: int, y2: int, top: int, bottom: int)
    requires y1 <= y2 && y2 - top < ScrollZone
    ensures AutoScrollSpeed(y1, top, bottom) <= AutoScrollSpeed(y2, top, bottom)
  {
    var d1 := if y1 - top > 0 then y1 - top else 0;
    var d2 := if y2 - top > 0 then y2 - top else 0;
    assert d1 <= d2;
    assert d1 as real / 50.0 <= d2 as real / 50.0;
  }

  /** Closer to the bottom edge never scrolls down more slowly. */
  lemma ScrollDownGrowsTowardEdge(y1: int, y2: int, top: int, bottom: int)
    requires y1 <= y2 && y1 - top >= ScrollZone && bottom - y1 < ScrollZone
    ensures AutoScrollSpeed(y1, top, bottom) <= AutoScrollSpeed(y2, top, bottom)
  {
    var d1 := if bottom - y1 > 0 then bottom - y1 else 0;
    var d2 := if bottom - y2 > 0 then bottom - y2 else 0;
    assert d2 <= d1;
    assert d2 as real / 50.0 <= d1 as real / 50.0;
  }
}
