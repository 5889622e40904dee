/**
  The display table. The operating system reports each active monitor as a
  rectangle `(left, top, right, bottom)` in absolute screen coordinates; the
  table keyed by the monitor's position in that report holds its origin and
  its size.
*/
module Displays {
  datatype Rect = Rect(left: int, top: int, right: int, bottom: int)

  datatype Bounds = Bounds(left: int, top: int, width: int, height: int)

  /** `table` has exactly the keys `0 .. |rects| - 1`, each describing that rectangle. */
  ghost predicate IsMonitorTable(rects: seq<Rect>, table: map<int, Bounds>) {
    (forall k :: k in table <==> 0 <= k < |rects|) &&
    forall k :: 0 <= k < |rects| ==>
      k in table &&
      table[k].left == rects[k].left && table[k].top == rects[k].top &&
      table[k].width == rects[k].right - rects[k].left &&
      table[k].height == rects[k].bottom - rects[k].top
  }

  /** Fills the monitor table one enumerated rectangle at a time. */
  method BuildMonitorMap(rects: seq<Rect>) returns (table: map<int, Bounds>)
    ensures IsMonitorTable(rects, table)
  {
    table := map[];
    var i := 0;
    while i < |rects|
      invariant 0 <= i <= |rects|
      invariant IsMonitorTable(rects[..i], table)
    {
      var r := rects[i];
      table := table[i := Bounds(r.left, r.top, r.right - r.left, r.bottom - r.top)];
      i := i + 1;
    }
    assert rects[..i] == rects;
  }

  /** Two tables that describe the same rectangles are the same table. */
  lemma MonitorTableUnique(rects: seq<Rect>, t1: map<int, Bounds>, t2: map<int, Bounds>)
    requires IsMonitorTable(rects, t1) && IsMonitorTable(rects, t2)
    ensures t1 == t2
  {
    assert forall k :: k in t1 <==> k in t2;
    forall k | k in t1 ensures t1[k] == t2[k] {
      assert 0 <= k < |rects|;
    }
  }
}
