/**
 * The building view's window arithmetic: which ten floors are on screen, how
 * the scroll buttons move the window, how the window follows the car, and
 * where the car is drawn. All of it is integer clamping on `startFloor`, the
 * lowest floor of the window.
 */
module Building {
  import opened ElevatorTypes

  const VisibleFloors: int := 10
  const TotalFloors: int := 100

  /** The highest window start, which shows floors 91..100 */
  const TopStart: int := TotalFloors - VisibleFloors + 1

  function Max(a: int, b: int): (r: int) {
    if a >= b then a else b
  }

  function Min(a: int, b: int): (r: int) {
    if a <= b then a else b
  }

  /** A window start the view can hold: 1 at start-up, and the scroll
      buttons and the auto-scroll keep it within 1..91. */
  predicate ValidStart(start: int) {
    1 <= start <= TopStart
  }

  /** The car is inside the window of ten floors from `start`. */
  predicate IsElevatorVisible(current: int, start: int): (r: bool)
    ensures r && ValidStart(start) ==> IsFloor(current)
  {
    current >= start && current < start + VisibleFloors
  }

  /** The scroll-up button: five floors lower, never below floor 1. */
  function ScrollUp(start: int): (r: int)
    ensures r >= 1
    ensures r <= start || start < 1
    ensures start > 1 ==> r < start
    ensures ValidStart(start) ==> ValidStart(r)
    ensures r == 1 || r == start - 5
    ensures start - 5 >= 1 ==> r == start - 5
    ensures start - 5 < 1 ==> r == 1
  {
    Max(1, start - 5)
  }

  /** The scroll-down button: five floors higher, never above 91. */
  function ScrollDown(start: int): (r: int)
    ensures r <= TopStart
    ensures r >= start || start > TopStart
    ensures start < TopStart ==> r > start
    ensures ValidStart(start) ==> ValidStart(r)
    ensures r == TopStart || r == start + 5
    ensures start + 5 <= TopStart ==> r == start + 5
    ensures start + 5 > TopStart ==> r == TopStart
  {
    Min(TotalFloors - VisibleFloors + 1, start + 5)
  }

  /** Away from the ends, the two scroll buttons undo each other. */
  lemma ScrollRoundTrip(start: int)
    requires 6 <= start <= TopStart - 5
    ensures ScrollDown(ScrollUp(start)) == start
    ensures ScrollUp(ScrollDown(start)) == start
  {
  }

  /** The auto-scroll: when the car is below the window the window starts at
      the car's floor; when it is above, the window ends at the car's floor
      (clamped to the top window). A visible car leaves the window alone. */
  function AutoScroll(current: int, start: int): (r: int)
    ensures IsElevatorVisible(current, start) ==> r == start
    ensures IsFloor(current) && current < start ==> r == current
    ensures IsFloor(current) && current >= start + VisibleFloors ==> r + VisibleFloors - 1 == current
    ensures IsFloor(current) ==> IsElevatorVisible(current, r)
    ensures IsFloor(current) && ValidStart(start) ==> ValidStart(r)
  {
    if current < start then Max(1, current)
    else if current >= start + VisibleFloors then Min(TotalFloors - VisibleFloors + 1, current - VisibleFloors + 1)
    else start
  }

  /** The auto-scroll settles after one adjustment. */
  lemma AutoScrollIdempotent(current: int, start: int)
    ensures AutoScroll(current, AutoScroll(current, start)) == AutoScroll(current, start)
  {
  }

  function Reverse(s: seq<int>): (r: seq<int>)
    ensures |r| == |s|
    ensures forall i :: 0 <= i < |s| ==> r[i] == s[|s| - 1 - i]
  {
    if s == [] then [] else Reverse(s[1..]) + [s[0]]
  }

  /** The floor numbers the view lists, as the program computes them: ten
      entries `100 - (start + i - 1)` for i in 0..9, reversed. That is the
      ascending run 92 - start .. 101 - start. */
  function FloorList(start: int): (r: seq<int>)
    ensures |r| == VisibleFloors
    ensures forall k :: 0 <= k < |r| ==> r[k] == 92 - start + k
    ensures r[0] == 92 - start && r[|r| - 1] == 101 - start
    ensures forall k :: 0 < k < |r| ==> r[k] == r[k - 1] + 1
    ensures ValidStart(start) ==> forall k :: 0 <= k < |r| ==> IsFloor(r[k])
  {
    Reverse(seq(VisibleFloors, i => TotalFloors - (start + i - 1)))
  }

  /** The run the window is meant to list, as the caption beneath it says:
      `start` .. `start + 9`. */
  function IntendedFloorList(start: int): (r: seq<int>)
    ensures |r| == VisibleFloors
    ensures forall k :: 0 <= k < |r| ==> r[k] == start + k
  {
    seq(VisibleFloors, i => start + i)
  }

  /** The intended list agrees with the caption and with the visibility test:
      a floor is listed exactly when the car at that floor counts as visible,
      so after the auto-scroll the car's floor is always listed. */
  lemma IntendedListMatchesWindow(current: int, start: int)
    requires ValidStart(start)
    ensures IntendedFloorList(start)[0] == start
    ensures IntendedFloorList(start)[VisibleFloors - 1] == Min(start + VisibleFloors - 1, TotalFloors)
    ensures current in IntendedFloorList(start) <==> IsElevatorVisible(current, start)
    ensures IsFloor(current) ==> current in IntendedFloorList(AutoScroll(current, start))
  {
    if IsElevatorVisible(current, start) {
      assert IntendedFloorList(start)[current - start] == current;
    }
    if IsFloor(current) {
      var w := AutoScroll(current, start);
      assert IntendedFloorList(w)[current - w] == current;
    }
  }

  /** As written, the list and the visibility test disagree: at start-up the
      car at floor 1 counts as visible, but the listed floors are 91..100. */
  lemma FloorListMissesCar()
    ensures AutoScroll(1, 1) == 1 && IsElevatorVisible(1, 1)
    ensures FloorList(1) == [91, 92, 93, 94, 95, 96, 97, 98, 99, 100]
    ensures 1 !in FloorList(1)
  {
  }

  /** Where the car is drawn: six units per floor below the top floor. */
  function CarOffset(current: int): (r: int)
    ensures r >= 0 <==> current <= TotalFloors
    ensures r == 0 <==> current == TotalFloors
    ensures r % 6 == 0
  {
    (TotalFloors - current) * 6
  }

  /** A higher floor is drawn higher up (smaller offset). */
  lemma CarOffsetDecreasing(a: int, b: int)
    requires a < b
    ensures CarOffset(a) > CarOffset(b)
    ensures CarOffset(a) - CarOffset(b) == 6 * (b - a)
  {
  }
}
