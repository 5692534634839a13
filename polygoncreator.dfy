/**
 * The state behind ux.display.designer.PolygonCreator, the terrain and
 * arena outline editor: two coordinate lists and a point count that left
 * clicks grow (snapped to a 25-pixel grid, only while editable) and right
 * clicks shrink, and the copy of a list into the int array a Polygon is
 * built from.  Painting and mouse plumbing are not modelled.
 */
module PolygonCreators {
  import opened Numerics

  /** The editor's grid: the source's GRIDW and GRIDH, both 25, so one snapping serves both axes. */
  const GRID: int := 25

  /**
   * The snapping of mousePressed on one coordinate: the Java remainder m of
   * the coordinate by the grid, and a move up by 25 - m when that is less
   * than m, else down by m.  For a non-negative coordinate a remainder of 12
   * or less rounds down and one of 13 or more up; a negative coordinate
   * always moves towards 0.
   */
  function Snap(v: int): (r: int)
    ensures r % 25 == 0
    ensures v >= 0 ==> r >= 0 && (v % 25 <= 12 ==> r == v - v % 25) && (v % 25 >= 13 ==> r == v - v % 25 + 25)
    ensures v < 0 ==> v <= r <= 0 && r - v < 25
  {
    var m := IntRem(v, GRID);
    var d := GRID - m;
    if d < m then v + d else v - m
  }

  /** For a non-negative coordinate no grid line is nearer than the snapped one. */
  lemma {:induction false} SnapIsNearest(v: int, k: int)
    requires v >= 0
    ensures IntAbs(Snap(v) - v) <= IntAbs(25 * k - v)
  {
    var q, m := v / 25, v % 25;
    assert v == 25 * q + m;
    if k <= q {
      assert 25 * k - v <= -m;
    } else {
      assert 25 * k - v >= 25 - m;
    }
  }

  datatype MouseButton = Button1 | Button3 | OtherButton

  class PolygonCreator {
    var currentX: int
    var currentY: int
    var nPoints: int
    var editable: bool
    var xPoints: seq<int>
    var yPoints: seq<int>

    /** The count is the length of both lists. */
    predicate Valid()
      reads this
    {
      nPoints == |xPoints| && nPoints == |yPoints|
    }

    /** A new creator: empty lists, no points, not editable. */
    constructor ()
      ensures Valid() && xPoints == [] && yPoints == [] && nPoints == 0
      ensures !editable && currentX == 0 && currentY == 0
    {
      currentX, currentY, nPoints, editable := 0, 0, 0, false;
      xPoints, yPoints := [], [];
    }

    /** editable(e): whether left clicks add points. */
    method SetEditable(e: bool)
      modifies this
      ensures editable == e
      ensures xPoints == old(xPoints) && yPoints == old(yPoints) && nPoints == old(nPoints)
      ensures currentX == old(currentX) && currentY == old(currentY)
    {
      editable := e;
    }

    /** resetCanvas: both lists emptied and the count 0. */
    method ResetCanvas()
      modifies this
      ensures Valid() && xPoints == [] && yPoints == [] && nPoints == 0
      ensures editable == old(editable) && currentX == old(currentX) && currentY == old(currentY)
    {
      xPoints := [];
      yPoints := [];
      nPoints := 0;
    }

    /** addPoint: the point appended to both lists and counted. */
    method AddPoint(x: int, y: int)
      modifies this
      ensures xPoints == old(xPoints) + [x] && yPoints == old(yPoints) + [y] && nPoints == old(nPoints) + 1
      ensures editable == old(editable) && currentX == old(currentX) && currentY == old(currentY)
      ensures old(Valid()) ==> Valid()
    {
      xPoints := xPoints + [x];
      yPoints := yPoints + [y];
      nPoints := nPoints + 1;
    }

    /** removePreviousPoint: the last point dropped, but only while more than one is left. */
    method RemovePreviousPoint()
      requires Valid()
      modifies this
      ensures Valid()
      ensures old(nPoints) > 1 ==> nPoints == old(nPoints) - 1 && xPoints == old(xPoints)[..nPoints]
                                   && yPoints == old(yPoints)[..nPoints]
      ensures old(nPoints) <= 1 ==> nPoints == old(nPoints) && xPoints == old(xPoints) && yPoints == old(yPoints)
      ensures old(nPoints) >= 1 ==> nPoints >= 1
      ensures editable == old(editable) && currentX == old(currentX) && currentY == old(currentY)
    {
      if nPoints > 1 {
        nPoints := nPoints - 1;
        xPoints := xPoints[..|xPoints| - 1];
        yPoints := yPoints[..|yPoints| - 1];
      }
    }

    /**
     * mousePressed at (x, y): the first button adds the grid-snapped point
     * while editable, and the third removes the previous point whether or
     * not the creator is editable.
     */
    method MousePressed(button: MouseButton, x: int, y: int)
      requires Valid()
      modifies this
      ensures Valid() && editable == old(editable)
      ensures button == Button1 && editable ==>
                currentX == Snap(x) && currentY == Snap(y)
                && xPoints == old(xPoints) + [currentX] && yPoints == old(yPoints) + [currentY]
      ensures button == Button1 && !editable ==>
                xPoints == old(xPoints) && yPoints == old(yPoints) && nPoints == old(nPoints)
      ensures button == Button3 ==> if old(nPoints) > 1 then nPoints == old(nPoints) - 1 && xPoints == old(xPoints)[..nPoints]
                                                           && yPoints == old(yPoints)[..nPoints]
                                     else xPoints == old(xPoints) && yPoints == old(yPoints) && nPoints == old(nPoints)
      ensures button == OtherButton ==> xPoints == old(xPoints) && yPoints == old(yPoints) && nPoints == old(nPoints)
      ensures !(button == Button1 && editable) ==> currentX == old(currentX) && currentY == old(currentY)
    {
      if button == Button1 {
        if editable {
          currentX := Snap(x);
          currentY := Snap(y);
          AddPoint(currentX, currentY);
        }
      } else if button == Button3 {
        RemovePreviousPoint();
      }
    }
  }

  /**
   * linkedListtointArray: null for an empty list, else a new array holding
   * the list's elements in order.
   */
  method ListToIntArray(list: seq<int>) returns (r: array?<int>)
    ensures r == null <==> list == []
    ensures r != null ==> r[..] == list
  {
    if |list| > 0 {
      r := new int[|list|];
      var i := 0;
      while i < |list|
        invariant 0 <= i <= |list| && r.Length == |list|
        invariant r[..i] == list[..i]
      {
        r[i] := list[i];
        i := i + 1;
      }
    } else {
      r := null;
    }
  }
}
