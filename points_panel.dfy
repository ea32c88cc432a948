/**
  The bounded point buffer of the plotting component (PointsPanel.java): a
  list of points that keeps at most `maxPoints` of them by dropping the oldest,
  and the four bounds of the plotted range.

  Painting, the screen mapping of a point and the point colour are not part of
  the buffer and are left out; a `repaint` request has no effect on the state.
 */
module Points {

  datatype Point = Point(x: real, y: real)

  /** The number of points a buffer of capacity `maxPoints` can hold: a negative capacity holds none. */
  function Capacity(maxPoints: int): nat {
    if maxPoints < 0 then 0 else maxPoints
  }

  /**
    setVal on the list: append `p`, then remove the first element when the list
    is longer than `maxPoints`.
   */
  function Pushed(s: seq<Point>, p: Point, maxPoints: int): seq<Point> {
    var t := s + [p];
    if |t| > maxPoints then t[1..] else t
  }

  /** The last `n` elements of `s`, or all of `s` when it is shorter. */
  function Latest(s: seq<Point>, n: nat): (r: seq<Point>)
    ensures |r| == if |s| <= n then |s| else n
    ensures r == s[|s| - |r|..]
  {
    if |s| <= n then s else s[|s| - n..]
  }

  /**
    One setVal: the new point is the last element; when the list was below
    capacity nothing is lost, and otherwise only the oldest point is.
   */
  lemma PushedShape(s: seq<Point>, p: Point, maxPoints: int)
    requires |s| <= Capacity(maxPoints)
    ensures |Pushed(s, p, maxPoints)| <= Capacity(maxPoints)
    ensures |s| < maxPoints ==> Pushed(s, p, maxPoints) == s + [p]
    ensures s != [] && |s| >= maxPoints ==> Pushed(s, p, maxPoints) == s[1..] + [p]
    ensures maxPoints <= 0 ==> Pushed(s, p, maxPoints) == []
    ensures maxPoints >= 1 ==> Pushed(s, p, maxPoints)[|Pushed(s, p, maxPoints)| - 1] == p
  {
    if s != [] && |s| >= maxPoints {
      assert (s + [p])[1..] == s[1..] + [p];
    }
  }

  /** Pushing onto the most recent points gives the most recent points of the longer history. */
  lemma PushedKeepsLatest(s: seq<Point>, p: Point, maxPoints: int)
    ensures Pushed(Latest(s, Capacity(maxPoints)), p, maxPoints) == Latest(s + [p], Capacity(maxPoints))
  {
    var n := Capacity(maxPoints);
    var l := Latest(s, n);
    var t := s + [p];
    assert l + [p] == t[|t| - |l| - 1..];
    if |l + [p]| > maxPoints {
      assert (l + [p])[1..] == t[|t| - |l|..];
    }
  }

  /** A run of setVal calls, oldest point first. */
  function PushAll(s: seq<Point>, ps: seq<Point>, maxPoints: int): seq<Point>
    decreases |ps|
  {
    if ps == [] then s else Pushed(PushAll(s, ps[..|ps| - 1], maxPoints), ps[|ps| - 1], maxPoints)
  }

  /**
    The buffer forgets only by age: starting from the most recent points of a
    history, any run of setVal calls leaves the most recent points of the whole
    history. From an empty buffer, the buffer holds exactly the last
    `maxPoints` points given to it.
   */
  lemma {:induction false} PushAllKeepsLatest(h: seq<Point>, ps: seq<Point>, maxPoints: int)
    ensures PushAll(Latest(h, Capacity(maxPoints)), ps, maxPoints) == Latest(h + ps, Capacity(maxPoints))
    decreases |ps|
  {
    if ps == [] {
      assert h + ps == h;
    } else {
      var front := ps[..|ps| - 1];
      var p := ps[|ps| - 1];
      var n := Capacity(maxPoints);
      assert ps == front + [p];
      assert PushAll(Latest(h, n), ps, maxPoints) == Pushed(PushAll(Latest(h, n), front, maxPoints), p, maxPoints);
      PushAllKeepsLatest(h, front, maxPoints);
      PushedKeepsLatest(h + front, p, maxPoints);
      assert (h + front) + [p] == h + ps;
    }
  }

  /** From an empty buffer. */
  lemma PushAllFromEmpty(ps: seq<Point>, maxPoints: int)
    ensures PushAll([], ps, maxPoints) == Latest(ps, Capacity(maxPoints))
  {
    PushAllKeepsLatest([], ps, maxPoints);
    assert [] + ps == ps;
  }

  class PointsPanel {
    var points: seq<Point>
    const maxPoints: int
    var minX: real
    var maxX: real
    var minY: real
    var maxY: real

    /** The list never exceeds the capacity. */
    ghost predicate Valid()
      reads this
    {
      |points| <= Capacity(maxPoints)
    }

    /** An empty buffer with the given range and capacity; the preferred size is not modelled. */
    constructor (minX: real, maxX: real, minY: real, maxY: real, maxPoints: int)
      ensures Valid() && points == [] && this.maxPoints == maxPoints
      ensures this.minX == minX && this.maxX == maxX && this.minY == minY && this.maxY == maxY
    {
      points := [];
      this.maxPoints := maxPoints;
      this.minX := minX;
      this.maxX := maxX;
      this.minY := minY;
      this.maxY := maxY;
    }

    /** Appends (x, y) and, when over capacity, removes the oldest point. */
    method SetVal(x: real, y: real)
      requires Valid()
      modifies this`points
      ensures Valid()
      ensures points == Pushed(old(points), Point(x, y), maxPoints)
    {
      points := points + [Point(x, y)];
      if |points| > maxPoints {
        points := points[1..];
      }
    }

    /** Stores the four bounds; the points are untouched. */
    method SetRange(minX: real, maxX: real, minY: real, maxY: real)
      modifies this`minX, this`maxX, this`minY, this`maxY
      ensures this.minX == minX && this.maxX == maxX && this.minY == minY && this.maxY == maxY
    {
      this.minX := minX;
      this.maxX := maxX;
      this.minY := minY;
      this.maxY := maxY;
    }

    /** Empties the list; the bounds are untouched. */
    method ClearPoints()
      modifies this`points
      ensures Valid() && points == []
    {
      points := [];
    }

    /** A copy of the list as it is now. */
    method GetPoints() returns (r: seq<Point>)
      ensures r == points
    {
      r := points;
    }

    /** The observer entry point: exactly setVal. */
    method Update(x: real, y: real)
      requires Valid()
      modifies this`points
      ensures Valid()
      ensures points == Pushed(old(points), Point(x, y), maxPoints)
    {
      SetVal(x, y);
    }
  }

  /**
    A snapshot returned by getPoints is a value: points added or cleared
    afterwards do not change it.
   */
  method SnapshotIsIndependent(panel: PointsPanel, x: real, y: real) returns (snap: seq<Point>, later: seq<Point>)
    requires panel.Valid()
    modifies panel
    ensures snap == old(panel.points)
    ensures later == Pushed(snap, Point(x, y), panel.maxPoints)
    ensures panel.points == []
  {
    snap := panel.GetPoints();
    panel.SetVal(x, y);
    later := panel.GetPoints();
    panel.ClearPoints();
  }
}
