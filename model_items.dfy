/**
 * The per-entity data holders for a plane constraint and a point. Each one
 * guards its fields with its own lock; access here is sequential.
 */
module ModelItems {
  import opened Tokens

  /** A half-plane constraint through two points, with the side it keeps. */
  class PlaneModelItem {
    var p1: Point
    var p2: Point
    var direction: bool
    var port: U16

    constructor (p1: Point, p2: Point)
      ensures this.p1 == p1 && this.p2 == p2
      ensures !direction && port == 0
    {
      this.p1 := p1;
      this.p2 := p2;
      direction := false;
      port := 0;
    }

    /** A copy of p1; no field changes. */
    method GetP1() returns (q: Point)
      ensures q == p1
    {
      q := p1;
    }

    /** Overwrites p1, coordinate by coordinate. */
    method SetP1(pos: Point)
      modifies this
      ensures p1 == pos
      ensures p2 == old(p2) && direction == old(direction) && port == old(port)
    {
      p1 := p1.(x := pos.x);
      p1 := p1.(y := pos.y);
    }

    /** A copy of p2; no field changes. */
    method GetP2() returns (q: Point)
      ensures q == p2
    {
      q := p2;
    }

    /** Overwrites p2, coordinate by coordinate. */
    method SetP2(pos: Point)
      modifies this
      ensures p2 == pos
      ensures p1 == old(p1) && direction == old(direction) && port == old(port)
    {
      p2 := p2.(x := pos.x);
      p2 := p2.(y := pos.y);
    }

    /** The direction flag; no field changes. */
    method GetDirection() returns (d: bool)
      ensures d == direction
    {
      d := direction;
    }

    /** Moves the feasible side to the other side of the line. */
    method FlipDirection()
      modifies this
      ensures direction == !old(direction)
      ensures p1 == old(p1) && p2 == old(p2) && port == old(port)
    {
      direction := !direction;
    }
  }

  /** Flipping a plane's direction twice leaves the plane as it was. */
  method FlipDirectionTwice(plane: PlaneModelItem)
    modifies plane
    ensures plane.direction == old(plane.direction)
    ensures plane.p1 == old(plane.p1) && plane.p2 == old(plane.p2) && plane.port == old(plane.port)
  {
    plane.FlipDirection();
    plane.FlipDirection();
  }

  /** A point on the canvas, such as the final position. */
  class PointModelItem {
    var pos: Point
    var port: U16

    constructor (pos: Point)
      ensures this.pos == pos && port == 0
    {
      this.pos := pos;
      port := 0;
    }

    /** A copy of the position; no field changes. */
    method GetPos() returns (q: Point)
      ensures q == pos
    {
      q := pos;
    }

    /** Overwrites the position, coordinate by coordinate; the port stays. */
    method SetPos(q: Point)
      modifies this
      ensures pos == q && port == old(port)
    {
      pos := pos.(x := q.x);
      pos := pos.(y := q.y);
    }
  }

  /** Setting the same position twice leaves the item as setting it once does. */
  method SetPosTwice(item: PointModelItem, q: Point)
    modifies item
    ensures item.pos == q && item.port == old(item.port)
  {
    item.SetPos(q);
    item.SetPos(q);
  }
}
