/** The static geometry `initializeRenderer` adds to the world for an arena
    of `width` x `height` pixels: a floor, a right wall, a left wall and an
    inclined ramp. Each rectangle is given as centre x, centre y, horizontal
    extent, vertical extent. */
module Boundary {
  import opened Base
  import opened Bodies

  /** Thickness of the floor and the walls. */
  const Thickness: real := 20.0

  const WallMaterial := Material(Some(10.0), None, None)

  /** The ramp's incline, 40 degrees in radians. */
  const RampAngle: real := (40.0 / 180.0) * Pi

  /** A static, unrotated rectangle with friction 10 (floor and walls). */
  function Wall(x: real, y: real, width: real, height: real): Body
  {
    Body(x, y, Rectangle(width, height), true, 0.0, None, WallMaterial, NoStyle)
  }

  /** The floor lies just below the arena: its top edge is the arena's
      bottom edge and it spans the whole width. */
  predicate FloorFlush(b: Body, w: real, h: real)
  {
    && b.shape.Rectangle? && b.angle == 0.0
    && Top(b) == h && Bottom(b) == h + Thickness
    && Left(b) == 0.0 && Right(b) == w
  }

  /** The right wall lies just outside the arena's right edge and spans its height. */
  predicate RightWallFlush(b: Body, w: real, h: real)
  {
    && b.shape.Rectangle? && b.angle == 0.0
    && Left(b) == w && Right(b) == w + Thickness
    && Top(b) == 0.0 && Bottom(b) == h
  }

  /** The left wall lies just outside the arena's left edge and spans its height. */
  predicate LeftWallFlush(b: Body, h: real)
  {
    && b.shape.Rectangle? && b.angle == 0.0
    && Right(b) == 0.0 && Left(b) == -Thickness
    && Top(b) == 0.0 && Bottom(b) == h
  }

  /** The four bodies, in the order they are added to the world. */
  function Boundaries(width: nat, height: nat): (bs: seq<Body>)
    ensures |bs| == 4
    ensures forall i :: 0 <= i < |bs| ==> bs[i].isStatic && bs[i].shape.Rectangle?
    ensures FloorFlush(bs[0], width as real, height as real)
    ensures RightWallFlush(bs[1], width as real, height as real)
    ensures LeftWallFlush(bs[2], height as real)
    ensures forall i :: 0 <= i < 3 ==> bs[i].material.friction == Some(10.0)
    // the ramp
    ensures bs[3].x == 0.4 * width as real && bs[3].y == 0.5 * height as real
    ensures bs[3].shape == Rectangle(0.3 * width as real, Thickness)
    ensures bs[3].angle == RampAngle && 0.0 < RampAngle < Pi / 2.0
    ensures bs[3].chamfer == Some(0.5) && bs[3].material == NoMaterial
    ensures bs[3].style.fill == Hex("#AAAAAA")
    ensures width > 0 && height > 0 ==>
              0.0 < bs[3].x < width as real && 0.0 < bs[3].y < height as real
  {
    var w, h := width as real, height as real;
    [ Wall(w / 2.0, h + 10.0, w, 20.0),   // floor
      Wall(w + 10.0, h / 2.0, 20.0, h),   // right side
      Wall(-10.0, h / 2.0, 20.0, h),      // left side
      Body(w * 0.4, h * 0.5, Rectangle(w * 0.3, 20.0), true, RampAngle, Some(0.5),
           NoMaterial, Style(Hex("#AAAAAA"), None, None)) ]
  }
}
