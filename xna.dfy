/** The MonoGame value types the game's core relies on, with the integer and
    truncation behaviour of C# written out. Floating-point values are modelled
    as exact reals. */
module Xna {

  /** C#'s `n / 2` on int: the quotient is truncated toward zero. */
  function HalfTrunc(n: int): (h: int)
    ensures -1 <= n - 2 * h <= 1
    ensures n >= 0 ==> 0 <= n - 2 * h
    ensures n <= 0 ==> n - 2 * h <= 0
  {
    if n >= 0 then n / 2 else -((-n) / 2)
  }

  /** C#'s `(int)x` on a float, as used by `Vector2.ToPoint`: truncation toward zero. */
  function Truncate(x: real): (i: int)
    ensures x >= 0.0 ==> i as real <= x < i as real + 1.0
    ensures x <= 0.0 ==> i as real - 1.0 < x <= i as real
  {
    if x >= 0.0 then x.Floor else -((-x).Floor)
  }

  datatype Point = Point(x: int, y: int)
  {
    function Minus(other: Point): Point { Point(x - other.x, y - other.y) }
    /** `point / new Point(2)`: component-wise C# integer division by two. */
    function Halved(): Point { Point(HalfTrunc(x), HalfTrunc(y)) }
    function ToVector2(): Vector2 { Vector2(x as real, y as real) }
  }

  datatype Vector2 = Vector2(x: real, y: real)
  {
    function Plus(other: Vector2): Vector2 { Vector2(x + other.x, y + other.y) }
    function Halved(): Vector2 { Vector2(x / 2.0, y / 2.0) }
    function ToPoint(): Point { Point(Truncate(x), Truncate(y)) }
  }

  datatype Vector3 = Vector3(x: real, y: real, z: real)
  {
    function Plus(other: Vector3): Vector3 { Vector3(x + other.x, y + other.y, z + other.z) }
    function Scale(k: real): Vector3 { Vector3(k * x, k * y, k * z) }
  }

  const Origin: Vector3 := Vector3(0.0, 0.0, 0.0)

  /** MonoGame's integer rectangle: top-left corner (x, y) and a size. */
  datatype Rectangle = Rectangle(x: int, y: int, width: int, height: int)
  {
    function Location(): Point { Point(x, y) }
    function Size(): Point { Point(width, height) }

    /** Half-open containment test: the right and bottom edges are outside. */
    predicate Contains(p: Point)
    {
      x <= p.x < x + width && y <= p.y < y + height
    }

    /** `Rectangle.Center`, with C# integer division. */
    function Center(): Point { Point(x + HalfTrunc(width), y + HalfTrunc(height)) }

    /** The `Location` setter: moves the rectangle, keeping its size. */
    function WithLocation(p: Point): (r: Rectangle)
      ensures r.Location() == p && r.Size() == Size()
    {
      Rectangle(p.x, p.y, width, height)
    }
  }

  datatype BoundingSphere = BoundingSphere(center: Vector3, radius: real)
  datatype BoundingBox = BoundingBox(min: Vector3, max: Vector3)

  /** The colours the core names. `SpriteDefault` stands for the colour a
      SpriteText takes when it is built without one. */
  datatype Color = White | LightGreen | LimeGreen | Red | BurlyWood | SpriteDefault

  /** A texture handle; its pixels are outside this model. */
  datatype Texture2D = Texture2D(asset: string)
}
