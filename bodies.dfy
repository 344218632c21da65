/** The body descriptors handed to the physics library's body factory:
    a centre, a shape, the options object (static flag, angle, chamfer,
    material) and its render style. Coordinates are in pixels with y
    growing downwards. */
module Bodies {
  import opened Base

  datatype Shape = Rectangle(width: real, height: real) | Circle(radius: real)

  /** A material property left `None` is not given, so the library's default applies. */
  datatype Material = Material(friction: Option<real>, restitution: Option<real>, density: Option<real>)

  /** The fill colour: the library's default, a hex code, or an `rgb(...)` triple. */
  datatype Paint = LibraryDefault | Hex(code: string) | Rgb(red: real, green: real, blue: real)

  datatype Style = Style(fill: Paint, stroke: Option<string>, lineWidth: Option<real>)

  /** An angle left unset is the library's default of 0. */
  datatype Body = Body(x: real, y: real, shape: Shape, isStatic: bool, angle: real,
                       chamfer: Option<real>, material: Material, style: Style)

  const NoMaterial := Material(None, None, None)
  const NoStyle := Style(LibraryDefault, None, None)

  /** Edges of an unrotated rectangle. */
  function Left(b: Body): real
    requires b.shape.Rectangle?
  {
    b.x - b.shape.width / 2.0
  }

  function Right(b: Body): real
    requires b.shape.Rectangle?
  {
    b.x + b.shape.width / 2.0
  }

  function Top(b: Body): real
    requires b.shape.Rectangle?
  {
    b.y - b.shape.height / 2.0
  }

  function Bottom(b: Body): real
    requires b.shape.Rectangle?
  {
    b.y + b.shape.height / 2.0
  }
}
