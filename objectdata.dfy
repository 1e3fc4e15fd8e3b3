/**
 * MCObjectData: the configuration an object is created from. Each setter
 * stores its value for the matching getter; setting the radius selects the
 * circle shape, and setting the width or the height selects the rectangle
 * shape. The header declares the record; the accessors are taken to store
 * and return their field, and a new record to start with the default shape
 * and zero values.
 */
module ObjectData {

  datatype Shape = Default | Rect | Circle

  /** MCVector3dF. */
  datatype Vec3 = Vec3(i: real, j: real, k: real)

  class MCObjectData {
    const typeId: string
    var mass: real
    var shape: Shape
    var shapeRadius: real
    var shapeWidth: real
    var shapeHeight: real
    var restitution: real
    var xyFriction: real
    var stationary: bool
    var location: Vec3
    var angle: int

    constructor (id: string)
      ensures typeId == id && shape == Default
      ensures mass == 0.0 && shapeRadius == 0.0 && shapeWidth == 0.0 && shapeHeight == 0.0
      ensures restitution == 0.0 && xyFriction == 0.0 && !stationary
      ensures location == Vec3(0.0, 0.0, 0.0) && angle == 0
    {
      typeId := id;
      mass := 0.0;
      shape := Default;
      shapeRadius, shapeWidth, shapeHeight := 0.0, 0.0, 0.0;
      restitution, xyFriction := 0.0, 0.0;
      stationary := false;
      location := Vec3(0.0, 0.0, 0.0);
      angle := 0;
    }

    function TypeId(): string { typeId }

    method SetMass(m: real)
      modifies this
      ensures mass == m
      ensures shape == old(shape) && shapeRadius == old(shapeRadius) && shapeWidth == old(shapeWidth)
      ensures shapeHeight == old(shapeHeight) && restitution == old(restitution) && xyFriction == old(xyFriction)
      ensures stationary == old(stationary) && location == old(location) && angle == old(angle)
    {
      mass := m;
    }

    function Mass(): real reads this { mass }

    /** setShapeRadius: stores the radius and selects the circle shape. */
    method SetShapeRadius(radius: real)
      modifies this
      ensures shapeRadius == radius && shape == Circle
      ensures mass == old(mass) && shapeWidth == old(shapeWidth) && shapeHeight == old(shapeHeight)
      ensures restitution == old(restitution) && xyFriction == old(xyFriction)
      ensures stationary == old(stationary) && location == old(location) && angle == old(angle)
    {
      shapeRadius := radius;
      shape := Circle;
    }

    function ShapeRadius(): real reads this { shapeRadius }

    /** setShapeWidth: stores the width and selects the rectangle shape. */
    method SetShapeWidth(width: real)
      modifies this
      ensures shapeWidth == width && shape == Rect
      ensures mass == old(mass) && shapeRadius == old(shapeRadius) && shapeHeight == old(shapeHeight)
      ensures restitution == old(restitution) && xyFriction == old(xyFriction)
      ensures stationary == old(stationary) && location == old(location) && angle == old(angle)
    {
      shapeWidth := width;
      shape := Rect;
    }

    function ShapeWidth(): real reads this { shapeWidth }

    /** setShapeHeight: stores the height and selects the rectangle shape. */
    method SetShapeHeight(height: real)
      modifies this
      ensures shapeHeight == height && shape == Rect
      ensures mass == old(mass) && shapeRadius == old(shapeRadius) && shapeWidth == old(shapeWidth)
      ensures restitution == old(restitution) && xyFriction == old(xyFriction)
      ensures stationary == old(stationary) && location == old(location) && angle == old(angle)
    {
      shapeHeight := height;
      shape := Rect;
    }

    function ShapeHeight(): real reads this { shapeHeight }

    function GetShape(): Shape reads this { shape }

    method SetRestitution(r: real)
      modifies this
      ensures restitution == r
      ensures mass == old(mass) && shape == old(shape) && shapeRadius == old(shapeRadius)
      ensures shapeWidth == old(shapeWidth) && shapeHeight == old(shapeHeight) && xyFriction == old(xyFriction)
      ensures stationary == old(stationary) && location == old(location) && angle == old(angle)
    {
      restitution := r;
    }

    function Restitution(): real reads this { restitution }

    method SetXYFriction(friction: real)
      modifies this
      ensures xyFriction == friction
      ensures mass == old(mass) && shape == old(shape) && shapeRadius == old(shapeRadius)
      ensures shapeWidth == old(shapeWidth) && shapeHeight == old(shapeHeight) && restitution == old(restitution)
      ensures stationary == old(stationary) && location == old(location) && angle == old(angle)
    {
      xyFriction := friction;
    }

    function XYFriction(): real reads this { xyFriction }

    method SetIsStationary(s: bool)
      modifies this
      ensures stationary == s
      ensures mass == old(mass) && shape == old(shape) && shapeRadius == old(shapeRadius)
      ensures shapeWidth == old(shapeWidth) && shapeHeight == old(shapeHeight)
      ensures restitution == old(restitution) && xyFriction == old(xyFriction)
      ensures location == old(location) && angle == old(angle)
    {
      stationary := s;
    }

    function Stationary(): bool reads this { stationary }

    method SetInitialLocation(l: Vec3)
      modifies this
      ensures location == l
      ensures mass == old(mass) && shape == old(shape) && shapeRadius == old(shapeRadius)
      ensures shapeWidth == old(shapeWidth) && shapeHeight == old(shapeHeight)
      ensures restitution == old(restitution) && xyFriction == old(xyFriction)
      ensures stationary == old(stationary) && angle == old(angle)
    {
      location := l;
    }

    function InitialLocation(): Vec3 reads this { location }

    method SetInitialAngle(a: int)
      modifies this
      ensures angle == a
      ensures mass == old(mass) && shape == old(shape) && shapeRadius == old(shapeRadius)
      ensures shapeWidth == old(shapeWidth) && shapeHeight == old(shapeHeight)
      ensures restitution == old(restitution) && xyFriction == old(xyFriction)
      ensures stationary == old(stationary) && location == old(location)
    {
      angle := a;
    }

    function InitialAngle(): int reads this { angle }
  }

  /** The configuration calls that can change the shape kind. */
  datatype ShapeCall = RadiusCall(radius: real) | WidthCall(width: real) | HeightCall(height: real)

  /** The shape kind one dimension setter selects. */
  function Selects(c: ShapeCall): Shape {
    match c
    case RadiusCall(_) => Circle
    case WidthCall(_) => Rect
    case HeightCall(_) => Rect
  }

  /** The shape kind after a sequence of dimension setter calls, applied one at a time. */
  function ShapeAfter(initial: Shape, calls: seq<ShapeCall>): Shape
    decreases |calls|
  {
    if calls == [] then initial else ShapeAfter(Selects(calls[0]), calls[1..])
  }

  /** Whichever dimension setter ran last decides the shape; with none the shape is kept. */
  lemma {:induction false} LastSetterWins(initial: Shape, calls: seq<ShapeCall>)
    ensures calls == [] ==> ShapeAfter(initial, calls) == initial
    ensures calls != [] ==> ShapeAfter(initial, calls) == Selects(calls[|calls| - 1])
    ensures ShapeAfter(initial, calls) != Default || (calls == [] && initial == Default)
    decreases |calls|
  {
    if calls != [] {
      LastSetterWins(Selects(calls[0]), calls[1..]);
    }
  }
}
