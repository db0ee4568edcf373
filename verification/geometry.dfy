/** Value types shared by the report converter and the feeder configuration:
    an optional value, a board position and a placed part.  Coordinates are
    millimetres, modelled as `real` rather than IEEE floats. */
module Geometry {

  datatype Option<+T> = None | Some(value: T)

  /** A point on the board (report space) or in machine space. */
  datatype Position = Position(x: real, y: real)

  /** One placed component, as the report parser produces it. */
  datatype Part = Part(
    componentName: string,
    footprint: string,
    value: string,
    pos: Position,
    angle: real)

  function Sq(r: real): real { r * r }

  /** Square of the Euclidean distance between two positions. */
  function SquaredDistance(a: Position, b: Position): real
  {
    Sq(a.x - b.x) + Sq(a.y - b.y)
  }
}
