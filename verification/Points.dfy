/** Positions of the mouse, in pixels. */
module Points {
  datatype Point = Point(x: int, y: int)
}
