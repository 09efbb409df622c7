/** Points, sizes and rectangles of the output's coordinate plane. */
module Geometry {
  import opened Basics

  datatype Point = Point(x: i32, y: i32)

  datatype Size = Size(width: u32, height: u32)

  datatype Rect = Rect(x: i32, y: i32, width: u32, height: u32)

  /** Whether the pixel at column `px`, row `py` lies in a rectangle. */
  predicate InRect(r: Rect, px: int, py: int) {
    r.x <= px < r.x + r.width && r.y <= py < r.y + r.height
  }

  ghost predicate Covered(rects: seq<Rect>, px: int, py: int) {
    exists i :: 0 <= i < |rects| && InRect(rects[i], px, py)
  }
}
