/** Frames as the viewer's side of the server reads them: four bytes a pixel, and the rectangles
    an update is made of. */
module VncFrame {
  import opened Basics

  /** One pixel: red, green, blue and the unused fourth byte. */
  datatype Colour = Colour(red: byte, green: byte, blue: byte, spare: byte)

  datatype Region = Region(x: u16, y: u16, width: u16, height: u16)

  predicate InRegion(r: Region, x: int, y: int) {
    r.x <= x < r.x + r.width && r.y <= y < r.y + r.height
  }

  ghost predicate InRegions(rs: seq<Region>, x: int, y: int) {
    exists i :: 0 <= i < |rs| && InRegion(rs[i], x, y)
  }

  predicate InFrame(r: Region, width: u16, height: u16) {
    r.x + r.width <= width && r.y + r.height <= height
  }

  /** A frame of the given size. */
  predicate Framed(frame: seq<byte>, width: u16, height: u16) {
    |frame| == width * height * 4
  }

  lemma InsideFrame(width: nat, height: nat, x: nat, y: nat)
    requires x < width && y < height
    ensures (y * width + x) * 4 + 4 <= width * height * 4
  {
    MulMonotone(y + 1, height, width);
  }

  function ColourAt(frame: seq<byte>, width: u16, height: u16, x: nat, y: nat): Colour
    requires Framed(frame, width, height) && x < width && y < height
  {
    InsideFrame(width, height, x, y);
    var at := (y * width + x) * 4;
    Colour(frame[at], frame[at + 1], frame[at + 2], frame[at + 3])
  }

  /** Two frames differ at a pixel. */
  ghost predicate Differs(a: seq<byte>, b: seq<byte>, width: u16, height: u16, x: int, y: int)
    requires Framed(a, width, height) && Framed(b, width, height)
  {
    0 <= x < width && 0 <= y < height && ColourAt(a, width, height, x, y) != ColourAt(b, width, height, x, y)
  }

  lemma RegionsPlus(rs: seq<Region>, r: Region, x: int, y: int)
    ensures InRegions(rs + [r], x, y) <==> InRegions(rs, x, y) || InRegion(r, x, y)
  {
    var all := rs + [r];
    if i :| 0 <= i < |rs| && InRegion(rs[i], x, y) {
      assert all[i] == rs[i];
    }
    assert all[|rs|] == r;
  }
}
