/** `changed_regions`: which parts of a frame differ from the one before it, found by comparing
    64-pixel tiles and joining adjacent changed tiles of a tile row into one rectangle. */
module TileDiff {
  import opened Basics
  import opened VncFrame

  const TILE := 64
  const WHOLESALE_TILES := 2

  /** Whether a bound reaches into a square. */
  predicate Reaches(b: Region, left: nat, top: nat, right: nat, bottom: nat) {
    b.x < right && b.y < bottom && left < b.x + b.width && top < b.y + b.height
  }

  /** `overlaps`. */
  method Overlaps(bounds: seq<Region>, left: nat, top: nat, right: nat, bottom: nat) returns (any: bool)
    ensures any <==> exists i :: 0 <= i < |bounds| && Reaches(bounds[i], left, top, right, bottom)
  {
    for i := 0 to |bounds|
      invariant forall j | 0 <= j < i :: !Reaches(bounds[j], left, top, right, bottom)
    {
      if Reaches(bounds[i], left, top, right, bottom) {
        return true;
      }
    }
    return false;
  }

  /** Some pixel of a row differs. */
  ghost predicate RowDiffers(a: seq<byte>, b: seq<byte>, width: u16, height: u16, left: nat, right: nat, row: nat)
    requires Framed(a, width, height) && Framed(b, width, height)
  {
    exists x :: left <= x < right && Differs(a, b, width, height, x, row)
  }

  /** Some pixel of the tile differs. */
  ghost predicate TileDiffers(a: seq<byte>, b: seq<byte>, width: u16, height: u16, left: nat, top: nat,
                              right: nat, bottom: nat)
    requires Framed(a, width, height) && Framed(b, width, height)
  {
    exists y: nat :: top <= y < bottom && RowDiffers(a, b, width, height, left, right, y)
  }

  /** The bytes of a row differ exactly when some pixel of it does. */
  lemma RowSlice(a: seq<byte>, b: seq<byte>, width: u16, height: u16, left: nat, right: nat, row: nat,
                 start: nat, end: nat)
    requires Framed(a, width, height) && Framed(b, width, height)
    requires left <= right <= width && row < height
    requires start == (row * width + left) * 4 && end == (row * width + right) * 4
    requires end <= |a|
    ensures a[start..end] != b[start..end] <==> RowDiffers(a, b, width, height, left, right, row)
  {
    var p, q := a[start..end], b[start..end];
    forall x: nat | left <= x < right && p == q
      ensures ColourAt(a, width, height, x, row) == ColourAt(b, width, height, x, row)
    {
      InsideFrame(width, height, x, row);
      var d := (x - left) * 4;
      assert p[d] == q[d] && p[d + 1] == q[d + 1] && p[d + 2] == q[d + 2] && p[d + 3] == q[d + 3];
    }
    if !RowDiffers(a, b, width, height, left, right, row) {
      forall i | 0 <= i < |p| ensures p[i] == q[i] {
        var x := left + i / 4;
        InsideFrame(width, height, x, row);
        assert !Differs(a, b, width, height, x, row);
        assert start + i == (row * width + x) * 4 + i % 4;
      }
    }
  }

  method TileChanged(previous: seq<byte>, current: seq<byte>, width: u16, height: u16, left: nat, top: nat,
                     right: nat, bottom: nat) returns (differs: bool)
    requires Framed(previous, width, height) && Framed(current, width, height)
    requires left <= right <= width && top <= bottom <= height
    ensures differs <==> TileDiffers(previous, current, width, height, left, top, right, bottom)
  {
    var row := top;
    while row < bottom
      invariant top <= row <= bottom
      invariant forall y: nat | top <= y < row :: !RowDiffers(previous, current, width, height, left, right, y)
    {
      var here := RowChanged(previous, current, width, height, left, right, row);
      if here {
        return true;
      }
      row := row + 1;
    }
    return false;
  }

  lemma RowEnds(length: nat, width: u16, height: u16, left: nat, right: nat, row: nat)
    requires length == width * height * 4 && left <= right <= width && row < height
    ensures (row * width + left) * 4 <= (row * width + right) * 4 <= length
  {
    MulMonotone(row + 1, height, width);
  }

  method RowChanged(previous: seq<byte>, current: seq<byte>, width: u16, height: u16, left: nat, right: nat, row: nat)
    returns (differs: bool)
    requires Framed(previous, width, height) && Framed(current, width, height)
    requires left <= right <= width && row < height
    ensures differs <==> RowDiffers(previous, current, width, height, left, right, row)
  {
    var start := (row * width + left) * 4;
    var end := (row * width + right) * 4;
    RowEnds(|current|, width, height, left, right, row);
    RowSlice(previous, current, width, height, left, right, row, start, end);
    return previous[start..end] != current[start..end];
  }

  ghost predicate Bounded(bounds: seq<Region>, left: nat, top: nat, right: nat, bottom: nat) {
    exists i :: 0 <= i < |bounds| && Reaches(bounds[i], left, top, right, bottom)
  }

  /** A tile the comparison reports: inside the bounds, and holding a pixel that differs. */
  ghost predicate TileDirty(a: seq<byte>, b: seq<byte>, width: u16, height: u16, bounds: seq<Region>,
                            tileX: nat, tileY: nat)
    requires Framed(a, width, height) && Framed(b, width, height)
  {
    var left, top := tileX * TILE, tileY * TILE;
    var right, bottom := Min(left + TILE, width), Min(top + TILE, height);
    left <= right && top <= bottom && Bounded(bounds, left, top, right, bottom)
    && TileDiffers(a, b, width, height, left, top, right, bottom)
  }

  /** A pixel of a tile: tiles are 64 pixels on each side, less where the frame ends. */
  predicate OfTile(width: u16, height: u16, tileX: nat, tileY: nat, x: int, y: int) {
    0 <= x < width && 0 <= y < height && x / 64 == tileX && y / 64 == tileY
  }

  /** A tile is reported exactly when some bound shares a pixel with it and some pixel of it differs. */
  lemma DirtyIff(a: seq<byte>, b: seq<byte>, width: u16, height: u16, bounds: seq<Region>, tileX: nat, tileY: nat)
    requires Framed(a, width, height) && Framed(b, width, height)
    requires forall i | 0 <= i < |bounds| :: bounds[i].width > 0 && bounds[i].height > 0
    requires 64 * tileX < width && 64 * tileY < height
    ensures TileDirty(a, b, width, height, bounds, tileX, tileY)
            <==> && (exists x, y :: OfTile(width, height, tileX, tileY, x, y) && InRegions(bounds, x, y))
                 && (exists x, y :: OfTile(width, height, tileX, tileY, x, y) && Differs(a, b, width, height, x, y))
  {
    var left, top := tileX * TILE, tileY * TILE;
    var right, bottom := Min(left + TILE, width), Min(top + TILE, height);
    forall x: int, y: int ensures OfTile(width, height, tileX, tileY, x, y) <==> left <= x < right && top <= y < bottom {
    }
    BoundedIff(bounds, left, top, right, bottom);
    if Bounded(bounds, left, top, right, bottom) {
      var x, y :| left <= x < right && top <= y < bottom && InRegions(bounds, x, y);
      assert OfTile(width, height, tileX, tileY, x, y);
    }
    if x, y :| OfTile(width, height, tileX, tileY, x, y) && InRegions(bounds, x, y) {
      assert left <= x < right && top <= y < bottom;
    }
    if TileDiffers(a, b, width, height, left, top, right, bottom) {
      var y: nat :| top <= y < bottom && RowDiffers(a, b, width, height, left, right, y);
      var x :| left <= x < right && Differs(a, b, width, height, x, y);
      assert OfTile(width, height, tileX, tileY, x, y);
    }
    if x, y :| OfTile(width, height, tileX, tileY, x, y) && Differs(a, b, width, height, x, y) {
      assert RowDiffers(a, b, width, height, left, right, y);
    }
  }

  lemma BoundedIff(bounds: seq<Region>, left: nat, top: nat, right: nat, bottom: nat)
    requires forall i | 0 <= i < |bounds| :: bounds[i].width > 0 && bounds[i].height > 0
    requires left < right && top < bottom
    ensures Bounded(bounds, left, top, right, bottom)
            <==> exists x, y :: left <= x < right && top <= y < bottom && InRegions(bounds, x, y)
  {
    if i :| 0 <= i < |bounds| && Reaches(bounds[i], left, top, right, bottom) {
      var x, y := Max(bounds[i].x, left), Max(bounds[i].y, top);
      assert InRegion(bounds[i], x, y);
      assert left <= x < right && top <= y < bottom && InRegions(bounds, x, y);
    }
    if x, y :| left <= x < right && top <= y < bottom && InRegions(bounds, x, y) {
      var i :| 0 <= i < |bounds| && InRegion(bounds[i], x, y);
      assert Reaches(bounds[i], left, top, right, bottom);
    }
  }

  /** No pixel lies in two rectangles. */
  ghost predicate Disjoint(rs: seq<Region>) {
    forall i, j, x, y | 0 <= i < j < |rs| && InRegion(rs[i], x, y) :: !InRegion(rs[j], x, y)
  }

  function Area(rs: seq<Region>): nat {
    if rs == [] then 0 else Area(rs[..|rs| - 1]) + rs[|rs| - 1].width * rs[|rs| - 1].height
  }

  /** The rectangles found so far, with the run of tiles still growing counted as one. */
  function WithRun(rs: seq<Region>, run: Option<Region>): seq<Region> {
    if run.Some? then rs + [run.value] else rs
  }

  /** After every tile before column `edge` of the tile row `top..bottom`, and every tile row above,
      the rectangles hold exactly the dirty tiles' pixels. */
  ghost predicate Found(a: seq<byte>, b: seq<byte>, width: u16, height: u16, bounds: seq<Region>,
                        rs: seq<Region>, edge: nat, top: nat, bottom: nat)
    requires Framed(a, width, height) && Framed(b, width, height)
  {
    && Disjoint(rs)
    && (forall i | 0 <= i < |rs| :: InFrame(rs[i], width, height) && rs[i].width > 0 && rs[i].height > 0)
    && (forall x: nat, y: nat | x < width && y < height ::
          InRegions(rs, x, y) <==> (y < top || (y < bottom && x < edge))
                                   && TileDirty(a, b, width, height, bounds, x / TILE, y / TILE))
  }

  /** A rectangle joins a disjoint list when it replaces the last one and takes in no pixel
      another holds. */
  lemma DisjointWith(rs: seq<Region>, r: Option<Region>, s: Region)
    requires Disjoint(WithRun(rs, r))
    requires forall x, y | InRegion(s, x, y) && !(r.Some? && InRegion(r.value, x, y)) :: !InRegions(rs, x, y)
    ensures Disjoint(rs + [s])
  {
    var before, after := WithRun(rs, r), rs + [s];
    forall i, j, x, y | 0 <= i < j < |after| && InRegion(after[i], x, y)
      ensures !InRegion(after[j], x, y)
    {
      assert before[i] == rs[i] == after[i];
      assert InRegions(rs, x, y);
      if j < |rs| {
        assert before[j] == rs[j] == after[j];
      } else if r.Some? {
        assert before[j] == r.value;
      }
    }
  }

  /** One more dirty tile: the run grows over it, or starts with it. */
  lemma FoundDirty(a: seq<byte>, b: seq<byte>, width: u16, height: u16, bounds: seq<Region>, rs: seq<Region>,
                   r: Option<Region>, s: Region, tileX: nat, tileY: nat)
    requires Framed(a, width, height) && Framed(b, width, height)
    requires tileX * TILE < width && tileY * TILE < height
    requires Found(a, b, width, height, bounds, WithRun(rs, r), tileX * TILE, tileY * TILE,
                   Min(tileY * TILE + TILE, height))
    requires TileDirty(a, b, width, height, bounds, tileX, tileY)
    requires s.x + s.width == Min(tileX * TILE + TILE, width)
    requires s.y == tileY * TILE && s.y + s.height == Min(tileY * TILE + TILE, height)
    requires r.None? ==> s.x == tileX * TILE
    requires r.Some? ==> s.x == r.value.x < tileX * TILE == r.value.x + r.value.width
                         && r.value.y == s.y && r.value.height == s.height
    ensures Found(a, b, width, height, bounds, rs + [s], Min(tileX * TILE + TILE, width), tileY * TILE,
                  Min(tileY * TILE + TILE, height))
  {
    var before := WithRun(rs, r);
    forall x, y ensures InRegions(before, x, y) <==> InRegions(rs, x, y) || (r.Some? && InRegion(r.value, x, y)) {
      if r.Some? {
        RegionsPlus(rs, r.value, x, y);
      }
    }
    DisjointWith(rs, r, s);
    forall x: nat, y: nat | x < width && y < height
      ensures InRegions(rs + [s], x, y)
              <==> (y < tileY * TILE || (y < Min(tileY * TILE + TILE, height) && x < Min(tileX * TILE + TILE, width)))
                   && TileDirty(a, b, width, height, bounds, x / TILE, y / TILE)
    {
      RegionsPlus(rs, s, x, y);
      if InRegion(s, x, y) && !(r.Some? && InRegion(r.value, x, y)) {
        assert x / TILE == tileX && y / TILE == tileY;
      }
      if tileX * TILE <= x < Min(tileX * TILE + TILE, width) && tileY * TILE <= y < Min(tileY * TILE + TILE, height) {
        assert InRegion(s, x, y);
      }
    }
    forall i | 0 <= i < |rs + [s]|
      ensures InFrame((rs + [s])[i], width, height) && (rs + [s])[i].width > 0 && (rs + [s])[i].height > 0
    {
      if i < |rs| {
        assert before[i] == rs[i];
      }
    }
  }

  /** One more clean tile: nothing changes. */
  lemma FoundClean(a: seq<byte>, b: seq<byte>, width: u16, height: u16, bounds: seq<Region>, rs: seq<Region>,
                   tileX: nat, tileY: nat)
    requires Framed(a, width, height) && Framed(b, width, height)
    requires tileX * TILE < width && tileY * TILE < height
    requires Found(a, b, width, height, bounds, rs, tileX * TILE, tileY * TILE, Min(tileY * TILE + TILE, height))
    requires !TileDirty(a, b, width, height, bounds, tileX, tileY)
    ensures Found(a, b, width, height, bounds, rs, Min(tileX * TILE + TILE, width), tileY * TILE,
                  Min(tileY * TILE + TILE, height))
  {
    forall x: nat, y: nat | x < width && y < height && tileX * TILE <= x < tileX * TILE + TILE
                            && tileY * TILE <= y < tileY * TILE + TILE
      ensures x / TILE == tileX && y / TILE == tileY
    {
    }
  }

  lemma AreaPlus(rs: seq<Region>, r: Region)
    ensures Area(rs + [r]) == Area(rs) + r.width * r.height
  {
    assert (rs + [r])[..|rs|] == rs;
  }

  /** `region`. */
  function RegionOf(left: nat, top: nat, right: nat, bottom: nat): Region
    requires left <= right <= U16_MAX && top <= bottom <= U16_MAX
  {
    Region(left, top, right - left, bottom - top)
  }

  /** One tile: compared only where the bounds reach. */
  method CompareTile(previous: seq<byte>, current: seq<byte>, width: u16, height: u16, bounds: seq<Region>,
                     tileX: nat, tileY: nat) returns (differs: bool)
    requires Framed(previous, width, height) && Framed(current, width, height)
    requires tileX * TILE < width && tileY * TILE < height
    ensures differs <==> TileDirty(previous, current, width, height, bounds, tileX, tileY)
  {
    var left, top := tileX * TILE, tileY * TILE;
    var right, bottom := Min(left + TILE, width), Min(top + TILE, height);
    var bounded := Overlaps(bounds, left, top, right, bottom);
    differs := false;
    if bounded {
      differs := TileChanged(previous, current, width, height, left, top, right, bottom);
    }
  }

  /** One row of tiles: runs of adjacent dirty tiles become one rectangle each. */
  method TileRow(previous: seq<byte>, current: seq<byte>, width: u16, height: u16, bounds: seq<Region>,
                 tileY: nat, start: seq<Region>, before: nat) returns (regions: seq<Region>, changed: nat)
    requires Framed(previous, width, height) && Framed(current, width, height)
    requires tileY * TILE < height && before == Area(start)
    requires Found(previous, current, width, height, bounds, start, 0, tileY * TILE,
                   Min(tileY * TILE + TILE, height))
    ensures changed == Area(regions)
    ensures 128 * (|regions| - |start|) <= width + 127
    ensures Found(previous, current, width, height, bounds, regions, width, tileY * TILE,
                  Min(tileY * TILE + TILE, height))
  {
    var top := tileY * TILE;
    var bottom := Min(top + TILE, height);
    regions, changed := start, before;
    var run: Option<(nat, nat)> := None;
    var tileX := 0;
    while tileX * TILE < width
      invariant 0 <= tileX && (tileX > 0 ==> (tileX - 1) * TILE < width)
      invariant RowState(previous, current, width, height, bounds, tileX, tileY, |start|, regions, run, changed)
      decreases width - tileX * TILE
    {
      var differs := CompareTile(previous, current, width, height, bounds, tileX, tileY);
      regions, run, changed := NextTile(previous, current, width, height, bounds, tileX, tileY, |start|, regions, run,
                                        changed, differs);
      tileX := tileX + 1;
    }
    if run.Some? {
      AreaPlus(regions, RegionOf(run.value.0, top, run.value.1, bottom));
      changed := changed + (run.value.1 - run.value.0) * (bottom - top);
      regions := regions + [RegionOf(run.value.0, top, run.value.1, bottom)];
    }
  }

  /** Between two tiles of a row: the rectangles closed so far, and the run still open. */
  ghost predicate RowState(a: seq<byte>, b: seq<byte>, width: u16, height: u16, bounds: seq<Region>, tileX: nat,
                           tileY: nat, started: nat, regions: seq<Region>, run: Option<(nat, nat)>, changed: nat)
    requires Framed(a, width, height) && Framed(b, width, height) && tileY * TILE < height
  {
    && changed == Area(regions)
    && 128 * (|regions| - started) <= (if run.Some? then run.value.0 else tileX * TILE)
    && (run.Some? ==> run.value.0 + TILE <= tileX * TILE && run.value.0 < run.value.1 == Min(tileX * TILE, width))
    && Found(a, b, width, height, bounds,
             WithRun(regions, RunRegion(run, tileY * TILE, Min(tileY * TILE + TILE, height))),
             Min(tileX * TILE, width), tileY * TILE, Min(tileY * TILE + TILE, height))
  }

  /** What one tile does to the run: start it, extend it, or close it. */
  method NextTile(previous: seq<byte>, current: seq<byte>, width: u16, height: u16, bounds: seq<Region>, tileX: nat,
                  tileY: nat, ghost started: nat, before: seq<Region>, open: Option<(nat, nat)>, area: nat,
                  differs: bool) returns (regions: seq<Region>, run: Option<(nat, nat)>, changed: nat)
    requires Framed(previous, width, height) && Framed(current, width, height)
    requires tileX * TILE < width && tileY * TILE < height
    requires RowState(previous, current, width, height, bounds, tileX, tileY, started, before, open, area)
    requires differs <==> TileDirty(previous, current, width, height, bounds, tileX, tileY)
    ensures RowState(previous, current, width, height, bounds, tileX + 1, tileY, started, regions, run, changed)
  {
    if differs {
      regions, changed := before, area;
      run := ExtendRun(previous, current, width, height, bounds, tileX, tileY, started, before, open, area);
    } else {
      run := None;
      regions, changed := CloseRun(previous, current, width, height, bounds, tileX, tileY, started, before, open, area);
    }
  }

  method ExtendRun(previous: seq<byte>, current: seq<byte>, width: u16, height: u16, bounds: seq<Region>, tileX: nat,
                   tileY: nat, ghost started: nat, regions: seq<Region>, open: Option<(nat, nat)>, area: nat)
    returns (run: Option<(nat, nat)>)
    requires Framed(previous, width, height) && Framed(current, width, height)
    requires tileX * TILE < width && tileY * TILE < height
    requires RowState(previous, current, width, height, bounds, tileX, tileY, started, regions, open, area)
    requires TileDirty(previous, current, width, height, bounds, tileX, tileY)
    ensures RowState(previous, current, width, height, bounds, tileX + 1, tileY, started, regions, run, area)
  {
    var left, top := tileX * TILE, tileY * TILE;
    var right, bottom := Min(left + TILE, width), Min(top + TILE, height);
    var next := if open.Some? then (open.value.0, right) else (left, right);
    FoundDirty(previous, current, width, height, bounds, regions, RunRegion(open, top, bottom),
               RegionOf(next.0, top, next.1, bottom), tileX, tileY);
    run := Some(next);
  }

  method CloseRun(previous: seq<byte>, current: seq<byte>, width: u16, height: u16, bounds: seq<Region>, tileX: nat,
                  tileY: nat, ghost started: nat, before: seq<Region>, open: Option<(nat, nat)>, area: nat)
    returns (regions: seq<Region>, changed: nat)
    requires Framed(previous, width, height) && Framed(current, width, height)
    requires tileX * TILE < width && tileY * TILE < height
    requires RowState(previous, current, width, height, bounds, tileX, tileY, started, before, open, area)
    requires !TileDirty(previous, current, width, height, bounds, tileX, tileY)
    ensures RowState(previous, current, width, height, bounds, tileX + 1, tileY, started, regions, None, changed)
  {
    var top := tileY * TILE;
    var bottom := Min(top + TILE, height);
    regions, changed := before, area;
    FoundClean(previous, current, width, height, bounds, WithRun(regions, RunRegion(open, top, bottom)), tileX, tileY);
    if open.Some? {
      var closed := RegionOf(open.value.0, top, open.value.1, bottom);
      AreaPlus(regions, closed);
      changed := changed + (open.value.1 - open.value.0) * (bottom - top);
      regions := regions + [closed];
    }
  }

  function RunRegion(run: Option<(nat, nat)>, top: nat, bottom: nat): Option<Region>
    requires top <= bottom <= U16_MAX
    requires run.Some? ==> run.value.0 <= run.value.1 <= U16_MAX
  {
    if run.Some? then Some(RegionOf(run.value.0, top, run.value.1, bottom)) else None
  }

  /** Rectangles holding exactly the pixels of the dirty tiles, each once. */
  ghost predicate TilesFound(a: seq<byte>, b: seq<byte>, width: u16, height: u16, bounds: seq<Region>,
                             rs: seq<Region>)
    requires Framed(a, width, height) && Framed(b, width, height)
  {
    && Disjoint(rs)
    && (forall i | 0 <= i < |rs| :: InFrame(rs[i], width, height) && rs[i].width > 0 && rs[i].height > 0)
    && (forall x: nat, y: nat | x < width && y < height ::
          InRegions(rs, x, y) <==> TileDirty(a, b, width, height, bounds, x / TILE, y / TILE))
  }

  /** Every difference lies in some bound. */
  ghost predicate Within(a: seq<byte>, b: seq<byte>, width: u16, height: u16, bounds: seq<Region>)
    requires Framed(a, width, height) && Framed(b, width, height)
  {
    forall x, y | Differs(a, b, width, height, x, y) :: InRegions(bounds, x, y)
  }

  /** Frames that can be compared at all. */
  predicate Comparable(previous: Option<seq<byte>>, width: u16, height: u16) {
    previous.Some? && Framed(previous.value, width, height)
  }

  /** A pixel that differs inside the bounds is in a dirty tile. */
  lemma DifferenceIsDirty(a: seq<byte>, b: seq<byte>, width: u16, height: u16, bounds: seq<Region>, x: nat, y: nat)
    requires Framed(a, width, height) && Framed(b, width, height)
    requires Differs(a, b, width, height, x, y) && InRegions(bounds, x, y)
    ensures TileDirty(a, b, width, height, bounds, x / TILE, y / TILE)
  {
    var left, top := x / TILE * TILE, y / TILE * TILE;
    var right, bottom := Min(left + TILE, width), Min(top + TILE, height);
    assert left <= x < right && top <= y < bottom;
    var i :| 0 <= i < |bounds| && InRegion(bounds[i], x, y);
    assert Reaches(bounds[i], left, top, right, bottom);
    assert RowDiffers(a, b, width, height, left, right, y);
  }

  /** `changed_regions`. `found` is what the tile comparison found before deciding whether naming
      the rectangles still pays. */
  method ChangedRegions(previous: Option<seq<byte>>, current: seq<byte>, width: u16, height: u16,
                        bounds: seq<Region>) returns (regions: seq<Region>, ghost found: seq<Region>)
    requires Framed(current, width, height)
    ensures !Comparable(previous, width, height) ==> regions == [Region(0, 0, width, height)]
    ensures Comparable(previous, width, height) ==>
              TilesFound(previous.value, current, width, height, bounds, found)
    ensures Comparable(previous, width, height) && bounds == [] ==> regions == []
    ensures Comparable(previous, width, height) && bounds != [] ==>
              regions == if 2 * Area(found) >= width * height then [Region(0, 0, width, height)] else found
    ensures Comparable(previous, width, height) && Within(previous.value, current, width, height, bounds) ==>
              forall x, y | Differs(previous.value, current, width, height, x, y) :: InRegions(regions, x, y)
    ensures forall i | 0 <= i < |regions| :: InFrame(regions[i], width, height)
    ensures Disjoint(regions)
    ensures width <= 16384 && height <= 16384 ==> |regions| <= U16_MAX
  {
    var whole := [Region(0, 0, width, height)];
    found := [];
    if previous.None? || |previous.value| != |current| {
      return whole, found;
    }
    if bounds == [] {
      return [], found;
    }
    var changed;
    regions, changed := CompareTiles(previous.value, current, width, height, bounds);
    found := regions;
    FoundCovers(previous.value, current, width, height, bounds, found);
    if changed * WHOLESALE_TILES >= width * height {
      WholeCovers(width, height);
      return whole, found;
    }
    return regions, found;
  }

  lemma FoundCovers(a: seq<byte>, b: seq<byte>, width: u16, height: u16, bounds: seq<Region>, found: seq<Region>)
    requires Framed(a, width, height) && Framed(b, width, height)
    requires TilesFound(a, b, width, height, bounds, found)
    ensures Within(a, b, width, height, bounds) ==>
              forall x, y | Differs(a, b, width, height, x, y) :: InRegions(found, x, y)
  {
    if Within(a, b, width, height, bounds) {
      forall x, y | Differs(a, b, width, height, x, y) ensures InRegions(found, x, y) {
        DifferenceIsDirty(a, b, width, height, bounds, x, y);
      }
    }
  }

  lemma WholeCovers(width: u16, height: u16)
    ensures forall x, y | 0 <= x < width && 0 <= y < height :: InRegions([Region(0, 0, width, height)], x, y)
  {
    forall x, y | 0 <= x < width && 0 <= y < height ensures InRegions([Region(0, 0, width, height)], x, y) {
      assert InRegion([Region(0, 0, width, height)][0], x, y);
    }
  }

  /** Every row of tiles, from the top. */
  method CompareTiles(previous: seq<byte>, current: seq<byte>, width: u16, height: u16, bounds: seq<Region>)
    returns (regions: seq<Region>, changed: nat)
    requires Framed(previous, width, height) && Framed(current, width, height)
    ensures TilesFound(previous, current, width, height, bounds, regions)
    ensures changed == Area(regions)
    ensures width <= 16384 && height <= 16384 ==> |regions| <= U16_MAX
  {
    regions, changed := [], 0;
    var tileY := 0;
    while tileY * TILE < height
      invariant 0 <= tileY && (tileY > 0 ==> (tileY - 1) * TILE < height)
      invariant changed == Area(regions)
      invariant width <= 16384 ==> |regions| <= 129 * tileY
      invariant Found(previous, current, width, height, bounds, regions, 0, Min(tileY * TILE, height),
                      Min(tileY * TILE + TILE, height))
      decreases height - tileY * TILE
    {
      regions, changed := TileRow(previous, current, width, height, bounds, tileY, regions, changed);
      tileY := tileY + 1;
    }
  }
}
