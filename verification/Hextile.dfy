/** Hextile, in both directions: the decoder of section 7.7.4 of RFC 6143, and the encoder the
    server uses, which the decoder undoes. */
module Hextile {
  import opened Basics
  import opened VncFrame

  const SIDE := 16
  const MAX_SUBRECTS := 255

  /** The colour at a row and column of the square being encoded. */
  type Cells = (int, int) -> Colour

  /** One colour laid out as the viewer's pixel format wants it. */
  type Wire = Colour -> seq<byte>

  ghost predicate WireOf(wire: Wire, size: nat) {
    forall c :: |wire(c)| == size
  }

  /** A decoded square: the pixel value at each column and row. */
  type Tile = map<(int, int), seq<byte>>

  function Places(wide: nat, tall: nat): set<(int, int)> {
    set x, y | 0 <= x < wide && 0 <= y < tall :: (x, y)
  }

  /** The square a viewer should end up with. */
  function Wanted(at: Cells, wide: nat, tall: nat, wire: Wire): Tile {
    map c | c in Places(wide, tall) :: wire(at(c.1, c.0))
  }

  // ----- the decoder -----

  datatype Decoded = Decoded(tile: Tile, rest: seq<byte>, background: Option<seq<byte>>, foreground: Option<seq<byte>>)

  function TakePixel(bytes: seq<byte>, size: nat): Option<(seq<byte>, seq<byte>)> {
    if |bytes| < size then None else Some((bytes[..size], bytes[size..]))
  }

  function PaintRect(tile: Tile, x: int, y: int, w: int, h: int, value: seq<byte>): Tile {
    map c | c in tile :: if x <= c.0 < x + w && y <= c.1 < y + h then value else tile[c]
  }

  /** The subrectangles that follow their count. */
  function DecodeSubrects(tile: Tile, bytes: seq<byte>, count: nat, wide: nat, tall: nat, size: nat,
                          foreground: Option<seq<byte>>, coloured: bool): Option<(Tile, seq<byte>)>
    decreases count
  {
    if count == 0 then Some((tile, bytes))
    else
      var taken := if coloured then TakePixel(bytes, size)
                   else if foreground.Some? then Some((foreground.value, bytes)) else None;
      if taken.None? || |taken.value.1| < 2 then None
      else
        var (value, body) := taken.value;
        var x, y, w, h := body[0] / 16, body[0] % 16, body[1] / 16 + 1, body[1] % 16 + 1;
        if x + w > wide || y + h > tall then None
        else DecodeSubrects(PaintRect(tile, x, y, w, h, value), body[2..], count - 1, wide, tall, size,
                            foreground, coloured)
  }

  /** One square: a mask byte, then what the mask says. A raw square carries neither background
      nor foreground over to the next. */
  function DecodeSquare(bytes: seq<byte>, wide: nat, tall: nat, size: nat, background: Option<seq<byte>>,
                        foreground: Option<seq<byte>>): Option<Decoded>
  {
    if bytes == [] then None
    else if bytes[0] % 2 == 1 then DecodeRaw(bytes[1..], wide, tall, size)
    else
      var back := if bytes[0] / 2 % 2 == 1 then TakePixel(bytes[1..], size)
                  else if background.Some? then Some((background.value, bytes[1..])) else None;
      if back.None? then None
      else DecodeFore(bytes[0], back.value.1, wide, tall, size, back.value.0, foreground)
  }

  /** A square after its background: the foreground, if the mask says one follows. */
  function DecodeFore(mask: byte, bytes: seq<byte>, wide: nat, tall: nat, size: nat, background: seq<byte>,
                      foreground: Option<seq<byte>>): Option<Decoded>
  {
    if mask / 4 % 2 == 1 then
      var fore := TakePixel(bytes, size);
      if fore.None? then None
      else DecodeRects(mask, fore.value.1, wide, tall, size, background, Some(fore.value.0))
    else DecodeRects(mask, bytes, wide, tall, size, background, foreground)
  }

  /** A square after its colours: the subrectangles, if the mask says there are any. */
  function DecodeRects(mask: byte, bytes: seq<byte>, wide: nat, tall: nat, size: nat, background: seq<byte>,
                       foreground: Option<seq<byte>>): Option<Decoded>
  {
    if mask / 8 % 2 == 0 then Some(Decoded(Plain(wide, tall, background), bytes, Some(background), foreground))
    else if bytes == [] then None
    else
      var painted := DecodeSubrects(Plain(wide, tall, background), bytes[1..], bytes[0], wide, tall, size,
                                    foreground, mask / 16 % 2 == 1);
      if painted.None? then None
      else Some(Decoded(painted.value.0, painted.value.1, Some(background), foreground))
  }

  function Plain(wide: nat, tall: nat, value: seq<byte>): Tile {
    map c | c in Places(wide, tall) :: value
  }

  lemma RawIndex(wide: nat, tall: nat, size: nat, x: nat, y: nat)
    requires x < wide && y < tall
    ensures (y * wide + x) * size + size <= wide * tall * size
    ensures y * wide + x < wide * tall
  {
    MulMonotone(y + 1, tall, wide);
    MulMonotone(y * wide + x + 1, wide * tall, size);
  }

  /** The bytes of the pixel at `x`, `y` of rows sent one after another. */
  function CellBytes(body: seq<byte>, wide: nat, size: nat, x: int, y: int): seq<byte> {
    var from := (y * wide + x) * size;
    if 0 <= from && from + size <= |body| then body[from..from + size] else []
  }

  function RawSize(wide: nat, tall: nat, size: nat): nat {
    wide * tall * size
  }

  function DecodeRaw(body: seq<byte>, wide: nat, tall: nat, size: nat): Option<Decoded> {
    var length := RawSize(wide, tall, size);
    if |body| < length then None
    else Some(Decoded(map c | c in Places(wide, tall) :: CellBytes(body, wide, size, c.0, c.1), body[length..], None, None))
  }

  // ----- runs of the second colour -----

  datatype Run = Run(row: nat, start: nat, span: nat)

  predicate InRun(r: Run, row: int, column: int) {
    r.row == row && r.start <= column < r.start + r.span
  }

  ghost predicate InRuns(runs: seq<Run>, row: int, column: int) {
    exists i :: 0 <= i < |runs| && InRun(runs[i], row, column)
  }

  lemma RunsPlus(runs: seq<Run>, r: Run)
    ensures forall row, column :: InRuns(runs + [r], row, column) <==> InRuns(runs, row, column) || InRun(r, row, column)
  {
    forall row, column
      ensures InRuns(runs + [r], row, column) <==> InRuns(runs, row, column) || InRun(r, row, column)
    {
      var all := runs + [r];
      if i :| 0 <= i < |runs| && InRun(runs[i], row, column) {
        assert all[i] == runs[i];
      }
      assert all[|runs|] == r;
    }
  }

  ghost predicate RunsFit(runs: seq<Run>, wide: nat, tall: nat) {
    forall i | 0 <= i < |runs| :: runs[i].row < tall && runs[i].span > 0 && runs[i].start + runs[i].span <= wide
  }

  ghost predicate RunsDisjoint(runs: seq<Run>) {
    forall i, j, row, column | 0 <= i < j < |runs| && InRun(runs[i], row, column) :: !InRun(runs[j], row, column)
  }

  /** The runs of one row, after those of the rows above. */
  method RowRuns(at: Cells, row: nat, wide: nat, tall: nat, background: Colour, above: seq<Run>)
    returns (runs: seq<Run>)
    requires row < tall && wide <= SIDE && |above| <= 8 * row
    requires RunsFit(above, wide, tall) && RunsDisjoint(above)
    requires forall r, c | 0 <= c < wide :: InRuns(above, r, c) <==> 0 <= r < row && at(r, c) != background
    requires forall r, c | InRuns(above, r, c) :: 0 <= r < row
    ensures |runs| <= 8 * (row + 1)
    ensures RunsFit(runs, wide, tall) && RunsDisjoint(runs)
    ensures forall r, c | 0 <= c < wide :: InRuns(runs, r, c) <==> 0 <= r <= row && at(r, c) != background
    ensures forall r, c | InRuns(runs, r, c) :: 0 <= r <= row
  {
    runs := above;
    var start: Option<nat> := None;
    var column := 0;
    while column < wide
      invariant 0 <= column <= wide
      invariant start.Some? ==> start.value < column && forall c | start.value <= c < column :: at(row, c) != background
      invariant 2 * (|runs| - |above|) <= if start.Some? then start.value else column
      invariant RunsFit(runs, wide, tall) && RunsDisjoint(runs)
      invariant forall r, c | 0 <= c < wide ::
                  InRuns(runs, r, c) <==>
                  (0 <= r < row || (r == row && c < (if start.Some? then start.value else column)))
                  && at(r, c) != background
      invariant forall r, c | InRuns(runs, r, c) :: 0 <= r <= row && c < wide
    {
      if at(row, column) != background {
        if start.None? {
          start := Some(column);
        }
      } else if start.Some? {
        RunsPlus(runs, Run(row, start.value, column - start.value));
        JoinRun(runs, Run(row, start.value, column - start.value));
        runs := runs + [Run(row, start.value, column - start.value)];
        start := None;
      }
      column := column + 1;
    }
    if start.Some? {
      RunsPlus(runs, Run(row, start.value, wide - start.value));
      JoinRun(runs, Run(row, start.value, wide - start.value));
      runs := runs + [Run(row, start.value, wide - start.value)];
    }
  }

  lemma JoinRun(runs: seq<Run>, r: Run)
    requires RunsDisjoint(runs)
    requires forall row, column | InRun(r, row, column) :: !InRuns(runs, row, column)
    ensures RunsDisjoint(runs + [r])
  {
    var all := runs + [r];
    forall i, j, row, column | 0 <= i < j < |all| && InRun(all[i], row, column) ensures !InRun(all[j], row, column) {
      assert all[i] == runs[i] && InRuns(runs, row, column);
      if j < |runs| {
        assert all[j] == runs[j];
      }
    }
  }

  /** `foreground_runs`: disjoint row runs covering exactly the cells that are not background,
      never more than eight a row. */
  method ForegroundRuns(at: Cells, wide: nat, tall: nat, background: Colour) returns (runs: seq<Run>)
    requires wide <= SIDE && tall <= SIDE
    ensures RunsFit(runs, wide, tall) && RunsDisjoint(runs) && |runs| <= 8 * tall
    ensures forall row, column | 0 <= row < tall && 0 <= column < wide ::
              InRuns(runs, row, column) <==> at(row, column) != background
  {
    runs := [];
    var row := 0;
    while row < tall
      invariant 0 <= row <= tall && |runs| <= 8 * row
      invariant RunsFit(runs, wide, tall) && RunsDisjoint(runs)
      invariant forall r, c | 0 <= c < wide :: InRuns(runs, r, c) <==> 0 <= r < row && at(r, c) != background
      invariant forall r, c | InRuns(runs, r, c) :: 0 <= r < row
    {
      runs := RowRuns(at, row, wide, tall, background, runs);
      row := row + 1;
    }
  }

  // ----- the encoder -----

  /** The two bytes of each run: place, then extent. A run is one row tall. */
  function RunBytes(runs: seq<Run>, wide: nat, tall: nat): (bytes: seq<byte>)
    requires RunsFit(runs, wide, tall) && wide <= SIDE && tall <= SIDE
    ensures |bytes| == 2 * |runs|
  {
    if runs == [] then []
    else [runs[0].start * 16 + runs[0].row, (runs[0].span - 1) * 16] + RunBytes(runs[1..], wide, tall)
  }

  /** Section 7.7.4: of the first byte of a subrectangle the high four bits are its column and the low four
      its row; of the second, one less than its width and one less than its height. */
  lemma {:induction false} RunBytesAre(runs: seq<Run>, wide: nat, tall: nat, i: nat)
    requires RunsFit(runs, wide, tall) && wide <= SIDE && tall <= SIDE && i < |runs|
    ensures var bytes := RunBytes(runs, wide, tall);
            && bytes[2 * i] as int == 16 * runs[i].start + runs[i].row && runs[i].row < 16
            && bytes[2 * i + 1] as int == 16 * (runs[i].span - 1)
  {
    if i > 0 {
      RunBytesAre(runs[1..], wide, tall, i - 1);
    }
  }

  function PaintRuns(tile: Tile, runs: seq<Run>, value: seq<byte>): Tile {
    if runs == [] then tile
    else PaintRuns(PaintRect(tile, runs[0].start, runs[0].row, runs[0].span, 1, value), runs[1..], value)
  }

  lemma InRunsHead(runs: seq<Run>, row: int, column: int)
    requires runs != []
    ensures InRuns(runs, row, column) <==> InRun(runs[0], row, column) || InRuns(runs[1..], row, column)
  {
    if InRuns(runs[1..], row, column) {
      var i :| 0 <= i < |runs| - 1 && InRun(runs[1..][i], row, column);
      assert runs[i + 1] == runs[1..][i];
    }
    if InRuns(runs, row, column) && !InRun(runs[0], row, column) {
      var i :| 0 <= i < |runs| && InRun(runs[i], row, column);
      assert runs[1..][i - 1] == runs[i];
    }
  }

  lemma {:induction false} PaintedCell(tile: Tile, runs: seq<Run>, value: seq<byte>, c: (int, int))
    requires c in tile
    ensures c in PaintRuns(tile, runs, value)
    ensures PaintRuns(tile, runs, value)[c] == if InRuns(runs, c.1, c.0) then value else tile[c]
    decreases |runs|
  {
    if runs != [] {
      InRunsHead(runs, c.1, c.0);
      PaintedCell(PaintRect(tile, runs[0].start, runs[0].row, runs[0].span, 1, value), runs[1..], value, c);
    }
  }

  lemma {:induction false} PaintedPlaces(tile: Tile, runs: seq<Run>, value: seq<byte>)
    ensures PaintRuns(tile, runs, value).Keys == tile.Keys
    decreases |runs|
  {
    if runs != [] {
      var next := PaintRect(tile, runs[0].start, runs[0].row, runs[0].span, 1, value);
      assert next.Keys == tile.Keys;
      PaintedPlaces(next, runs[1..], value);
    }
  }

  lemma Nibbles(high: nat, low: nat)
    requires low < 16
    ensures (high * 16 + low) / 16 == high && (high * 16 + low) % 16 == low
  {
  }

  lemma SubrectStep(tile: Tile, bytes: seq<byte>, count: nat, wide: nat, tall: nat, size: nat, value: seq<byte>, r: Run)
    requires count > 0 && |bytes| >= 2 && r.row < tall && r.start + r.span <= wide
    requires bytes[0] / 16 == r.start && bytes[0] % 16 == r.row && bytes[1] / 16 + 1 == r.span && bytes[1] % 16 == 0
    ensures DecodeSubrects(tile, bytes, count, wide, tall, size, Some(value), false)
            == DecodeSubrects(PaintRect(tile, r.start, r.row, r.span, 1, value), bytes[2..], count - 1, wide, tall, size,
                              Some(value), false)
  {
  }

  /** The decoder paints the runs the encoder wrote, and stops where they end. */
  lemma {:induction false} RunsDecode(tile: Tile, runs: seq<Run>, wide: nat, tall: nat, size: nat,
                                      value: seq<byte>, bytes: seq<byte>, rest: seq<byte>)
    requires RunsFit(runs, wide, tall) && wide <= SIDE && tall <= SIDE
    requires bytes == RunBytes(runs, wide, tall) + rest
    ensures DecodeSubrects(tile, bytes, |runs|, wide, tall, size, Some(value), false)
            == Some((PaintRuns(tile, runs, value), rest))
    decreases |runs|
  {
    if runs == [] {
      assert bytes == rest;
    } else {
      var r := runs[0];
      assert bytes[0] == r.start * 16 + r.row && bytes[1] == (r.span - 1) * 16;
      Nibbles(r.start, r.row);
      Nibbles(r.span - 1, 0);
      assert bytes[2..] == RunBytes(runs[1..], wide, tall) + rest;
      SubrectStep(tile, bytes, |runs|, wide, tall, size, value, r);
      RunsDecode(PaintRect(tile, r.start, r.row, r.span, 1, value), runs[1..], wide, tall, size, value,
                 bytes[2..], rest);
    }
  }

  /** The pixels of the first `count` cells, row by row. */
  function RawBytes(at: Cells, wide: nat, wire: Wire, count: nat): seq<byte>
    requires wide > 0
  {
    if count == 0 then []
    else RawBytes(at, wide, wire, count - 1) + wire(at((count - 1) / wide, (count - 1) % wide))
  }

  lemma {:induction false} RawLength(at: Cells, wide: nat, wire: Wire, size: nat, count: nat)
    requires wide > 0 && WireOf(wire, size)
    ensures |RawBytes(at, wide, wire, count)| == count * size
  {
    if count > 0 {
      RawLength(at, wide, wire, size, count - 1);
    }
  }

  lemma {:induction false} RawPixel(at: Cells, wide: nat, wire: Wire, size: nat, count: nat, i: nat)
    requires wide > 0 && WireOf(wire, size) && i < count
    ensures i * size + size <= |RawBytes(at, wide, wire, count)|
    ensures RawBytes(at, wide, wire, count)[i * size..i * size + size] == wire(at(i / wide, i % wide))
  {
    RawLength(at, wide, wire, size, count);
    RawLength(at, wide, wire, size, count - 1);
    MulMonotone(i + 1, count, size);
    var shorter := RawBytes(at, wide, wire, count - 1);
    if i < count - 1 {
      MulMonotone(i + 1, count - 1, size);
      RawPixel(at, wide, wire, size, count - 1, i);
      assert RawBytes(at, wide, wire, count)[i * size..i * size + size] == shorter[i * size..i * size + size];
    }
  }

  /** A piece of the message is one square exactly when the decoder, given any message starting
      with it, reads the wanted square, stops at its end, and carries these colours on. */
  ghost predicate Reads(piece: seq<byte>, at: Cells, wide: nat, tall: nat, wire: Wire, size: nat,
                        background: Option<seq<byte>>, foreground: Option<seq<byte>>,
                        nextBackground: Option<seq<byte>>, nextForeground: Option<seq<byte>>)
  {
    forall whole: seq<byte> | piece <= whole ::
      DecodeSquare(whole, wide, tall, size, background, foreground)
      == Some(Decoded(Wanted(at, wide, tall, wire), whole[|piece|..], nextBackground, nextForeground))
  }

  /** A raw square reads back. */
  lemma RawReads(at: Cells, wide: nat, tall: nat, wire: Wire, size: nat, background: Option<seq<byte>>,
                 foreground: Option<seq<byte>>, piece: seq<byte>)
    requires wide > 0 && WireOf(wire, size)
    requires piece == [1] + RawBytes(at, wide, wire, wide * tall)
    ensures Reads(piece, at, wide, tall, wire, size, background, foreground, None, None)
  {
    var raw := RawBytes(at, wide, wire, wide * tall);
    RawLength(at, wide, wire, size, wide * tall);
    forall whole: seq<byte> | piece <= whole
      ensures DecodeSquare(whole, wide, tall, size, background, foreground)
              == Some(Decoded(Wanted(at, wide, tall, wire), whole[|piece|..], None, None))
    {
      assert whole[0] == 1 && whole[1..][..|raw|] == raw;
      RawTile(at, wide, tall, wire, size, whole[1..]);
      assert whole[1..][|raw|..] == whole[|piece|..];
    }
  }

  lemma RawTile(at: Cells, wide: nat, tall: nat, wire: Wire, size: nat, body: seq<byte>)
    requires wide > 0 && WireOf(wire, size)
    requires |body| >= wide * tall * size && body[..wide * tall * size] == RawBytes(at, wide, wire, wide * tall)
    ensures DecodeRaw(body, wide, tall, size)
            == Some(Decoded(Wanted(at, wide, tall, wire), body[wide * tall * size..], None, None))
  {
    var tile := DecodeRaw(body, wide, tall, size).value.tile;
    forall c | c in Places(wide, tall) ensures tile[c] == wire(at(c.1, c.0)) {
      RawCell(at, wide, tall, wire, size, body, c.0, c.1, c.1 * wide + c.0);
      assert tile[c] == CellBytes(body, wide, size, c.0, c.1);
    }
    assert tile == Wanted(at, wide, tall, wire);
  }

  lemma RowColumn(wide: nat, x: nat, y: nat)
    requires x < wide
    ensures (y * wide + x) / wide == y && (y * wide + x) % wide == x
  {
    var i := y * wide + x;
    assert i == wide * (i / wide) + i % wide;
    if i / wide < y {
      MulMonotone(i / wide + 1, y, wide);
    } else if i / wide > y {
      MulMonotone(y + 1, i / wide, wide);
    }
  }

  lemma RawCell(at: Cells, wide: nat, tall: nat, wire: Wire, size: nat, body: seq<byte>, x: nat, y: nat, i: nat)
    requires wide > 0 && WireOf(wire, size) && x < wide && y < tall && i == y * wide + x
    requires |body| >= wide * tall * size && body[..wide * tall * size] == RawBytes(at, wide, wire, wide * tall)
    ensures i * size + size <= |body| && body[i * size..i * size + size] == wire(at(y, x))
  {
    RowColumn(wide, x, y);
    RawIndex(wide, tall, size, x, y);
    RawCellOf(at, wide, wire, size, body, i, wide * tall, wide * tall * size, i * size);
  }

  lemma RawCellOf(at: Cells, wide: nat, wire: Wire, size: nat, body: seq<byte>, i: nat, count: nat, total: nat, from: nat)
    requires wide > 0 && WireOf(wire, size) && i < count && from == i * size && from + size <= total <= |body|
    requires body[..total] == RawBytes(at, wide, wire, count)
    ensures body[from..from + size] == wire(at(i / wide, i % wide))
  {
    RawPixel(at, wide, wire, size, count, i);
    SubSlice(body, total, from, from + size);
  }

  lemma SubSlice(bytes: seq<byte>, n: nat, from: nat, to: nat)
    requires from <= to <= n <= |bytes|
    ensures bytes[..n][from..to] == bytes[from..to]
  {
  }

  /** A square of one colour reads back from its background alone. */
  lemma FlatReads(at: Cells, wide: nat, tall: nat, wire: Wire, size: nat, background: Option<seq<byte>>,
                  foreground: Option<seq<byte>>, colour: Colour, piece: seq<byte>)
    requires WireOf(wire, size) && piece == [2] + wire(colour)
    requires forall row, column | 0 <= row < tall && 0 <= column < wide :: at(row, column) == colour
    ensures Reads(piece, at, wide, tall, wire, size, background, foreground, Some(wire(colour)), foreground)
  {
    forall whole: seq<byte> | piece <= whole
      ensures DecodeSquare(whole, wide, tall, size, background, foreground)
              == Some(Decoded(Wanted(at, wide, tall, wire), whole[|piece|..], Some(wire(colour)), foreground))
    {
      assert whole[0] == 2 && whole[1..][..size] == wire(colour) && whole[1..][size..] == whole[|piece|..];
      assert Plain(wide, tall, wire(colour)) == Wanted(at, wide, tall, wire);
    }
  }

  /** A square of two colours reads back from a background, a foreground and the runs. */
  lemma TwoColourReads(at: Cells, wide: nat, tall: nat, wire: Wire, size: nat, background: Option<seq<byte>>,
                       foreground: Option<seq<byte>>, first: Colour, second: Colour, runs: seq<Run>,
                       piece: seq<byte>)
    requires WireOf(wire, size) && wide <= SIDE && tall <= SIDE
    requires RunsFit(runs, wide, tall) && |runs| <= MAX_SUBRECTS
    requires forall row, column | 0 <= row < tall && 0 <= column < wide ::
               && (at(row, column) == first || at(row, column) == second)
               && (InRuns(runs, row, column) <==> at(row, column) != first)
    requires piece == [14] + wire(first) + wire(second) + [|runs|] + RunBytes(runs, wide, tall)
    ensures Reads(piece, at, wide, tall, wire, size, background, foreground, Some(wire(first)), Some(wire(second)))
  {
    RunsPaintWanted(at, wide, tall, wire, first, second, runs);
    forall whole: seq<byte> | piece <= whole
      ensures DecodeSquare(whole, wide, tall, size, background, foreground)
              == Some(Decoded(Wanted(at, wide, tall, wire), whole[|piece|..], Some(wire(first)), Some(wire(second))))
    {
      var rest := whole[|piece|..];
      var body := RunBytes(runs, wide, tall) + rest;
      Reassociate(wire(first), wire(second), |runs|, RunBytes(runs, wide, tall), rest, piece, whole);
      TwoColourDecode(wide, tall, size, background, foreground, wire(first), wire(second), runs, body, rest,
                      Wanted(at, wide, tall, wire));
    }
  }

  lemma Reassociate(first: seq<byte>, second: seq<byte>, count: byte, runBytes: seq<byte>, rest: seq<byte>,
                    piece: seq<byte>, whole: seq<byte>)
    requires piece == [14] + first + second + [count] + runBytes
    requires piece <= whole && rest == whole[|piece|..]
    ensures whole == [14] + (first + (second + ([count] + (runBytes + rest))))
  {
    assert whole == piece + rest;
  }

  lemma RunsPaintWanted(at: Cells, wide: nat, tall: nat, wire: Wire, first: Colour, second: Colour, runs: seq<Run>)
    requires forall row, column | 0 <= row < tall && 0 <= column < wide ::
               && (at(row, column) == first || at(row, column) == second)
               && (InRuns(runs, row, column) <==> at(row, column) != first)
    ensures PaintRuns(Plain(wide, tall, wire(first)), runs, wire(second)) == Wanted(at, wide, tall, wire)
  {
    var plain := Plain(wide, tall, wire(first));
    var painted := PaintRuns(plain, runs, wire(second));
    PaintedPlaces(plain, runs, wire(second));
    forall c | c in Places(wide, tall) ensures painted[c] == wire(at(c.1, c.0)) {
      PaintedCell(plain, runs, wire(second), c);
    }
  }

  lemma TakeFirst(value: seq<byte>, rest: seq<byte>)
    ensures TakePixel(value + rest, |value|) == Some((value, rest))
  {
    assert (value + rest)[..|value|] == value && (value + rest)[|value|..] == rest;
  }

  /** A mask saying background, foreground and subrectangles, then the two colours. */
  lemma ColoursDecode(wide: nat, tall: nat, size: nat, background: Option<seq<byte>>, foreground: Option<seq<byte>>,
                      first: seq<byte>, second: seq<byte>, tail: seq<byte>)
    requires |first| == size && |second| == size
    ensures DecodeSquare([14] + (first + (second + tail)), wide, tall, size, background, foreground)
            == DecodeRects(14, tail, wide, tall, size, first, Some(second))
  {
    TakeFirst(first, second + tail);
    ForeDecode(wide, tall, size, first, foreground, second, tail);
    var whole := [14] + (first + (second + tail));
    assert whole[1..] == first + (second + tail);
    BackDecode(whole, wide, tall, size, background, foreground, first, second + tail);
  }

  lemma BackDecode(whole: seq<byte>, wide: nat, tall: nat, size: nat, background: Option<seq<byte>>,
                   foreground: Option<seq<byte>>, first: seq<byte>, rest: seq<byte>)
    requires |whole| > 0 && whole[0] == 14 && TakePixel(whole[1..], size) == Some((first, rest))
    ensures DecodeSquare(whole, wide, tall, size, background, foreground)
            == DecodeFore(14, rest, wide, tall, size, first, foreground)
  {
  }

  lemma ForeDecode(wide: nat, tall: nat, size: nat, background: seq<byte>, foreground: Option<seq<byte>>,
                   second: seq<byte>, tail: seq<byte>)
    requires |second| == size
    ensures DecodeFore(14, second + tail, wide, tall, size, background, foreground)
            == DecodeRects(14, tail, wide, tall, size, background, Some(second))
  {
    TakeFirst(second, tail);
  }

  lemma CountDecode(wide: nat, tall: nat, size: nat, first: seq<byte>, second: seq<byte>, count: byte,
                    body: seq<byte>, tile: Tile, rest: seq<byte>)
    requires DecodeSubrects(Plain(wide, tall, first), body, count, wide, tall, size, Some(second), false)
             == Some((tile, rest))
    ensures DecodeRects(14, [count] + body, wide, tall, size, first, Some(second))
            == Some(Decoded(tile, rest, Some(first), Some(second)))
  {
    assert ([count] + body)[1..] == body;
  }

  lemma TwoColourDecode(wide: nat, tall: nat, size: nat, background: Option<seq<byte>>,
                        foreground: Option<seq<byte>>, first: seq<byte>, second: seq<byte>, runs: seq<Run>,
                        body: seq<byte>, rest: seq<byte>, tile: Tile)
    requires |first| == size && |second| == size && wide <= SIDE && tall <= SIDE
    requires RunsFit(runs, wide, tall) && |runs| <= MAX_SUBRECTS
    requires body == RunBytes(runs, wide, tall) + rest
    requires tile == PaintRuns(Plain(wide, tall, first), runs, second)
    ensures DecodeSquare([14] + (first + (second + ([|runs|] + body))), wide, tall, size, background, foreground)
            == Some(Decoded(tile, rest, Some(first), Some(second)))
  {
    RunsDecode(Plain(wide, tall, first), runs, wide, tall, size, second, body, rest);
    CountDecode(wide, tall, size, first, second, |runs|, body, tile, rest);
    ColoursDecode(wide, tall, size, background, foreground, first, second, [|runs|] + body);
  }

  /** Every pixel of a rectangle of cells, row by row. */
  method WriteCells(at: Cells, wide: nat, tall: nat, wire: Wire) returns (piece: seq<byte>)
    requires wide > 0
    ensures piece == RawBytes(at, wide, wire, wide * tall)
  {
    piece := [];
    var row := 0;
    while row < tall
      invariant 0 <= row <= tall
      invariant piece == RawBytes(at, wide, wire, row * wide)
    {
      piece := WriteCellRow(at, wide, row, wire, piece, row * wide);
      assert row * wide + wide == (row + 1) * wide;
      row := row + 1;
    }
    assert row * wide == wide * tall;
  }

  method WriteCellRow(at: Cells, wide: nat, row: nat, wire: Wire, start: seq<byte>, ghost before: nat)
    returns (piece: seq<byte>)
    requires wide > 0 && before == row * wide && start == RawBytes(at, wide, wire, before)
    ensures piece == RawBytes(at, wide, wire, before + wide)
  {
    piece := start;
    var column := 0;
    while column < wide
      invariant 0 <= column <= wide
      invariant piece == RawBytes(at, wide, wire, before + column)
    {
      RowColumn(wide, column, row);
      piece := piece + wire(at(row, column));
      column := column + 1;
    }
  }

  /** The first cell in row order whose colour is not `background`. */
  method OtherColour(at: Cells, wide: nat, tall: nat, background: Colour) returns (other: Option<Colour>)
    ensures other.None? ==> forall row, column | 0 <= row < tall && 0 <= column < wide :: at(row, column) == background
    ensures other.Some? ==> other.value != background
    ensures other.Some? ==> exists row, column :: 0 <= row < tall && 0 <= column < wide && at(row, column) == other.value
  {
    var row := 0;
    while row < tall
      invariant 0 <= row <= tall
      invariant forall r, c | 0 <= r < row && 0 <= c < wide :: at(r, c) == background
    {
      var column := 0;
      while column < wide
        invariant 0 <= column <= wide
        invariant forall c | 0 <= c < column :: at(row, c) == background
      {
        if at(row, column) != background {
          return Some(at(row, column));
        }
        column := column + 1;
      }
      row := row + 1;
    }
    return None;
  }

  method OnlyColours(at: Cells, wide: nat, tall: nat, first: Colour, second: Colour) returns (only: bool)
    ensures only <==> forall row, column | 0 <= row < tall && 0 <= column < wide ::
                        at(row, column) == first || at(row, column) == second
  {
    var row := 0;
    while row < tall
      invariant 0 <= row <= tall
      invariant forall r, c | 0 <= r < row && 0 <= c < wide :: at(r, c) == first || at(r, c) == second
    {
      var column := 0;
      while column < wide
        invariant 0 <= column <= wide
        invariant forall c | 0 <= c < column :: at(row, c) == first || at(row, c) == second
      {
        if at(row, column) != first && at(row, column) != second {
          return false;
        }
        column := column + 1;
      }
      row := row + 1;
    }
    return true;
  }

  /** Every cell of a square is of its first colour, or of that and one other. */
  ghost predicate OneColour(at: Cells, wide: nat, tall: nat) {
    forall row, column | 0 <= row < tall && 0 <= column < wide :: at(row, column) == at(0, 0)
  }

  ghost predicate TwoColours(at: Cells, wide: nat, tall: nat) {
    exists r, c :: && 0 <= r < tall && 0 <= c < wide
                   && forall row, column | 0 <= row < tall && 0 <= column < wide ::
                        at(row, column) == at(0, 0) || at(row, column) == at(r, c)
  }

  /** One square of `write_hextile`: one colour, two colours, or raw. The fallback for more than
      255 runs is never needed, because a square has at most 128. */
  method WriteSquare(at: Cells, wide: nat, tall: nat, wire: Wire, size: nat,
                     ghost background: Option<seq<byte>>, ghost foreground: Option<seq<byte>>)
    returns (piece: seq<byte>, ghost nextBackground: Option<seq<byte>>, ghost nextForeground: Option<seq<byte>>)
    requires 0 < wide <= SIDE && 0 < tall <= SIDE && WireOf(wire, size)
    ensures Reads(piece, at, wide, tall, wire, size, background, foreground, nextBackground, nextForeground)
    ensures piece != [] && piece[0] == if OneColour(at, wide, tall) then 2 else if TwoColours(at, wide, tall) then 14 else 1
  {
    var first := at(0, 0);
    var other := OtherColour(at, wide, tall, first);
    if other.None? {
      piece := [2] + wire(first);
      FlatReads(at, wide, tall, wire, size, background, foreground, first, piece);
      return piece, Some(wire(first)), foreground;
    }
    var second := other.value;
    var two := OnlyColours(at, wide, tall, first, second);
    if two {
      var runs := ForegroundRuns(at, wide, tall, first);
      assert |runs| <= 128;
      piece := [14] + wire(first) + wire(second) + [|runs|] + RunBytes(runs, wide, tall);
      TwoColourReads(at, wide, tall, wire, size, background, foreground, first, second, runs, piece);
      return piece, Some(wire(first)), Some(wire(second));
    }
    var cells := WriteCells(at, wide, tall, wire);
    piece := [1] + cells;
    RawReads(at, wide, tall, wire, size, background, foreground, piece);
    return piece, None, None;
  }

  // ----- whole rectangles -----

  /** What a viewer shows: the pixel value at each column and row. */
  type Screen = (int, int) -> seq<byte>

  function PaintTile(screen: Screen, tile: Tile, left: int, top: int): Screen {
    (x, y) => if (x - left, y - top) in tile then tile[(x - left, y - top)] else screen(x, y)
  }

  /** How one square is read: from these bytes, this wide and tall, carrying these colours. */
  type SquareDecoder = (seq<byte>, nat, nat, Option<seq<byte>>, Option<seq<byte>>) -> Option<Decoded>

  /** The squares of a format whose pixels take `size` bytes. */
  function Squares(size: nat): SquareDecoder {
    (bytes: seq<byte>, wide: nat, tall: nat, background: Option<seq<byte>>, foreground: Option<seq<byte>>) =>
      DecodeSquare(bytes, wide, tall, size, background, foreground)
  }

  /** Squares from left to right, then from top to bottom, starting at `x`, `y` inside the
      rectangle. */
  function DecodeHextile(square: SquareDecoder, screen: Screen, bytes: seq<byte>, r: Region, x: nat, y: nat,
                         background: Option<seq<byte>>, foreground: Option<seq<byte>>)
    : Option<(Screen, seq<byte>)>
    decreases r.height - y, r.width - x
  {
    if y >= r.height then Some((screen, bytes))
    else if x >= r.width then DecodeHextile(square, screen, bytes, r, 0, y + SIDE, background, foreground)
    else
      var d := square(bytes, Min(SIDE, r.width - x), Min(SIDE, r.height - y), background, foreground);
      if d.None? then None
      else DecodeHextile(square, PaintTile(screen, d.value.tile, r.x + x, r.y + y), d.value.rest, r, x + SIDE, y,
                         d.value.background, d.value.foreground)
  }

  /** The colours of the square at `left`, `top` of a frame. */
  function SquareAt(frame: seq<byte>, width: u16, height: u16, left: nat, top: nat): Cells
    requires Framed(frame, width, height)
  {
    (row, column) => if 0 <= row && 0 <= column && left + column < width && top + row < height
                     then ColourAt(frame, width, height, left + column, top + row) else Colour(0, 0, 0, 0)
  }

  /** The screen after a rectangle was drawn from a frame, and nothing else. */
  ghost predicate Drawn(before: Screen, after: Screen, r: Region, frame: seq<byte>, width: u16, height: u16, wire: Wire)
    requires Framed(frame, width, height) && InFrame(r, width, height)
  {
    forall px, py :: after(px, py) == if InRegion(r, px, py)
                                      then wire(ColourAt(frame, width, height, px, py)) else before(px, py)
  }

  /** The part of a rectangle the squares before the one at `x`, `y` cover. */
  predicate Done(r: Region, x: int, y: int, px: int, py: int) {
    InRegion(r, px, py) && (py < r.y + y || (py < r.y + y + SIDE && px < r.x + x))
  }

  /** The screen after part of a rectangle was drawn from a frame. */
  ghost predicate DrawnSoFar(before: Screen, after: Screen, r: Region, frame: seq<byte>, width: u16, height: u16,
                             wire: Wire, x: int, y: int)
    requires Framed(frame, width, height) && InFrame(r, width, height)
  {
    forall px, py :: after(px, py) == if Done(r, x, y, px, py)
                                      then wire(ColourAt(frame, width, height, px, py)) else before(px, py)
  }

  lemma DrawSquare(before: Screen, screen: Screen, r: Region, frame: seq<byte>, width: u16, height: u16,
                   wire: Wire, x: nat, y: nat)
    requires Framed(frame, width, height) && InFrame(r, width, height) && x < r.width && y < r.height
    requires DrawnSoFar(before, screen, r, frame, width, height, wire, x, y)
    ensures var tile := Wanted(SquareAt(frame, width, height, r.x + x, r.y + y), Min(SIDE, r.width - x),
                               Min(SIDE, r.height - y), wire);
            DrawnSoFar(before, PaintTile(screen, tile, r.x + x, r.y + y), r, frame, width, height, wire, x + SIDE, y)
  {
    var at := SquareAt(frame, width, height, r.x + x, r.y + y);
    var tile := Wanted(at, Min(SIDE, r.width - x), Min(SIDE, r.height - y), wire);
    var after := PaintTile(screen, tile, r.x + x, r.y + y);
    forall px, py
      ensures after(px, py) == if Done(r, x + SIDE, y, px, py)
                               then wire(ColourAt(frame, width, height, px, py)) else before(px, py)
    {
      var c := (px - (r.x + x), py - (r.y + y));
      if c in tile {
        assert tile[c] == wire(at(c.1, c.0));
      }
    }
  }

  /** Decoding any message that starts with `piece` reaches the square at `x`, `y`. Folded. */
  ghost predicate Resumes(square: SquareDecoder, piece: seq<byte>, before: Screen, screen: Screen, r: Region, x: nat,
                          y: nat, background: Option<seq<byte>>, foreground: Option<seq<byte>>)
  {
    forall key: Key | Opened(key) :: ResumesNow(square, piece, before, screen, r, x, y, background, foreground)
  }

  ghost predicate ResumesNow(square: SquareDecoder, piece: seq<byte>, before: Screen, screen: Screen, r: Region, x: nat,
                             y: nat, background: Option<seq<byte>>, foreground: Option<seq<byte>>)
  {
    forall whole: seq<byte> | piece <= whole ::
      DecodeHextile(square, before, whole, r, 0, 0, None, None)
      == DecodeHextile(square, screen, whole[|piece|..], r, x, y, background, foreground)
  }

  /** A piece that is read as one square, whatever follows it. */
  ghost predicate Takes(square: SquareDecoder, piece: seq<byte>, wide: nat, tall: nat, tile: Tile,
                        background: Option<seq<byte>>, foreground: Option<seq<byte>>,
                        nextBackground: Option<seq<byte>>, nextForeground: Option<seq<byte>>)
  {
    forall whole: seq<byte> | piece <= whole ::
      square(whole, wide, tall, background, foreground)
      == Some(Decoded(tile, whole[|piece|..], nextBackground, nextForeground))
  }

  lemma ReadsTakes(piece: seq<byte>, at: Cells, wide: nat, tall: nat, wire: Wire, size: nat,
                   background: Option<seq<byte>>, foreground: Option<seq<byte>>,
                   nextBackground: Option<seq<byte>>, nextForeground: Option<seq<byte>>)
    requires Reads(piece, at, wide, tall, wire, size, background, foreground, nextBackground, nextForeground)
    ensures Takes(Squares(size), piece, wide, tall, Wanted(at, wide, tall, wire), background, foreground,
                  nextBackground, nextForeground)
  {
  }

  lemma DecodeStep(square: SquareDecoder, screen: Screen, bytes: seq<byte>, r: Region, x: nat, y: nat,
                   background: Option<seq<byte>>, foreground: Option<seq<byte>>, d: Decoded)
    requires x < r.width && y < r.height
    requires square(bytes, Min(SIDE, r.width - x), Min(SIDE, r.height - y), background, foreground) == Some(d)
    ensures DecodeHextile(square, screen, bytes, r, x, y, background, foreground)
            == DecodeHextile(square, PaintTile(screen, d.tile, r.x + x, r.y + y), d.rest, r, x + SIDE, y,
                             d.background, d.foreground)
  {
  }

  lemma ResumeAfter(square: SquareDecoder, message: seq<byte>, piece: seq<byte>, before: Screen, screen: Screen,
                    r: Region, x: nat, y: nat, background: Option<seq<byte>>, foreground: Option<seq<byte>>,
                    nextBackground: Option<seq<byte>>, nextForeground: Option<seq<byte>>, tile: Tile, next: Screen)
    requires x < r.width && y < r.height
    requires Resumes(square, message, before, screen, r, x, y, background, foreground)
    requires Takes(square, piece, Min(SIDE, r.width - x), Min(SIDE, r.height - y), tile, background, foreground,
                   nextBackground, nextForeground)
    requires next == PaintTile(screen, tile, r.x + x, r.y + y)
    ensures Resumes(square, message + piece, before, next, r, x + SIDE, y, nextBackground, nextForeground)
  {
    Unlock();
    forall whole: seq<byte> | message + piece <= whole
      ensures DecodeHextile(square, before, whole, r, 0, 0, None, None)
              == DecodeHextile(square, next, whole[|message + piece|..], r, x + SIDE, y, nextBackground, nextForeground)
    {
      var rest := whole[|message|..];
      assert message <= whole && piece <= rest && rest[|piece|..] == whole[|message + piece|..];
      DecodeStep(square, screen, rest, r, x, y, background, foreground,
                 Decoded(tile, rest[|piece|..], nextBackground, nextForeground));
    }
  }

  /** `write_hextile`: reading the message back draws the region with the frame's pixels and
      touches nothing else, whatever follows the message. */
  method WriteHextile(r: Region, frame: seq<byte>, width: u16, height: u16, wire: Wire, size: nat,
                      ghost before: Screen) returns (message: seq<byte>, ghost screen: Screen)
    requires Framed(frame, width, height) && InFrame(r, width, height) && WireOf(wire, size)
    ensures Drawn(before, screen, r, frame, width, height, wire)
    ensures forall whole: seq<byte> | message <= whole ::
              DecodeHextile(Squares(size), before, whole, r, 0, 0, None, None) == Some((screen, whole[|message|..]))
    ensures var read := DecodeHextile(Squares(size), before, message, r, 0, 0, None, None);
            read.Some? && read.value.1 == [] && Drawn(before, read.value.0, r, frame, width, height, wire)
  {
    message, screen := [], before;
    ghost var background: Option<seq<byte>>, foreground: Option<seq<byte>> := None, None;
    var y := 0;
    ResumeStart(before, r, frame, width, height, wire, size);
    while y < r.height
      invariant 0 <= y
      invariant Resumes(Squares(size), message, before, screen, r, 0, y, background, foreground)
      invariant DrawnSoFar(before, screen, r, frame, width, height, wire, 0, y)
    {
      var x := 0;
      while x < r.width
        invariant 0 <= x
        invariant Resumes(Squares(size), message, before, screen, r, x, y, background, foreground)
        invariant DrawnSoFar(before, screen, r, frame, width, height, wire, x, y)
      {
        message, screen, background, foreground :=
          AppendSquare(message, r, frame, width, height, wire, size, x, y, before, screen, background, foreground);
        x := x + SIDE;
      }
      NextRow(message, before, screen, r, frame, width, height, wire, size, x, y, background, foreground);
      y := y + SIDE;
    }
    ResumeEnd(message, before, screen, r, frame, width, height, wire, size, y, background, foreground);
    assert message <= message && message[|message|..] == [];
  }

  /** The body of the square loop. */
  method AppendSquare(start: seq<byte>, r: Region, frame: seq<byte>, width: u16, height: u16, wire: Wire, size: nat,
                      x: nat, y: nat, ghost before: Screen, ghost screen: Screen,
                      ghost background: Option<seq<byte>>, ghost foreground: Option<seq<byte>>)
    returns (message: seq<byte>, ghost next: Screen, ghost b: Option<seq<byte>>, ghost f: Option<seq<byte>>)
    requires Framed(frame, width, height) && InFrame(r, width, height) && WireOf(wire, size)
    requires x < r.width && y < r.height
    requires Resumes(Squares(size), start, before, screen, r, x, y, background, foreground)
    requires DrawnSoFar(before, screen, r, frame, width, height, wire, x, y)
    ensures Resumes(Squares(size), message, before, next, r, x + SIDE, y, b, f)
    ensures DrawnSoFar(before, next, r, frame, width, height, wire, x + SIDE, y)
  {
    var wide, tall := Min(SIDE, r.width - x), Min(SIDE, r.height - y);
    var at := SquareAt(frame, width, height, r.x + x, r.y + y);
    var piece;
    piece, b, f := WriteSquare(at, wide, tall, wire, size, background, foreground);
    ghost var tile := Wanted(at, wide, tall, wire);
    next := PaintTile(screen, tile, r.x + x, r.y + y);
    ReadsTakes(piece, at, wide, tall, wire, size, background, foreground, b, f);
    ResumeAfter(Squares(size), start, piece, before, screen, r, x, y, background, foreground, b, f, tile, next);
    DrawSquare(before, screen, r, frame, width, height, wire, x, y);
    message := start + piece;
  }

  lemma ResumeStart(before: Screen, r: Region, frame: seq<byte>, width: u16, height: u16, wire: Wire, size: nat)
    requires Framed(frame, width, height) && InFrame(r, width, height)
    ensures Resumes(Squares(size), [], before, before, r, 0, 0, None, None)
    ensures DrawnSoFar(before, before, r, frame, width, height, wire, 0, 0)
  {
    forall whole: seq<byte>
      ensures DecodeHextile(Squares(size), before, whole, r, 0, 0, None, None)
              == DecodeHextile(Squares(size), before, whole[0..], r, 0, 0, None, None)
    {
      assert whole[0..] == whole;
    }
  }

  lemma NextRow(message: seq<byte>, before: Screen, screen: Screen, r: Region, frame: seq<byte>, width: u16,
                height: u16, wire: Wire, size: nat, x: nat, y: nat, background: Option<seq<byte>>,
                foreground: Option<seq<byte>>)
    requires Framed(frame, width, height) && InFrame(r, width, height)
    requires Resumes(Squares(size), message, before, screen, r, x, y, background, foreground)
    requires DrawnSoFar(before, screen, r, frame, width, height, wire, x, y)
    requires y < r.height && x >= r.width
    ensures Resumes(Squares(size), message, before, screen, r, 0, y + SIDE, background, foreground)
    ensures DrawnSoFar(before, screen, r, frame, width, height, wire, 0, y + SIDE)
  {
    Unlock();
    forall px, py ensures Done(r, 0, y + SIDE, px, py) <==> Done(r, x, y, px, py) {
    }
  }

  lemma ResumeEnd(message: seq<byte>, before: Screen, screen: Screen, r: Region, frame: seq<byte>, width: u16,
                  height: u16, wire: Wire, size: nat, y: nat, background: Option<seq<byte>>,
                  foreground: Option<seq<byte>>)
    requires Framed(frame, width, height) && InFrame(r, width, height)
    requires Resumes(Squares(size), message, before, screen, r, 0, y, background, foreground)
    requires DrawnSoFar(before, screen, r, frame, width, height, wire, 0, y)
    requires y >= r.height
    ensures Drawn(before, screen, r, frame, width, height, wire)
    ensures forall whole: seq<byte> | message <= whole ::
              DecodeHextile(Squares(size), before, whole, r, 0, 0, None, None) == Some((screen, whole[|message|..]))
  {
    Unlock();
    forall px, py ensures Done(r, 0, y, px, py) <==> InRegion(r, px, py) {
    }
  }
}
