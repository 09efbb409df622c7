/** Framebuffer updates: the viewer's pixel format, the message the server writes, and the viewer
    that reads it, after sections 7.6.1, 7.7.1 and 7.7.4 of RFC 6143. */
module Update {
  import opened Basics
  import opened VncFrame
  import opened Hextile

  const RAW := 0
  const HEXTILE := 5

  datatype PixelFormat = PixelFormat(bitsPerPixel: u8, bigEndian: bool, redMax: u16, greenMax: u16, blueMax: u16,
                                     redShift: u8, greenShift: u8, blueShift: u8)

  const DECLARED := PixelFormat(32, false, 255, 255, 255, 0, 8, 16)

  /** The formats `PixelFormat::decode` accepts. */
  predicate Produced(f: PixelFormat) {
    f.bitsPerPixel == 8 || f.bitsPerPixel == 16 || f.bitsPerPixel == 32
  }

  function Stride(f: PixelFormat): nat {
    f.bitsPerPixel / 8
  }

  function Pow2(n: nat): (p: nat)
    ensures p > 0
  {
    if n == 0 then 1 else 2 * Pow2(n - 1)
  }

  /** Bitwise and of two words. */
  function And(a: nat, b: nat): nat
    decreases a
  {
    if a == 0 || b == 0 then 0 else a % 2 * (b % 2) + 2 * And(a / 2, b / 2)
  }

  /** Bitwise or of two words. */
  function Or(a: nat, b: nat): nat
    decreases a + b
  {
    if a == 0 then b else if b == 0 then a
    else (if a % 2 == 1 || b % 2 == 1 then 1 else 0) + 2 * Or(a / 2, b / 2)
  }

  /** One channel scaled to its maximum and put at its place in a 32-bit word. A shift is taken
      modulo 32 and what it pushes past the word is lost. */
  function Channel(value: byte, max: u16, shift: u8): nat {
    And(value * max / 255, max) * Pow2(shift % 32) % Pow2(32)
  }

  function PackedByte(packed: nat, index: nat): byte {
    packed / Pow2(8 * index) % 256
  }

  /** `write_pixel`: the three colours of a pixel as this format lays them out. */
  function WritePixel(f: PixelFormat, c: Colour): (bytes: seq<byte>)
    requires Produced(f)
    ensures |bytes| == Stride(f)
  {
    var packed := Or(Or(Channel(c.red, f.redMax, f.redShift), Channel(c.green, f.greenMax, f.greenShift)),
                     Channel(c.blue, f.blueMax, f.blueShift));
    var width := Stride(f);
    if f.bigEndian
    then seq(width, i requires 0 <= i < width => PackedByte(packed, width - 1 - i))
    else seq(width, i requires 0 <= i < width => PackedByte(packed, i))
  }

  lemma {:induction false} AndLowBits(v: nat, k: nat)
    requires v < Pow2(k)
    ensures And(v, Pow2(k) - 1) == v
  {
    if k > 0 {
      AndLowBits(v / 2, k - 1);
      assert (Pow2(k) - 1) / 2 == Pow2(k - 1) - 1 && (Pow2(k) - 1) % 2 == 1;
      if v == 0 {
      } else if k == 1 {
      }
    }
  }

  lemma {:induction false} OrAbove(a: nat, b: nat, k: nat)
    requires a < Pow2(k)
    ensures Or(a, b * Pow2(k)) == a + b * Pow2(k)
  {
    if k > 0 && a > 0 && b > 0 {
      assert b * Pow2(k) == 2 * (b * Pow2(k - 1));
      OrAbove(a / 2, b, k - 1);
    }
  }

  lemma SmallPowers()
    ensures Pow2(0) == 1 && Pow2(8) == 256 && Pow2(16) == 65536 && Pow2(24) == 16777216 && Pow2(32) == 4294967296
  {
    assert Pow2(4) == 16;
    assert Pow2(8) == 256;
    assert Pow2(12) == 4096;
    assert Pow2(16) == 65536;
    assert Pow2(20) == 1048576;
    assert Pow2(24) == 16777216;
    assert Pow2(28) == 268435456;
  }

  lemma Unwrapped(n: nat)
    requires n < 4294967296
    ensures n % Pow2(32) == n
  {
    SmallPowers();
  }

  lemma FullChannel(v: byte, shift: u8)
    requires shift == 0 || shift == 8 || shift == 16
    ensures Channel(v, 255, shift) == v * Pow2(shift)
  {
    SmallPowers();
    assert v * 255 / 255 == v;
    assert And(v, 255) == v by {
      AndLowBits(v, 8);
    }
    Unwrapped(v * Pow2(shift));
  }

  lemma BytesOfWord(r: byte, g: byte, b: byte, packed: nat)
    requires packed == r + g * 256 + b * 65536
    ensures PackedByte(packed, 0) == r && PackedByte(packed, 1) == g
    ensures PackedByte(packed, 2) == b && PackedByte(packed, 3) == 0
  {
    SmallPowers();
    assert packed / 256 == g + b * 256;
    assert packed / 65536 == b;
    assert packed / 16777216 == 0;
  }

  /** In the format the server declares, a pixel on the wire is the frame's own three colour
      bytes followed by a zero. */
  lemma DeclaredPixel(c: Colour)
    ensures WritePixel(DECLARED, c) == [c.red, c.green, c.blue, 0]
  {
    var packed := c.red + c.green * 256 + c.blue * 65536;
    assert Or(Or(Channel(c.red, 255, 0), Channel(c.green, 255, 8)), Channel(c.blue, 255, 16)) == packed by {
      FullChannel(c.red, 0);
      FullChannel(c.green, 8);
      FullChannel(c.blue, 16);
      SmallPowers();
      OrAbove(c.red, c.green, 8);
      OrAbove(c.red + c.green * 256, c.blue, 16);
    }
    BytesOfWord(c.red, c.green, c.blue, packed);
  }

  /** A pixel as hextile squares carry it. */
  function HextileWire(f: PixelFormat): Wire
    requires Produced(f)
  {
    (c: Colour) => WritePixel(f, c)
  }

  /** A pixel as a raw rectangle carries it: `convert` passes the frame's own four bytes through
      when the viewer kept the declared format. */
  function RawWire(f: PixelFormat): Wire
    requires Produced(f)
  {
    (c: Colour) => if f == DECLARED then [c.red, c.green, c.blue, c.spare] else WritePixel(f, c)
  }

  /** Both encodings show a viewer the same colours: they differ at most in the fourth byte of
      the declared format, which is not part of its 24-bit depth. */
  lemma EncodingsAgree(f: PixelFormat, c: Colour)
    requires Produced(f)
    ensures f != DECLARED ==> HextileWire(f)(c) == RawWire(f)(c)
    ensures f == DECLARED ==> HextileWire(f)(c)[..3] == RawWire(f)(c)[..3] == [c.red, c.green, c.blue]
  {
    DeclaredPixel(c);
  }

  // ----- the viewer -----

  function Be16(v: u16): seq<byte> {
    [v / 256, v % 256]
  }

  function FromBe16(bytes: seq<byte>, at: nat): u16
    requires at + 2 <= |bytes|
  {
    (bytes[at] as int) * 256 + bytes[at + 1]
  }

  function Be32(v: u32): seq<byte> {
    [v / 0x100_0000, v / 0x1_0000 % 256, v / 256 % 256, v % 256]
  }

  function FromBe32(bytes: seq<byte>, at: nat): u32
    requires at + 4 <= |bytes|
  {
    (bytes[at] as int) * 0x100_0000 + (bytes[at + 1] as int) * 0x1_0000 + (bytes[at + 2] as int) * 256 + bytes[at + 3]
  }

  /** One rectangle's payload, in the encoding its header names. */
  function DecodePayload(screen: Screen, body: seq<byte>, r: Region, encoding: u32, size: nat)
    : Option<(Screen, seq<byte>)>
  {
    if encoding == HEXTILE then DecodeHextile(Squares(size), screen, body, r, 0, 0, None, None)
    else if encoding == RAW then
      var d := DecodeRaw(body, r.width, r.height, size);
      if d.None? then None else Some((PaintTile(screen, d.value.tile, r.x, r.y), d.value.rest))
    else None
  }

  /** The rectangles of an update: a twelve-byte header each, then the payload. */
  function DecodeRectangles(screen: Screen, bytes: seq<byte>, count: nat, size: nat): Option<(Screen, seq<byte>)>
    decreases count
  {
    if count == 0 then Some((screen, bytes))
    else if |bytes| < 12 then None
    else
      var r := Region(FromBe16(bytes, 0), FromBe16(bytes, 2), FromBe16(bytes, 4), FromBe16(bytes, 6));
      var painted := DecodePayload(screen, bytes[12..], r, FromBe32(bytes, 8), size);
      if painted.None? then None
      else DecodeRectangles(painted.value.0, painted.value.1, count - 1, size)
  }

  /** A whole FramebufferUpdate message. */
  function DecodeUpdate(screen: Screen, bytes: seq<byte>, size: nat): Option<(Screen, seq<byte>)> {
    if |bytes| < 4 || bytes[0] != 0 then None
    else DecodeRectangles(screen, bytes[4..], FromBe16(bytes, 2), size)
  }

  // ----- the server -----

  predicate Fits(r: Region, width: u16, height: u16) {
    r.x + r.width <= width && r.y + r.height <= height
  }

  /** How many rows a frame of this width holds, as `write_update` works it out. */
  function Rows(frame: seq<byte>, width: u16): (rows: nat) {
    if width == 0 then 0 else |frame| / (width * 4)
  }

  lemma RowsOfFrame(frame: seq<byte>, width: u16, height: u16)
    requires Framed(frame, width, height)
    ensures Rows(frame, width) <= height && (width > 0 ==> Rows(frame, width) == height)
  {
    if width > 0 {
      assert |frame| == height * (width * 4);
      DivideExactly(height, width * 4);
    }
  }

  lemma DivideExactly(n: nat, d: nat)
    requires d > 0
    ensures n * d / d == n
  {
    var q := n * d / d;
    if q < n {
      MulMonotone(q + 1, n, d);
    } else if q > n {
      MulMonotone(n + 1, q, d);
    }
  }

  /** The rectangles `write_update` keeps: one reaching past the frame is dropped, not read. */
  function Fitting(regions: seq<Region>, width: u16, height: u16): (fitting: seq<Region>)
    ensures |fitting| <= |regions|
    ensures forall i | 0 <= i < |fitting| :: Fits(fitting[i], width, height)
    ensures (forall i | 0 <= i < |regions| :: Fits(regions[i], width, height)) ==> fitting == regions
  {
    if regions == [] then []
    else
      var rest := Fitting(regions[..|regions| - 1], width, height);
      var last := regions[|regions| - 1];
      assert regions == regions[..|regions| - 1] + [last];
      if Fits(last, width, height) then rest + [last] else rest
  }

  function RectHeader(r: Region, encoding: u32): (h: seq<byte>)
    ensures |h| == 12
  {
    Be16(r.x) + Be16(r.y) + Be16(r.width) + Be16(r.height) + Be32(encoding)
  }

  lemma Be16Reads(v: u16, bytes: seq<byte>, at: nat)
    requires at + 2 <= |bytes| && bytes[at] == v / 256 && bytes[at + 1] == v % 256
    ensures FromBe16(bytes, at) == v
  {
  }

  lemma FourBytes(v: u32)
    ensures v / 0x100_0000 * 0x100_0000 + v / 0x1_0000 % 256 * 0x1_0000 + v / 256 % 256 * 256 + v % 256 == v
  {
    var high, low := v / 0x1_0000, v % 0x1_0000;
    assert v / 0x100_0000 == high / 256;
    assert v / 256 % 256 == low / 256;
    assert v % 256 == low % 256;
  }

  lemma Be32Reads(v: u32, bytes: seq<byte>, at: nat)
    requires at + 4 <= |bytes| && bytes[at] == v / 0x100_0000 && bytes[at + 1] == v / 0x1_0000 % 256
    requires bytes[at + 2] == v / 256 % 256 && bytes[at + 3] == v % 256
    ensures FromBe32(bytes, at) == v
  {
    FourBytes(v);
  }

  lemma HeaderReads(r: Region, encoding: u32, bytes: seq<byte>)
    requires RectHeader(r, encoding) <= bytes
    ensures Region(FromBe16(bytes, 0), FromBe16(bytes, 2), FromBe16(bytes, 4), FromBe16(bytes, 6)) == r
    ensures FromBe32(bytes, 8) == encoding
  {
    var h := RectHeader(r, encoding);
    assert forall i | 0 <= i < 12 :: bytes[i] == h[i];
    Be16Reads(r.x, bytes, 0);
    Be16Reads(r.y, bytes, 2);
    Be16Reads(r.width, bytes, 4);
    Be16Reads(r.height, bytes, 6);
    Be32Reads(encoding, bytes, 8);
  }

  /** The number two bytes make, most significant first, and the number four make. */
  function Two(bytes: seq<byte>, at: nat): nat
    requires at + 2 <= |bytes|
  {
    bytes[at] as int * 256 + bytes[at + 1] as int
  }

  function Four(bytes: seq<byte>, at: nat): nat
    requires at + 4 <= |bytes|
  {
    Two(bytes, at) * 0x1_0000 + Two(bytes, at + 2)
  }

  /** A rectangle as section 7.6.1 has it: its place, its size and its encoding, 0 for raw and 5 for
      hextile, most significant bytes first. */
  predicate BeginsWith(bytes: seq<byte>, r: Region, hextile: bool) {
    && 12 <= |bytes|
    && Two(bytes, 0) == r.x && Two(bytes, 2) == r.y && Two(bytes, 4) == r.width && Two(bytes, 6) == r.height
    && Four(bytes, 8) == if hextile then 5 else 0
  }

  lemma HeaderBegins(r: Region, hextile: bool, payload: seq<byte>)
    ensures BeginsWith(RectHeader(r, if hextile then HEXTILE else RAW) + payload, r, hextile)
  {
    var h := RectHeader(r, if hextile then HEXTILE else RAW) + payload;
    assert h[0] as int == r.x / 256 && h[2] as int == r.y / 256 && h[4] as int == r.width / 256 && h[6] as int == r.height / 256;
  }

  /** The rectangles written so far begin with the first of the list. */
  predicate Begun(body: seq<byte>, fitting: seq<Region>, done: nat, hextile: bool) {
    done <= |fitting| && if done == 0 then body == [] else BeginsWith(body, fitting[0], hextile)
  }

  lemma BegunNext(start: seq<byte>, fitting: seq<Region>, i: nat, hextile: bool, payload: seq<byte>)
    requires i < |fitting| && Begun(start, fitting, i, hextile)
    ensures Begun(start + (RectHeader(fitting[i], if hextile then HEXTILE else RAW) + payload), fitting, i + 1, hextile)
  {
    var piece := RectHeader(fitting[i], if hextile then HEXTILE else RAW) + payload;
    HeaderBegins(fitting[i], hextile, payload);
    assert start == [] ==> start + piece == piece;
    assert start != [] ==> forall k | 0 <= k < |start| :: (start + piece)[k] == start[k];
  }

  lemma WiresFit(format: PixelFormat)
    requires Produced(format)
    ensures WireOf(HextileWire(format), Stride(format)) && WireOf(RawWire(format), Stride(format))
  {
  }

  /** The screen after every rectangle of a list was drawn from a frame. */
  ghost predicate AllDrawn(before: Screen, after: Screen, rs: seq<Region>, frame: seq<byte>, width: u16, height: u16,
                           wire: Wire)
    requires Framed(frame, width, height) && forall i | 0 <= i < |rs| :: Fits(rs[i], width, height)
  {
    forall px, py :: after(px, py) == if 0 <= px < width && 0 <= py < height && InRegions(rs, px, py)
                                      then wire(ColourAt(frame, width, height, px, py)) else before(px, py)
  }

  lemma AllDrawnPlus(before: Screen, middle: Screen, after: Screen, rs: seq<Region>, r: Region, frame: seq<byte>,
                     width: u16, height: u16, wire: Wire)
    requires Framed(frame, width, height) && Fits(r, width, height)
    requires forall i | 0 <= i < |rs| :: Fits(rs[i], width, height)
    requires AllDrawn(before, middle, rs, frame, width, height, wire)
    requires Drawn(middle, after, r, frame, width, height, wire)
    ensures AllDrawn(before, after, rs + [r], frame, width, height, wire)
  {
    forall px, py
      ensures after(px, py) == if 0 <= px < width && 0 <= py < height && InRegions(rs + [r], px, py)
                               then wire(ColourAt(frame, width, height, px, py)) else before(px, py)
    {
      RegionsPlus(rs, r, px, py);
    }
  }

  /** Any message body that starts with this payload is read as the rectangle drawn, and no further. Folded,
      as `Continues` is: a proof that needs what is inside says `Unlock`. */
  ghost predicate PayloadReads(payload: seq<byte>, before: Screen, screen: Screen, r: Region, encoding: u32, size: nat) {
    forall key: Key | Opened(key) ::
      forall whole: seq<byte> | payload <= whole ::
        DecodePayload(before, whole, r, encoding, size) == Some((screen, whole[|payload|..]))
  }

  lemma PayloadAt(payload: seq<byte>, before: Screen, screen: Screen, r: Region, encoding: u32, size: nat, whole: seq<byte>)
    requires PayloadReads(payload, before, screen, r, encoding, size) && payload <= whole
    ensures DecodePayload(before, whole, r, encoding, size) == Some((screen, whole[|payload|..]))
  {
    Unlock();
  }

  /** The raw payload of one rectangle. */
  method WriteRaw(r: Region, frame: seq<byte>, width: u16, height: u16, wire: Wire, size: nat, ghost before: Screen)
    returns (message: seq<byte>, ghost screen: Screen)
    requires Framed(frame, width, height) && InFrame(r, width, height) && WireOf(wire, size)
    ensures Drawn(before, screen, r, frame, width, height, wire)
    ensures PayloadReads(message, before, screen, r, RAW, size)
  {
    var at := SquareAt(frame, width, height, r.x, r.y);
    message := [];
    if r.width > 0 {
      message := WriteCells(at, r.width, r.height, wire);
    }
    ghost var tile := Wanted(at, r.width, r.height, wire);
    screen := PaintTile(before, tile, r.x, r.y);
    forall px, py
      ensures screen(px, py) == if InRegion(r, px, py)
                                then wire(ColourAt(frame, width, height, px, py)) else before(px, py)
    {
      if (px - r.x, py - r.y) in tile {
        assert tile[(px - r.x, py - r.y)] == wire(at(py - r.y, px - r.x));
      }
    }
    forall whole: seq<byte> | message <= whole
      ensures DecodePayload(before, whole, r, RAW, size) == Some((screen, whole[|message|..]))
    {
      RawRectReads(at, r.width, r.height, wire, size, message, whole);
    }
  }

  lemma RawRectReads(at: Cells, wide: nat, tall: nat, wire: Wire, size: nat, message: seq<byte>, whole: seq<byte>)
    requires WireOf(wire, size) && message <= whole
    requires message == if wide > 0 then RawBytes(at, wide, wire, wide * tall) else []
    ensures DecodeRaw(whole, wide, tall, size)
            == Some(Decoded(Wanted(at, wide, tall, wire), whole[|message|..], None, None))
  {
    if wide > 0 {
      RawLength(at, wide, wire, size, wide * tall);
      RawTile(at, wide, tall, wire, size, whole);
    } else {
      assert DecodeRaw(whole, wide, tall, size).value.tile == Wanted(at, wide, tall, wire);
    }
  }

  /** How a viewer reads so many rectangles. Proofs about what is read after what take it as a value, so as
      not to look inside. */
  type Reader = (Screen, seq<byte>, nat) -> Option<(Screen, seq<byte>)>

  function Reading(size: nat): Reader {
    (screen: Screen, bytes: seq<byte>, count: nat) => DecodeRectangles(screen, bytes, count, size)
  }

  /** Reading any message body that starts with `body` draws `done` rectangles and goes on. */
  ghost predicate Continues(read: Reader, body: seq<byte>, before: Screen, screen: Screen, count: nat, done: nat)
    requires done <= count
  {
    forall whole: seq<byte> | body <= whole :: read(before, whole, count) == read(screen, whole[|body|..], count - done)
  }

  /** Any message that starts with this piece, one rectangle's header and payload, is read as that rectangle
      drawn, and then the rest. */
  ghost predicate PieceReads(read: Reader, piece: seq<byte>, before: Screen, screen: Screen) {
    forall whole: seq<byte>, count: nat | piece <= whole && count > 0 ::
      read(before, whole, count) == read(screen, whole[|piece|..], count - 1)
  }

  /** The header a message body starts with. */
  predicate Heads(bytes: seq<byte>, r: Region, encoding: u32) {
    && |bytes| >= 12 && FromBe32(bytes, 8) == encoding
    && Region(FromBe16(bytes, 0), FromBe16(bytes, 2), FromBe16(bytes, 4), FromBe16(bytes, 6)) == r
  }

  lemma RectangleReads(before: Screen, screen: Screen, r: Region, encoding: u32, size: nat, count: nat, bytes: seq<byte>,
                       rest: seq<byte>)
    requires count > 0 && Heads(bytes, r, encoding)
    requires DecodePayload(before, bytes[12..], r, encoding, size) == Some((screen, rest))
    ensures Reading(size)(before, bytes, count) == Reading(size)(screen, rest, count - 1)
  {
  }

  lemma PieceOf(before: Screen, screen: Screen, r: Region, encoding: u32, size: nat, payload: seq<byte>)
    requires PayloadReads(payload, before, screen, r, encoding, size)
    ensures PieceReads(Reading(size), RectHeader(r, encoding) + payload, before, screen)
  {
    forall whole: seq<byte> | RectHeader(r, encoding) <= whole ensures Heads(whole, r, encoding) {
      HeaderReads(r, encoding, whole);
    }
    PieceFrom(before, screen, r, encoding, size, RectHeader(r, encoding), payload);
  }

  lemma PieceFrom(before: Screen, screen: Screen, r: Region, encoding: u32, size: nat, header: seq<byte>, payload: seq<byte>)
    requires |header| == 12 && forall whole: seq<byte> | header <= whole :: Heads(whole, r, encoding)
    requires PayloadReads(payload, before, screen, r, encoding, size)
    ensures PieceReads(Reading(size), header + payload, before, screen)
  {
    forall whole: seq<byte>, count: nat | header + payload <= whole && count > 0
      ensures Reading(size)(before, whole, count) == Reading(size)(screen, whole[|header + payload|..], count - 1)
    {
      PartsOf(header, payload, whole);
      PayloadAt(payload, before, screen, r, encoding, size, whole[12..]);
      RectangleReads(before, screen, r, encoding, size, count, whole, whole[12..][|payload|..]);
    }
  }

  lemma PartsOf(first: seq<byte>, second: seq<byte>, whole: seq<byte>)
    requires first + second <= whole
    ensures first <= whole && second <= whole[|first|..]
    ensures whole[|first|..][|second|..] == whole[|first + second|..] == whole[|first| + |second|..]
  {
    assert whole[..|first + second|] == first + second;
    assert whole[..|first|] == first;
    assert whole[|first|..][..|second|] == second;
  }

  /** One rectangle more. */
  lemma ContinueAfter(read: Reader, body: seq<byte>, before: Screen, middle: Screen, screen: Screen, count: nat, done: nat,
                      piece: seq<byte>)
    requires done < count && Continues(read, body, before, middle, count, done) && PieceReads(read, piece, middle, screen)
    ensures Continues(read, body + piece, before, screen, count, done + 1)
  {
    forall whole: seq<byte> | body + piece <= whole
      ensures read(before, whole, count) == read(screen, whole[|body + piece|..], count - (done + 1))
    {
      PartsOf(body, piece, whole);
      var rest := whole[|body|..];
      assert read(before, whole, count) == read(middle, rest, count - done);
      assert read(middle, rest, count - done) == read(screen, rest[|piece|..], count - done - 1);
    }
  }

  /** `write_update`. Read back by the viewer, the message draws every fitting rectangle with the
      frame's pixels, changes nothing else, and is consumed to its end. The count on the wire is
      sixteen bits wide, so this needs no more than 65535 rectangles. */
  method WriteUpdate(regions: seq<Region>, frame: seq<byte>, width: u16, height: u16, format: PixelFormat,
                     hextile: bool, ghost before: Screen) returns (message: seq<byte>, ghost screen: Screen)
    requires Framed(frame, width, height) && Produced(format)
    ensures Rows(frame, width) <= height
    ensures |Fitting(regions, width, Rows(frame, width))| <= U16_MAX ==>
              var read := DecodeUpdate(before, message, Stride(format));
              && read.Some? && read.value.1 == []
              && AllDrawn(before, read.value.0, Fitting(regions, width, Rows(frame, width)), frame, width, height,
                          if hextile then HextileWire(format) else RawWire(format))
    ensures |Fitting(regions, width, Rows(frame, width))| <= U16_MAX ==>
              DecodeUpdate(before, message, Stride(format)) == Some((screen, []))
    ensures var fitting := Fitting(regions, width, Rows(frame, width));
            && 4 <= |message| && message[0] == 0 && message[1] == 0 && Two(message, 2) == |fitting| % 0x1_0000
            && if fitting == [] then |message| == 4 else BeginsWith(message[4..], fitting[0], hextile)
  {
    RowsOfFrame(frame, width, height);
    var fitting := Fitting(regions, width, Rows(frame, width));
    var body;
    body, screen := WriteRectangles(fitting, frame, width, height, format, hextile, before);
    message := [0, 0] + Be16(|fitting| % 0x1_0000) + body;
    assert message[4..] == body;
    if |fitting| <= U16_MAX {
      UpdateReads(before, screen, |fitting|, Stride(format), body, message);
    }
  }

  /** The rectangle loop of `write_update`. */
  method WriteRectangles(fitting: seq<Region>, frame: seq<byte>, width: u16, height: u16, format: PixelFormat,
                         hextile: bool, ghost before: Screen) returns (body: seq<byte>, ghost screen: Screen)
    requires Framed(frame, width, height) && Produced(format)
    requires forall i | 0 <= i < |fitting| :: Fits(fitting[i], width, height)
    ensures Continues(Reading(Stride(format)), body, before, screen, |fitting|, |fitting|)
    ensures AllDrawn(before, screen, fitting, frame, width, height,
                     if hextile then HextileWire(format) else RawWire(format))
    ensures Begun(body, fitting, |fitting|, hextile)
  {
    var wire := if hextile then HextileWire(format) else RawWire(format);
    var size := Stride(format);
    WiresFit(format);
    body, screen := [], before;
    var i := 0;
    ContinueStart(before, fitting, size, frame, width, height, wire, hextile);
    while i < |fitting|
      invariant 0 <= i <= |fitting|
      invariant WrittenTo(body, before, screen, fitting, i, frame, width, height, wire, size, hextile)
    {
      body, screen := AppendRectangle(body, fitting, i, frame, width, height, wire, size, hextile, before, screen);
      i := i + 1;
    }
    ContinueEnd(body, before, screen, fitting, frame, width, height, wire, size, hextile);
  }

  /** The first rectangles written. Folded. */
  ghost predicate WrittenTo(body: seq<byte>, before: Screen, screen: Screen, fitting: seq<Region>, i: nat, frame: seq<byte>,
                            width: u16, height: u16, wire: Wire, size: nat, hextile: bool)
    requires Framed(frame, width, height) && i <= |fitting| && forall j | 0 <= j < |fitting| :: Fits(fitting[j], width, height)
  {
    forall key: Key | Opened(key) ::
      && Continues(Reading(size), body, before, screen, |fitting|, i)
      && AllDrawn(before, screen, fitting[..i], frame, width, height, wire)
      && Begun(body, fitting, i, hextile)
  }

  lemma ContinueEnd(body: seq<byte>, before: Screen, screen: Screen, fitting: seq<Region>, frame: seq<byte>,
                    width: u16, height: u16, wire: Wire, size: nat, hextile: bool)
    requires Framed(frame, width, height) && forall j | 0 <= j < |fitting| :: Fits(fitting[j], width, height)
    requires WrittenTo(body, before, screen, fitting, |fitting|, frame, width, height, wire, size, hextile)
    ensures Continues(Reading(size), body, before, screen, |fitting|, |fitting|)
    ensures AllDrawn(before, screen, fitting, frame, width, height, wire) && Begun(body, fitting, |fitting|, hextile)
  {
    Unlock();
    assert fitting[..|fitting|] == fitting;
  }

  lemma HextileReads(payload: seq<byte>, before: Screen, screen: Screen, r: Region, size: nat)
    requires forall whole: seq<byte> | payload <= whole ::
               DecodeHextile(Squares(size), before, whole, r, 0, 0, None, None) == Some((screen, whole[|payload|..]))
    ensures PayloadReads(payload, before, screen, r, HEXTILE, size)
  {
  }

  /** The body of the rectangle loop. */
  method AppendRectangle(start: seq<byte>, fitting: seq<Region>, i: nat, frame: seq<byte>, width: u16, height: u16,
                         wire: Wire, size: nat, hextile: bool, ghost before: Screen, ghost screen: Screen)
    returns (body: seq<byte>, ghost next: Screen)
    requires Framed(frame, width, height) && WireOf(wire, size) && i < |fitting|
    requires forall j | 0 <= j < |fitting| :: Fits(fitting[j], width, height)
    requires WrittenTo(start, before, screen, fitting, i, frame, width, height, wire, size, hextile)
    ensures WrittenTo(body, before, next, fitting, i + 1, frame, width, height, wire, size, hextile)
  {
    var r := fitting[i];
    var encoding := if hextile then HEXTILE else RAW;
    var payload;
    if hextile {
      payload, next := WriteHextile(r, frame, width, height, wire, size, screen);
      HextileReads(payload, screen, next, r, size);
    } else {
      payload, next := WriteRaw(r, frame, width, height, wire, size, screen);
    }
    body := start + (RectHeader(r, encoding) + payload);
    WrittenNext(start, before, screen, next, fitting, i, encoding, payload, frame, width, height, wire, size, hextile);
  }

  lemma WrittenNext(start: seq<byte>, before: Screen, screen: Screen, next: Screen, fitting: seq<Region>, i: nat,
                    encoding: u32, payload: seq<byte>, frame: seq<byte>, width: u16, height: u16, wire: Wire, size: nat,
                    hextile: bool)
    requires encoding == if hextile then HEXTILE else RAW
    requires Framed(frame, width, height) && i < |fitting| && forall j | 0 <= j < |fitting| :: Fits(fitting[j], width, height)
    requires WrittenTo(start, before, screen, fitting, i, frame, width, height, wire, size, hextile)
    requires PayloadReads(payload, screen, next, fitting[i], encoding, size)
    requires Drawn(screen, next, fitting[i], frame, width, height, wire)
    ensures WrittenTo(start + (RectHeader(fitting[i], encoding) + payload), before, next, fitting, i + 1, frame, width, height,
                      wire, size, hextile)
  {
    assert Continues(Reading(size), start, before, screen, |fitting|, i)
           && AllDrawn(before, screen, fitting[..i], frame, width, height, wire) && Begun(start, fitting, i, hextile) by {
      Unlock();
    }
    BegunNext(start, fitting, i, hextile, payload);
    PieceOf(screen, next, fitting[i], encoding, size, payload);
    ContinueAfter(Reading(size), start, before, screen, next, |fitting|, i, RectHeader(fitting[i], encoding) + payload);
    AllDrawnPlus(before, screen, next, fitting[..i], fitting[i], frame, width, height, wire);
    assert fitting[..i + 1] == fitting[..i] + [fitting[i]];
  }

  lemma ContinueStart(before: Screen, fitting: seq<Region>, size: nat, frame: seq<byte>, width: u16, height: u16, wire: Wire,
                      hextile: bool)
    requires Framed(frame, width, height) && forall j | 0 <= j < |fitting| :: Fits(fitting[j], width, height)
    ensures WrittenTo([], before, before, fitting, 0, frame, width, height, wire, size, hextile)
  {
    forall whole: seq<byte> ensures Reading(size)(before, whole, |fitting|) == Reading(size)(before, whole[0..], |fitting|) {
      assert whole[0..] == whole;
    }
    assert fitting[..0] == [];
  }

  lemma UpdateReads(before: Screen, screen: Screen, count: u16, size: nat, body: seq<byte>, message: seq<byte>)
    requires Continues(Reading(size), body, before, screen, count, count)
    requires message == [0, 0] + Be16(count) + body
    ensures DecodeUpdate(before, message, size) == Some((screen, []))
  {
    assert message[4..] == body && message[2] == count / 256 && message[3] == count % 256;
    assert body <= body && body[|body|..] == [];
    assert Reading(size)(before, body, count) == Reading(size)(screen, [], 0);
  }
}
