/** What a viewer makes of a pixel it is sent, after section 7.4 of RFC 6143: it assembles the bytes into
    a word in the order its format names, shifts each channel down and masks it. */
module Pixels {
  import opened Basics
  import opened VncFrame
  import opened Update

  /** The number some bytes make, most significant first or last. */
  function Word(bytes: seq<byte>, bigEndian: bool): nat {
    if bytes == [] then 0
    else if bigEndian then Word(bytes[..|bytes| - 1], bigEndian) * 256 + bytes[|bytes| - 1] as int
    else bytes[0] as int + 256 * Word(bytes[1..], bigEndian)
  }

  /** A word shifted down, and up. */
  function Down(word: nat, s: nat): nat {
    if s == 0 then word else Down(word / 2, s - 1)
  }

  function Up(v: nat, s: nat): nat {
    if s == 0 then v else 2 * Up(v, s - 1)
  }

  /** What a viewer reads of one channel. */
  function ReadChannel(word: nat, max: u16, shift: u8): nat {
    And(Down(word, shift), max)
  }

  /** A channel of so many bits lies within the pixel, and two lie apart. */
  predicate Within(f: PixelFormat, max: u16, shift: u8, bits: nat) {
    max < Pow2(bits) && shift + bits <= f.bitsPerPixel
  }

  predicate Apart(shift: u8, bits: nat, otherShift: u8, otherBits: nat) {
    shift + bits <= otherShift || otherShift + otherBits <= shift
  }

  predicate ChannelsApart(f: PixelFormat, red: nat, green: nat, blue: nat) {
    && Within(f, f.redMax, f.redShift, red) && Within(f, f.greenMax, f.greenShift, green)
    && Within(f, f.blueMax, f.blueShift, blue)
    && Apart(f.redShift, red, f.greenShift, green) && Apart(f.redShift, red, f.blueShift, blue)
    && Apart(f.greenShift, green, f.blueShift, blue)
  }

  // ----- bits -----

  lemma {:induction false} OrDown(a: nat, b: nat, s: nat)
    ensures Down(Or(a, b), s) == Or(Down(a, s), Down(b, s))
  {
    if s > 0 {
      assert Or(a, b) / 2 == Or(a / 2, b / 2);
      OrDown(a / 2, b / 2, s - 1);
    }
  }

  lemma {:induction false} OrMasked(a: nat, b: nat, m: nat)
    ensures And(Or(a, b), m) == Or(And(a, m), And(b, m))
    decreases m
  {
    if m > 0 {
      OrMasked(a / 2, b / 2, m / 2);
      OrHalves(a, b);
      AndHalves(Or(a, b), m);
      AndHalves(a, m);
      AndHalves(b, m);
      OrHalves(And(a, m), And(b, m));
    }
  }

  lemma OrHalves(a: nat, b: nat)
    ensures Or(a, b) % 2 == (if a % 2 == 1 || b % 2 == 1 then 1 else 0) && Or(a, b) / 2 == Or(a / 2, b / 2)
  {
  }

  lemma AndHalves(a: nat, b: nat)
    ensures And(a, b) % 2 == (if a % 2 == 1 && b % 2 == 1 then 1 else 0) && And(a, b) / 2 == And(a / 2, b / 2)
  {
    if a > 0 && b > 0 {
      Bits(a % 2, b % 2);
      Halves(And(a, b), a % 2 * (b % 2), And(a / 2, b / 2));
    }
  }

  lemma Halves(n: nat, bit: nat, rest: nat)
    requires bit < 2 && n == bit + 2 * rest
    ensures n % 2 == bit && n / 2 == rest
  {
  }

  lemma Bits(p: nat, q: nat)
    requires p < 2 && q < 2
    ensures p * q == (if p == 1 && q == 1 then 1 else 0) < 2
  {
    if p == 1 {
      assert p * q == q;
    } else {
      assert p == 0;
    }
  }

  lemma {:induction false} AndTwice(a: nat, m: nat)
    ensures And(And(a, m), m) == And(a, m)
    decreases a
  {
    if a > 0 && m > 0 {
      AndTwice(a / 2, m / 2);
      AndHalves(a, m);
      AndHalves(And(a, m), m);
    }
  }

  lemma {:induction false} AndIsLess(a: nat, m: nat)
    ensures And(a, m) <= m
    decreases a
  {
    if a > 0 && m > 0 {
      AndIsLess(a / 2, m / 2);
    }
  }

  lemma {:induction false} OrFits(a: nat, b: nat, k: nat)
    requires a < Pow2(k) && b < Pow2(k)
    ensures Or(a, b) < Pow2(k)
  {
    if k > 0 {
      OrHalves(a, b);
      OrFits(a / 2, b / 2, k - 1);
    }
  }

  lemma {:induction false} UpIsTimes(v: nat, s: nat)
    ensures Up(v, s) == v * Pow2(s)
  {
    if s > 0 {
      UpIsTimes(v, s - 1);
      assert v * (2 * Pow2(s - 1)) == 2 * (v * Pow2(s - 1));
    }
  }

  lemma {:induction false} UpFits(v: nat, n: nat, s: nat, k: nat)
    requires v < Pow2(n) && n + s <= k
    ensures Up(v, s) < Pow2(k)
  {
    if s > 0 {
      UpFits(v, n, s - 1, k - 1);
    } else if n < k {
      UpFits(v, n, 0, k - 1);
    }
  }

  lemma {:induction false} UpDown(v: nat, t: nat, s: nat)
    ensures Down(Up(v, t), s) == if s <= t then Up(v, t - s) else Down(v, s - t)
    decreases s
  {
    if s > 0 && t > 0 {
      UpDown(v, t - 1, s - 1);
    }
  }

  lemma {:induction false} DownToNothing(v: nat, m: nat, k: nat)
    requires v < Pow2(m) && m <= k
    ensures Down(v, k) == 0
    decreases k
  {
    if k > 0 {
      DownToNothing(v / 2, if m > 0 then m - 1 else 0, k - 1);
    }
  }

  lemma {:induction false} MaskedAway(v: nat, k: nat, m: nat, n: nat)
    requires m < Pow2(n) && n <= k
    ensures And(Up(v, k), m) == 0
    decreases n
  {
    if n > 0 {
      MaskedAway(v, k - 1, m / 2, n - 1);
      AndHalves(Up(v, k), m);
    }
  }

  // ----- channels -----

  /** A channel moved to its place, apart from the one that is read, is nothing there. */
  lemma OtherChannel(v: nat, t: nat, bits: nat, s: nat, max: u16, n: nat)
    requires v < Pow2(bits) && max < Pow2(n) && (s + n <= t || t + bits <= s)
    ensures And(Down(Up(v, t), s), max) == 0
  {
    UpDown(v, t, s);
    if s + n <= t {
      MaskedAway(v, t - s, max, n);
    } else if s <= t {
      assert bits == 0 && v == 0 && t == s;
    } else {
      DownToNothing(v, bits, s - t);
    }
  }

  /** A number of so many bits, moved to its place in a word of 32. */
  lemma Moved(v: nat, bits: nat, shift: nat, moved: nat)
    requires v < Pow2(bits) && shift + bits <= 32 && moved == v * Pow2(shift % 32)
    ensures moved % Pow2(32) == Up(v, shift)
  {
    if shift == 32 {
      assert v == 0 && moved == 0;
      UpIsTimes(0, 32);
      Unwrapped(0);
    } else {
      UpIsTimes(v, shift);
      UpFits(v, bits, shift, 32);
      assert moved < 4294967296 by {
        SmallPowers();
      }
      Unwrapped(moved);
    }
  }

  /** A colour scaled to a maximum: the greatest whole number not above the exact one. */
  function Scaled(value: byte, max: u16): (s: nat)
    ensures s * 255 <= value * max < (s + 1) * 255
  {
    value * max / 255
  }

  /** What a viewer should read of a channel. */
  function Wanted(value: byte, max: u16): nat {
    And(Scaled(value, max), max)
  }

  lemma ChannelIs(value: byte, max: u16, shift: u8, moved: nat)
    requires moved == Wanted(value, max) * Pow2(shift % 32)
    ensures Channel(value, max, shift) == moved % Pow2(32)
  {
  }

  lemma ChannelUp(f: PixelFormat, value: byte, max: u16, shift: u8, bits: nat)
    requires Produced(f) && Within(f, max, shift, bits)
    ensures Wanted(value, max) < Pow2(bits) && Channel(value, max, shift) == Up(Wanted(value, max), shift)
  {
    var v := Wanted(value, max);
    AndIsLess(Scaled(value, max), max);
    var moved: nat := v * Pow2(shift % 32);
    ChannelIs(value, max, shift, moved);
    Moved(v, bits, shift, moved);
  }

  /** The three channels as one word. */
  function Packed(f: PixelFormat, c: Colour): nat {
    Or(Or(Channel(c.red, f.redMax, f.redShift), Channel(c.green, f.greenMax, f.greenShift)),
       Channel(c.blue, f.blueMax, f.blueShift))
  }

  lemma ChannelRead(a: nat, b: nat, c: nat, s: u8, max: u16, v: nat)
    requires And(Down(a, s), max) == v && And(Down(b, s), max) == 0 && And(Down(c, s), max) == 0
    ensures ReadChannel(Or(Or(a, b), c), max, s) == v
    ensures ReadChannel(Or(Or(b, a), c), max, s) == v
    ensures ReadChannel(Or(Or(b, c), a), max, s) == v
  {
    ReadOr(Or(a, b), c, s, max);
    ReadOr(Or(b, a), c, s, max);
    ReadOr(Or(b, c), a, s, max);
    ReadOr(a, b, s, max);
    ReadOr(b, a, s, max);
    ReadOr(b, c, s, max);
  }

  lemma ReadOr(a: nat, b: nat, s: u8, max: u16)
    ensures And(Down(Or(a, b), s), max) == Or(And(Down(a, s), max), And(Down(b, s), max))
  {
    OrDown(a, b, s);
    OrMasked(Down(a, s), Down(b, s), max);
  }

  lemma OwnChannel(scaled: nat, max: u16, s: u8)
    ensures And(Down(Up(And(scaled, max), s), s), max) == And(scaled, max)
  {
    UpDown(And(scaled, max), s, s);
    AndTwice(scaled, max);
  }

  /** Whatever the three maxima, shifting a channel down and masking it gives the scaled colour masked. */
  lemma PackedReads(f: PixelFormat, c: Colour, red: nat, green: nat, blue: nat)
    requires Produced(f) && ChannelsApart(f, red, green, blue)
    ensures ReadChannel(Packed(f, c), f.redMax, f.redShift) == Wanted(c.red, f.redMax)
    ensures ReadChannel(Packed(f, c), f.greenMax, f.greenShift) == Wanted(c.green, f.greenMax)
    ensures ReadChannel(Packed(f, c), f.blueMax, f.blueShift) == Wanted(c.blue, f.blueMax)
  {
    var r, g, b := Wanted(c.red, f.redMax), Wanted(c.green, f.greenMax), Wanted(c.blue, f.blueMax);
    ChannelUp(f, c.red, f.redMax, f.redShift, red);
    ChannelUp(f, c.green, f.greenMax, f.greenShift, green);
    ChannelUp(f, c.blue, f.blueMax, f.blueShift, blue);
    Separate(f, r, g, b, red, green, blue);
    OwnChannel(Scaled(c.red, f.redMax), f.redMax, f.redShift);
    OwnChannel(Scaled(c.green, f.greenMax), f.greenMax, f.greenShift);
    OwnChannel(Scaled(c.blue, f.blueMax), f.blueMax, f.blueShift);
    var x, y, z := Up(r, f.redShift), Up(g, f.greenShift), Up(b, f.blueShift);
    ChannelRead(x, y, z, f.redShift, f.redMax, r);
    ChannelRead(y, x, z, f.greenShift, f.greenMax, g);
    ChannelRead(z, x, y, f.blueShift, f.blueMax, b);
  }

  lemma Separate(f: PixelFormat, r: nat, g: nat, b: nat, red: nat, green: nat, blue: nat)
    requires ChannelsApart(f, red, green, blue) && r < Pow2(red) && g < Pow2(green) && b < Pow2(blue)
    ensures And(Down(Up(g, f.greenShift), f.redShift), f.redMax) == 0 && And(Down(Up(b, f.blueShift), f.redShift), f.redMax) == 0
    ensures And(Down(Up(r, f.redShift), f.greenShift), f.greenMax) == 0 && And(Down(Up(b, f.blueShift), f.greenShift), f.greenMax) == 0
    ensures And(Down(Up(r, f.redShift), f.blueShift), f.blueMax) == 0 && And(Down(Up(g, f.greenShift), f.blueShift), f.blueMax) == 0
  {
    OtherChannel(g, f.greenShift, green, f.redShift, f.redMax, red);
    OtherChannel(b, f.blueShift, blue, f.redShift, f.redMax, red);
    OtherChannel(r, f.redShift, red, f.greenShift, f.greenMax, green);
    OtherChannel(b, f.blueShift, blue, f.greenShift, f.greenMax, green);
    OtherChannel(r, f.redShift, red, f.blueShift, f.blueMax, blue);
    OtherChannel(g, f.greenShift, green, f.blueShift, f.blueMax, blue);
  }

  /** The word fits the pixel, so that no bit of it is lost. */
  lemma PackedFits(f: PixelFormat, c: Colour, red: nat, green: nat, blue: nat)
    requires Produced(f) && ChannelsApart(f, red, green, blue)
    ensures Packed(f, c) < Pow2(f.bitsPerPixel)
  {
    ChannelUp(f, c.red, f.redMax, f.redShift, red);
    ChannelUp(f, c.green, f.greenMax, f.greenShift, green);
    ChannelUp(f, c.blue, f.blueMax, f.blueShift, blue);
    UpFits(Wanted(c.red, f.redMax), red, f.redShift, f.bitsPerPixel);
    UpFits(Wanted(c.green, f.greenMax), green, f.greenShift, f.bitsPerPixel);
    UpFits(Wanted(c.blue, f.blueMax), blue, f.blueShift, f.bitsPerPixel);
    var x, y, z := Channel(c.red, f.redMax, f.redShift), Channel(c.green, f.greenMax, f.greenShift),
                   Channel(c.blue, f.blueMax, f.blueShift);
    OrFits(x, y, f.bitsPerPixel);
    OrFits(Or(x, y), z, f.bitsPerPixel);
  }

  // ----- bytes -----

  lemma WordOfTwo(a: byte, b: byte)
    ensures Word([a, b], false) == a as int + 256 * b as int && Word([a, b], true) == a as int * 256 + b as int
  {
    assert [a, b][1..] == [b] && [b][1..] == [];
    assert [a, b][..1] == [a] && [a][..0] == [];
    assert Word([b], false) == b as int && Word([a], true) == a as int;
  }

  lemma WordOfFour(a: byte, b: byte, c: byte, d: byte)
    ensures Word([a, b, c, d], false) == a as int + 256 * b as int + 0x1_0000 * c as int + 0x100_0000 * d as int
    ensures Word([a, b, c, d], true) == 0x100_0000 * a as int + 0x1_0000 * b as int + 256 * c as int + d as int
  {
    WordOfTwo(c, d);
    WordOfTwo(a, b);
    assert [a, b, c, d][1..] == [b, c, d] && [b, c, d][1..] == [c, d];
    assert [a, b, c, d][..3] == [a, b, c] && [a, b, c][..2] == [a, b];
  }

  /** The bytes of a word, put together again. */
  lemma OneByte(packed: nat)
    requires packed < 256
    ensures packed == PackedByte(packed, 0) as int
  {
    SmallPowers();
  }

  lemma TwoBytes(packed: nat)
    requires packed < 0x1_0000
    ensures packed == PackedByte(packed, 0) as int + 256 * PackedByte(packed, 1) as int
  {
    SmallPowers();
  }

  lemma FourBytes(packed: nat)
    requires packed < 0x1_0000_0000
    ensures packed == PackedByte(packed, 0) as int + 256 * PackedByte(packed, 1) as int
                      + 0x1_0000 * PackedByte(packed, 2) as int + 0x100_0000 * PackedByte(packed, 3) as int
  {
    SmallPowers();
    assert packed / 0x1_0000 == packed / 256 / 256 && packed / 0x100_0000 == packed / 256 / 256 / 256;
  }

  /** The bytes of a word as they are sent. */
  lemma Sent(f: PixelFormat, c: Colour, i: nat)
    requires Produced(f) && i < Stride(f)
    ensures WritePixel(f, c)[i] == PackedByte(Packed(f, c), if f.bigEndian then Stride(f) - 1 - i else i)
  {
  }

  lemma WordOfOne(a: byte, bigEndian: bool)
    ensures Word([a], bigEndian) == a as int
  {
    assert [a][..0] == [] && [a][1..] == [];
  }

  lemma WordSent8(f: PixelFormat, c: Colour)
    requires f.bitsPerPixel == 8 && Packed(f, c) < 256
    ensures Word(WritePixel(f, c), f.bigEndian) == Packed(f, c)
  {
    var bytes := WritePixel(f, c);
    OneByte(Packed(f, c));
    Sent(f, c, 0);
    assert bytes == [bytes[0]];
    WordOfOne(bytes[0], f.bigEndian);
  }

  lemma WordSent16(f: PixelFormat, c: Colour)
    requires f.bitsPerPixel == 16 && Packed(f, c) < 0x1_0000
    ensures Word(WritePixel(f, c), f.bigEndian) == Packed(f, c)
  {
    var bytes := WritePixel(f, c);
    TwoBytes(Packed(f, c));
    Sent(f, c, 0);
    Sent(f, c, 1);
    assert bytes == [bytes[0], bytes[1]];
    WordOfTwo(bytes[0], bytes[1]);
  }

  lemma WordSent32(f: PixelFormat, c: Colour)
    requires f.bitsPerPixel == 32 && Packed(f, c) < 0x1_0000_0000
    ensures Word(WritePixel(f, c), f.bigEndian) == Packed(f, c)
  {
    var bytes := WritePixel(f, c);
    FourBytes(Packed(f, c));
    Sent(f, c, 0);
    Sent(f, c, 1);
    Sent(f, c, 2);
    Sent(f, c, 3);
    assert bytes == [bytes[0], bytes[1], bytes[2], bytes[3]];
    WordOfFour(bytes[0], bytes[1], bytes[2], bytes[3]);
  }

  /** The bytes sent make the word, in the order the format names. */
  lemma WordSent(f: PixelFormat, c: Colour)
    requires Produced(f) && Packed(f, c) < Pow2(f.bitsPerPixel)
    ensures Word(WritePixel(f, c), f.bigEndian) == Packed(f, c)
  {
    SmallPowers();
    if f.bitsPerPixel == 8 {
      WordSent8(f, c);
    } else if f.bitsPerPixel == 16 {
      WordSent16(f, c);
    } else {
      WordSent32(f, c);
    }
  }

  /** In every format whose channels lie within the pixel and apart, the viewer reads of each channel the
      colour scaled to its maximum and masked by it. */
  lemma PixelReads(f: PixelFormat, c: Colour, red: nat, green: nat, blue: nat)
    requires Produced(f) && ChannelsApart(f, red, green, blue)
    ensures var word := Word(WritePixel(f, c), f.bigEndian);
            && ReadChannel(word, f.redMax, f.redShift) == Wanted(c.red, f.redMax)
            && ReadChannel(word, f.greenMax, f.greenShift) == Wanted(c.green, f.greenMax)
            && ReadChannel(word, f.blueMax, f.blueShift) == Wanted(c.blue, f.blueMax)
  {
    PackedFits(f, c, red, green, blue);
    WordSent(f, c);
    PackedReads(f, c, red, green, blue);
  }

  lemma ScaledFits(value: byte, max: u16, bits: nat)
    requires max == Pow2(bits) - 1
    ensures Wanted(value, max) == Scaled(value, max) < Pow2(bits)
  {
    MulMonotone(value, 255, max);
    AndLowBits(Scaled(value, max), bits);
  }

  /** Where the maxima are all ones, as section 7.4 asks, that is the colour scaled to the maximum. */
  lemma ColourReads(f: PixelFormat, c: Colour, red: nat, green: nat, blue: nat)
    requires Produced(f) && ChannelsApart(f, red, green, blue)
    requires f.redMax == Pow2(red) - 1 && f.greenMax == Pow2(green) - 1 && f.blueMax == Pow2(blue) - 1
    ensures var word := Word(WritePixel(f, c), f.bigEndian);
            && ReadChannel(word, f.redMax, f.redShift) == Scaled(c.red, f.redMax)
            && ReadChannel(word, f.greenMax, f.greenShift) == Scaled(c.green, f.greenMax)
            && ReadChannel(word, f.blueMax, f.blueShift) == Scaled(c.blue, f.blueMax)
  {
    PixelReads(f, c, red, green, blue);
    ScaledFits(c.red, f.redMax, red);
    ScaledFits(c.green, f.greenMax, green);
    ScaledFits(c.blue, f.blueMax, blue);
  }

  const FIVE_SIX_FIVE := PixelFormat(16, false, 31, 63, 31, 11, 5, 0)
  const ODD_MAXIMUM := PixelFormat(8, false, 5, 7, 3, 5, 2, 0)

  /** Middle grey in sixteen bits is read as the middle of each channel. */
  lemma MiddleGrey()
    ensures ChannelsApart(FIVE_SIX_FIVE, 5, 6, 5)
    ensures var word := Word(WritePixel(FIVE_SIX_FIVE, Colour(128, 128, 128, 0)), false);
            ReadChannel(word, 31, 11) == 15 && ReadChannel(word, 63, 5) == 31 && ReadChannel(word, 31, 0) == 15
  {
    assert Pow2(5) == 32 && Pow2(6) == 64;
    ColourReads(FIVE_SIX_FIVE, Colour(128, 128, 128, 0), 5, 6, 5);
  }

  /** A maximum that is not all ones, which no check refuses, loses colour: two fifths are read as none. */
  lemma OddMaximum()
    ensures Produced(ODD_MAXIMUM) && ChannelsApart(ODD_MAXIMUM, 3, 3, 2)
    ensures Scaled(128, ODD_MAXIMUM.redMax) == 2
    ensures ReadChannel(Word(WritePixel(ODD_MAXIMUM, Colour(128, 0, 0, 0)), false), 5, 5) == 0
  {
    assert Pow2(3) == 8 && Pow2(2) == 4;
    PixelReads(ODD_MAXIMUM, Colour(128, 0, 0, 0), 3, 3, 2);
    assert And(2, 5) == 0 by {
      AndHalves(2, 5);
    }
  }
}
