/** Displays: scales in lowest terms, the identity that survives an unplug, and where a window goes
    when nothing of it can be reached. */
module Displays {
  import opened Basics
  import opened Geometry

  // ----- scales -----

  const MAX_SCALE_TERM := 65_536

  ghost predicate Divides(d: nat, n: nat) {
    d > 0 && exists q: nat :: n == d * q
  }

  /** The largest number dividing both. */
  ghost predicate IsGcd(g: nat, a: nat, b: nat) {
    && Divides(g, a) && Divides(g, b)
    && forall d | Divides(d, a) && Divides(d, b) :: Divides(d, g)
  }

  lemma DividesRemainder(d: nat, a: nat, b: nat)
    requires b > 0 && Divides(d, b)
    ensures Divides(d, a) <==> Divides(d, a % b)
  {
    var q: nat :| b == d * q;
    var k := a / b;
    assert a == k * b + a % b;
    if Divides(d, a) {
      var p: nat :| a == d * p;
      Difference(d, p, q, k, a % b);
    }
    if Divides(d, a % b) {
      var r: nat :| a % b == d * r;
      assert k * (d * q) == d * (k * q) by {
        Shuffle(k, d, q);
      }
      assert a == d * (k * q + r) by {
        Distribute(d, k * q, r);
      }
    }
  }

  lemma Shuffle(k: nat, d: nat, q: nat)
    ensures k * (d * q) == d * (k * q)
  {
  }

  lemma Distribute(d: int, a: int, b: int)
    ensures d * (a + b) == d * a + d * b
  {
  }

  lemma Difference(d: nat, p: nat, q: nat, k: nat, rest: nat)
    requires d > 0 && d * p == k * (d * q) + rest
    ensures Divides(d, rest)
  {
    Shuffle(k, d, q);
    Distribute(d, p - k * q, k * q);
    assert d * (p - k * q) == rest;
    if p < k * q {
      NegativeProduct(d, p - k * q);
      assert false;
    }
    var n: nat := p - k * q;
    assert rest == d * n;
  }

  lemma NegativeProduct(d: nat, n: int)
    requires d > 0 && n < 0
    ensures d * n < 0
  {
  }

  lemma GcdStep(g: nat, a: nat, b: nat)
    requires b > 0
    ensures IsGcd(g, a, b) <==> IsGcd(g, b, a % b)
  {
    forall d: nat | Divides(d, b) ensures Divides(d, a) <==> Divides(d, a % b) {
      DividesRemainder(d, a, b);
    }
  }

  lemma GcdOfZero(a: nat)
    requires a > 0
    ensures IsGcd(a, a, 0)
  {
    assert a == a * 1 && 0 == a * 0;
  }

  /** `greatest_common_divisor`: the loop ends, with the greatest common divisor. */
  method GreatestCommonDivisor(x: nat, y: nat) returns (g: nat)
    ensures x > 0 || y > 0 ==> IsGcd(g, x, y)
    ensures x == 0 && y == 0 ==> g == 0
  {
    var a: nat, b: nat := x, y;
    while b != 0
      invariant (a > 0 || b > 0) == (x > 0 || y > 0)
      invariant forall d: nat :: IsGcd(d, a, b) <==> IsGcd(d, x, y)
      decreases b
    {
      forall d: nat ensures IsGcd(d, a, b) <==> IsGcd(d, b, a % b) {
        GcdStep(d, a, b);
      }
      a, b := b, a % b;
    }
    if a > 0 {
      GcdOfZero(a);
    }
    return a;
  }

  datatype Scale = Scale(numerator: u32, denominator: u32)

  ghost predicate Canonical(s: Scale) {
    && 0 < s.numerator <= MAX_SCALE_TERM && 0 < s.denominator <= MAX_SCALE_TERM
    && IsGcd(1, s.numerator, s.denominator)
  }

  lemma GcdUnique(g: nat, h: nat, a: nat, b: nat)
    requires IsGcd(g, a, b) && IsGcd(h, a, b)
    ensures g == h || (a == 0 && b == 0)
  {
    assert Divides(g, h) && Divides(h, g);
    var p: nat :| h == g * p;
    var q: nat :| g == h * q;
    Antisymmetric(g, h, p, q);
  }

  lemma Antisymmetric(g: nat, h: nat, p: nat, q: nat)
    requires g > 0 && h > 0 && h == g * p && g == h * q
    ensures g == h
  {
    if p > 0 && q > 0 {
      AtLeast(g, p);
      AtLeast(h, q);
    }
  }

  lemma AtLeast(g: nat, p: nat)
    requires p > 0
    ensures g * p >= g
  {
  }

  /** `scale_is_canonical`. */
  method ScaleIsCanonical(s: Scale) returns (canonical: bool)
    ensures canonical <==> Canonical(s)
    ensures canonical ==> 1 <= s.numerator <= 65_536 && 1 <= s.denominator <= 65_536
    ensures s.numerator == 65_536 && s.denominator == 1 ==> canonical
  {
    if s.numerator == 0 || s.denominator == 0 {
      return false;
    }
    if s.numerator > MAX_SCALE_TERM || s.denominator > MAX_SCALE_TERM {
      return false;
    }
    var g := GreatestCommonDivisor(s.numerator, s.denominator);
    canonical := g == 1;
    if IsGcd(1, s.numerator, s.denominator) {
      GcdUnique(g, 1, s.numerator, s.denominator);
    }
  }

  /** A number that shares no divisor with the first factor divides the second (Euclid's lemma). */
  lemma {:induction false} CoprimeDivides(a: nat, b: nat, c: nat)
    requires a > 0 && IsGcd(1, a, b) && Divides(a, b * c)
    ensures Divides(a, c)
    decreases b
  {
    if b == 0 {
      GcdOfZero(a);
      GcdUnique(1, a, a, 0);
      assert c == 1 * c;
    } else {
      CoprimeStep(a, b, c);
    }
  }

  lemma CoprimeStep(a: nat, b: nat, c: nat)
    requires a > 0 && b > 0 && IsGcd(1, a, b) && Divides(a, b * c)
    ensures Divides(a, c)
    decreases b, 0
  {
    // From a | b * c, with r the remainder of a by b: b | r * q for the cofactor q, and r < b.
    var q: nat :| b * c == a * q;
    GcdStep(1, a, b);
    var r := a % b;
    DivisorOfProduct(a, b, c, q);
    assert Divides(b, r * q);
    CoprimeDivides(b, r, q);
    var t: nat :| q == b * t;
    Cancel(a, b, c, t);
    assert c == a * t;
  }

  lemma DivisorOfProduct(a: nat, b: nat, c: nat, q: nat)
    requires a > 0 && b > 0 && b * c == a * q
    ensures Divides(b, (a % b) * q)
  {
    var k, r := a / b, a % b;
    assert a == k * b + r;
    assert a * q == k * b * q + r * q by {
      Distribute(q, k * b, r);
    }
    assert k * b * q == b * (k * q) by {
      Shuffle(k, b, q);
      assert k * b * q == k * (b * q);
    }
    Difference(b, c, q, k, r * q);
  }

  lemma Cancel(a: nat, b: nat, c: nat, t: nat)
    requires b > 0 && b * c == a * (b * t)
    ensures c == a * t
  {
    Shuffle(a, b, t);
    assert b * (c - a * t) == 0 by {
      Distribute(b, c - a * t, a * t);
    }
    if c != a * t {
      NonZero(b, c - a * t);
      assert false;
    }
  }

  lemma NonZero(b: nat, n: int)
    requires b > 0 && n != 0
    ensures b * n != 0
  {
  }

  lemma GcdSymmetric(g: nat, a: nat, b: nat)
    ensures IsGcd(g, a, b) <==> IsGcd(g, b, a)
  {
  }

  /** Two canonical scales denote the same ratio exactly when their fields are equal. */
  lemma CanonicalScalesEqual(s: Scale, t: Scale)
    requires Canonical(s) && Canonical(t)
    ensures s.numerator * t.denominator == t.numerator * s.denominator <==> s == t
  {
    var a, b, c, d := s.numerator, s.denominator, t.numerator, t.denominator;
    if a * d == c * b {
      assert Divides(a, b * c) by {
        assert b * c == a * d;
      }
      CoprimeDivides(a, b, c);
      GcdSymmetric(1, c, d);
      assert Divides(c, d * a) by {
        assert d * a == c * b;
      }
      GcdSymmetric(1, c, d);
      CoprimeDivides(c, d, a);
      var p: nat :| c == a * p;
      var q: nat :| a == c * q;
      Antisymmetric(a, c, p, q);
      assert a * d == a * b;
      if d != b {
        NonZero(a, d - b);
        Distribute(a, d - b, b);
        assert false;
      }
    }
  }

  // ----- where things are -----

  function SaturatingAdd(x: i32, width: u32): i32 {
    if (x as int) + (width as int) > I32_MAX then I32_MAX else (x as int) + (width as int)
  }

  function SaturatingSub(a: u32, b: u32): u32 {
    if a < b then 0 else (a as int) - (b as int)
  }

  /** `overlaps`. */
  predicate Overlaps(a: Rect, b: Rect) {
    && a.x < SaturatingAdd(b.x, b.width) && b.x < SaturatingAdd(a.x, a.width)
    && a.y < SaturatingAdd(b.y, b.height) && b.y < SaturatingAdd(a.y, a.height)
  }

  /** Nonempty, and far enough from the ends of the coordinate range that nothing saturates. */
  predicate Modest(r: Rect) {
    && 0 < r.width < 0x4000_0000 && 0 < r.height < 0x4000_0000
    && -0x4000_0000 < r.x < 0x4000_0000 && -0x4000_0000 < r.y < 0x4000_0000
  }

  /** Overlapping is sharing a pixel. */
  lemma OverlapsIsSharing(a: Rect, b: Rect)
    requires Modest(a) && Modest(b)
    ensures Overlaps(a, b) <==> exists px: int, py: int :: InRect(a, px, py) && InRect(b, px, py)
  {
    if Overlaps(a, b) {
      var px, py := Max(a.x, b.x), Max(a.y, b.y);
      assert InRect(a, px, py) && InRect(b, px, py);
    }
  }

  /** One axis of `clamp_into`. */
  function ClampAxis(low: i32, room: u32, at: i32): i32 {
    var high := SaturatingAdd(low, room);
    if at < low then low else if at > high then high else at
  }

  /** `clamp_into`. */
  function ClampInto(screen: Rect, area: Rect): Point {
    Point(ClampAxis(screen.x, SaturatingSub(screen.width, area.width), area.x),
          ClampAxis(screen.y, SaturatingSub(screen.height, area.height), area.y))
  }

  function At(area: Rect, p: Point): Rect {
    area.(x := p.x, y := p.y)
  }

  predicate Inside(a: Rect, screen: Rect) {
    && screen.x <= a.x && (a.x as int) + (a.width as int) <= (screen.x as int) + (screen.width as int)
    && screen.y <= a.y && (a.y as int) + (a.height as int) <= (screen.y as int) + (screen.height as int)
  }

  /** On one axis: wholly on the display if it fits, and otherwise beginning where the display does. */
  predicate SettledAxis(low: int, room: int, at: int, extent: int) {
    if extent <= room then low <= at && at + extent <= low + room else at == low
  }

  /** The places on a display an area may be moved to. */
  predicate Settled(screen: Rect, area: Rect, p: Point) {
    && SettledAxis(screen.x, screen.width, p.x, area.width)
    && SettledAxis(screen.y, screen.height, p.y, area.height)
  }

  function Abs(n: int): nat {
    if n < 0 then -n else n
  }

  /** Clamping moves the area to one of these places on the display, where it is seen, and to the
      nearest of them on either axis. */
  lemma ClampIsNearest(screen: Rect, area: Rect, p: Point)
    requires Modest(screen) && Modest(area)
    ensures var c := ClampInto(screen, area);
            && Overlaps(screen, At(area, c)) && Settled(screen, area, c)
            && (Settled(screen, area, p) ==> Abs(c.x - area.x) <= Abs(p.x - area.x) && Abs(c.y - area.y) <= Abs(p.y - area.y))
            && Abs(c.x - area.x) < 0x8000_0000 && Abs(c.y - area.y) < 0x8000_0000
  {
  }

  /** Where the area fits on both axes, those are exactly the places that show the whole of it. */
  lemma SettledWhereItFits(screen: Rect, area: Rect, p: Point)
    requires area.width <= screen.width && area.height <= screen.height
    ensures Settled(screen, area, p) <==> Inside(At(area, p), screen)
  {
  }

  /** The square of the distance from where the area is. */
  function Distance(area: Rect, p: Point): int {
    (p.x - area.x) * (p.x - area.x) + (p.y - area.y) * (p.y - area.y)
  }

  lemma SquareMonotone(a: int, b: int)
    requires Abs(a) <= Abs(b)
    ensures a * a <= b * b
  {
    assert a * a == Abs(a) * Abs(a) && b * b == Abs(b) * Abs(b);
    MulMonotone(Abs(a), Abs(b), Abs(a));
    MulMonotone(Abs(a), Abs(b), Abs(b));
  }

  lemma CloserOnBoth(area: Rect, c: Point, p: Point)
    requires Abs(c.x - area.x) <= Abs(p.x - area.x) && Abs(c.y - area.y) <= Abs(p.y - area.y)
    ensures Distance(area, c) <= Distance(area, p)
  {
    SquareMonotone(c.x - area.x, p.x - area.x);
    SquareMonotone(c.y - area.y, p.y - area.y);
  }

  /** On one axis, the coordinate nearest to where the area is at which it shares some coordinate
      with the display. */
  function TouchAxis(low: int, room: nat, at: int, extent: nat): int {
    if at + extent <= low then low - extent + 1 else if at >= low + room then low + room - 1 else at
  }

  /** Whether on one axis clamping moves an area no further than to the first shared coordinate:
      from beyond the display only if the one is a single coordinate wide, and otherwise only if
      the area is settled already. */
  predicate MovesNoFurther(low: int, room: nat, at: int, extent: nat) {
    if at + extent <= low then extent == 1
    else if at >= low + room then room == 1 || extent == 1
    else low <= at && (at == low || at + extent <= low + room)
  }

  lemma SquareStrict(a: int, b: int)
    requires Abs(a) < Abs(b)
    ensures a * a < b * b
  {
    SquareMonotone(Abs(a), Abs(b) - 1);
    assert a * a == Abs(a) * Abs(a) && b * b == Abs(b) * Abs(b);
    assert (Abs(b) - 1) * (Abs(b) - 1) == Abs(b) * Abs(b) - 2 * Abs(b) + 1;
  }

  function TouchAt(screen: Rect, area: Rect): Point
    requires Modest(screen) && Modest(area)
  {
    Point(TouchAxis(screen.x, screen.width, area.x, area.width), TouchAxis(screen.y, screen.height, area.y, area.height))
  }

  lemma TouchIsNearest(screen: Rect, area: Rect, p: Point)
    requires Modest(screen) && Modest(area)
    ensures Overlaps(screen, At(area, TouchAt(screen, area)))
    ensures Overlaps(screen, At(area, p)) ==> Distance(area, TouchAt(screen, area)) <= Distance(area, p)
  {
    var t := TouchAt(screen, area);
    if Overlaps(screen, At(area, p)) {
      CloserOnBoth(area, t, p);
    }
  }

  /** The documentation promises the shortest move that makes the area reachable. Clamping is the
      shortest move onto a display exactly when it moves no further than it must on both axes. */
  lemma ClampIsShortestIff(screen: Rect, area: Rect)
    requires Modest(screen) && Modest(area)
    ensures (forall p: Point | Overlaps(screen, At(area, p)) :: Distance(area, ClampInto(screen, area)) <= Distance(area, p))
       <==> && MovesNoFurther(screen.x, screen.width, area.x, area.width)
            && MovesNoFurther(screen.y, screen.height, area.y, area.height)
  {
    var c, t := ClampInto(screen, area), TouchAt(screen, area);
    forall p: Point ensures Overlaps(screen, At(area, p)) ==> Distance(area, t) <= Distance(area, p) {
      TouchIsNearest(screen, area, p);
    }
    TouchIsNearest(screen, area, t);
    ClampAgainstTouch(screen.x, screen.width, area.x, area.width);
    ClampAgainstTouch(screen.y, screen.height, area.y, area.height);
  }

  /** On one axis clamping never moves less than to the first shared coordinate, and no more exactly
      when it moves no further. */
  lemma ClampAgainstTouch(low: i32, room: u32, at: i32, extent: u32)
    requires 0 < room < 0x4000_0000 && 0 < extent < 0x4000_0000
    requires -0x4000_0000 < low < 0x4000_0000 && -0x4000_0000 < at < 0x4000_0000
    ensures var c, t := ClampAxis(low, SaturatingSub(room, extent), at) - at, TouchAxis(low, room, at, extent) - at;
            if MovesNoFurther(low, room, at, extent) then c * c == t * t else c * c > t * t
  {
    var c, t := ClampAxis(low, SaturatingSub(room, extent), at) - at, TouchAxis(low, room, at, extent) - at;
    if MovesNoFurther(low, room, at, extent) {
      assert c == t;
    } else {
      SquareStrict(t, c);
    }
  }

  /** An input of the failing family: a window left of a display is moved until all of it is seen,
      though moving it by one coordinate would make it reachable. */
  lemma ClampedFurther()
    ensures var screen, area := Rect(0, 0, 1000, 1000), Rect(-100, 0, 100, 100);
            && !Overlaps(screen, area) && Overlaps(screen, At(area, Point(-99, 0)))
            && Distance(area, Point(-99, 0)) == 1 && ClampInto(screen, area) == Point(0, 0)
  {
  }

  /** The distance of a candidate fits in sixty-four bits. */
  lemma DistanceFits(area: Rect, c: Point)
    requires Abs(c.x - area.x) < 0x8000_0000 && Abs(c.y - area.y) < 0x8000_0000
    ensures 0 <= Distance(area, c) <= I64_MAX
  {
    SquareMonotone(c.x - area.x, 0x7FFF_FFFF);
    SquareMonotone(c.y - area.y, 0x7FFF_FFFF);
    SquareMonotone(0, c.x - area.x);
    SquareMonotone(0, c.y - area.y);
  }

  // ----- the set of displays -----

  datatype Info = Info(size: Size, scale: Scale, refresh: u32)

  datatype Output = Output(info: Info, panel: bool, attached: bool, position: Option<Point>)

  datatype Listed = Listed(identity: nat, panel: bool, info: Info)

  datatype Delta = Delta(arrived: seq<nat>, returned: seq<nat>, departed: seq<nat>, reconfigured: seq<nat>)

  /** `area`: where a display is, if it is attached and placed. */
  function AreaOf(outputs: map<nat, Output>, id: nat): Option<Rect> {
    if id in outputs && outputs[id].attached && outputs[id].position.Some? then
      Some(Rect(outputs[id].position.value.x, outputs[id].position.value.y,
                outputs[id].info.size.width, outputs[id].info.size.height))
    else None
  }

  ghost predicate AllModest(outputs: map<nat, Output>) {
    forall id | AreaOf(outputs, id).Some? :: Modest(AreaOf(outputs, id).value)
  }

  predicate Listing(present: seq<Listed>, id: nat) {
    exists i | 0 <= i < |present| :: present[i].identity == id
  }

  /** One display of a topology change: what it makes of what was known. */
  function Attached(outputs: map<nat, Output>, d: Listed): map<nat, Output> {
    outputs[d.identity := Output(d.info, d.panel, true, if d.identity in outputs then outputs[d.identity].position else None)]
  }

  function AttachAll(outputs: map<nat, Output>, present: seq<Listed>): map<nat, Output> {
    if present == [] then outputs
    else Attached(AttachAll(outputs, present[..|present| - 1]), present[|present| - 1])
  }

  /** What the displays listed did, going by what was known before each. */
  function DeltaOf(outputs: map<nat, Output>, present: seq<Listed>): Delta {
    if present == [] then Delta([], [], [], [])
    else
      var known := AttachAll(outputs, present[..|present| - 1]);
      var before := DeltaOf(outputs, present[..|present| - 1]);
      var d := present[|present| - 1];
      if d.identity in known && known[d.identity].attached then
        (if known[d.identity].info != d.info then before.(reconfigured := before.reconfigured + [d.identity]) else before)
      else if d.identity in known then before.(returned := before.returned + [d.identity])
      else before.(arrived := before.arrived + [d.identity])
  }

  /** No display is listed twice. */
  ghost predicate DistinctlyListed(present: seq<Listed>) {
    forall i, j | 0 <= i < j < |present| :: present[i].identity != present[j].identity
  }

  lemma {:induction false} AttachAllFacts(outputs: map<nat, Output>, present: seq<Listed>)
    ensures var after := AttachAll(outputs, present);
            && (forall id :: id in after <==> id in outputs || Listing(present, id))
            && (forall id | id in after && Listing(present, id) :: after[id].attached)
            && (forall id | id in outputs && !Listing(present, id) :: after[id] == outputs[id])
            && (forall id | id in after :: after[id].position == if id in outputs then outputs[id].position else None)
  {
    if present != [] {
      AttachAllFacts(outputs, present[..|present| - 1]);
      ListingOne(present, |present| - 1);
      assert present[..|present|] == present;
    }
  }

  lemma {:induction false} DeltaFacts(outputs: map<nat, Output>, present: seq<Listed>)
    ensures var delta := DeltaOf(outputs, present);
            && (forall id :: id in delta.arrived <==> Listing(present, id) && id !in outputs)
            && (forall id :: id in delta.returned <==> Listing(present, id) && id in outputs && !outputs[id].attached)
            && NoDuplicates(delta.arrived) && NoDuplicates(delta.returned) && delta.departed == []
  {
    if present != [] {
      var init := present[..|present| - 1];
      DeltaFacts(outputs, init);
      AttachAllFacts(outputs, init);
      ListingOne(present, |present| - 1);
      assert present[..|present|] == present;
    }
  }

  /** Listed once each, a display is reconfigured exactly when it was attached and reports something
      else, and afterwards is known by what it reports. */
  lemma {:induction false} ReconfiguredFacts(outputs: map<nat, Output>, present: seq<Listed>, i: nat)
    requires DistinctlyListed(present) && i < |present|
    ensures var d := present[i];
            && (d.identity in DeltaOf(outputs, present).reconfigured <==>
                  d.identity in outputs && outputs[d.identity].attached && outputs[d.identity].info != d.info)
            && d.identity in AttachAll(outputs, present) && AttachAll(outputs, present)[d.identity].info == d.info
    decreases |present|
  {
    var init := present[..|present| - 1];
    AttachAllFacts(outputs, init);
    if i < |present| - 1 {
      assert init[i] == present[i];
      ReconfiguredFacts(outputs, init, i);
    } else {
      assert !Listing(init, present[i].identity);
      if present[i].identity in DeltaOf(outputs, init).reconfigured {
        OnlyListedReconfigured(outputs, init, present[i].identity);
      }
    }
  }

  lemma {:induction false} OnlyListedReconfigured(outputs: map<nat, Output>, present: seq<Listed>, id: nat)
    requires id in DeltaOf(outputs, present).reconfigured
    ensures Listing(present, id)
  {
    var init, last := present[..|present| - 1], present[|present| - 1];
    ListingOne(present, |present| - 1);
    assert present[..|present|] == present;
    if last.identity != id {
      OnlyListedReconfigured(outputs, init, id);
    }
  }

  class OutputSet {
    var outputs: map<nat, Output>

    constructor ()
      ensures outputs == map[]
    {
      outputs := map[];
    }

    /** `place`. */
    method Place(id: nat, p: Point) returns (known: bool)
      modifies this
      ensures known == (id in old(outputs))
      ensures outputs == if known then old(outputs)[id := old(outputs)[id].(position := Some(p))] else old(outputs)
    {
      known := id in outputs;
      if known {
        outputs := outputs[id := outputs[id].(position := Some(p))];
      }
    }

    /** `is_reachable`: whether the area shares a pixel with an attached, placed display. */
    method IsReachable(area: Rect) returns (reachable: bool)
      ensures reachable <==> exists id :: AreaOf(outputs, id).Some? && Overlaps(AreaOf(outputs, id).value, area)
    {
      reachable := exists id | id in outputs :: AreaOf(outputs, id).Some? && Overlaps(AreaOf(outputs, id).value, area);
    }

    ghost predicate SettledSomewhere(area: Rect, p: Point)
      reads this
    {
      exists id :: && AreaOf(outputs, id).Some? && Settled(AreaOf(outputs, id).value, area, p)
                   && Overlaps(AreaOf(outputs, id).value, At(area, p))
    }

    /** `nearest_reachable`: nothing if there is no display to move to; the same place if it can be
        reached; otherwise a place on a display where all of the area is seen that fits, and no such
        place on any display is nearer. */
    method NearestReachable(area: Rect) returns (r: Option<Point>)
      requires Modest(area) && AllModest(outputs)
      ensures r.None? <==> forall id :: AreaOf(outputs, id).None?
      ensures (exists id :: AreaOf(outputs, id).Some? && Overlaps(AreaOf(outputs, id).value, area)) ==> r == Some(Point(area.x, area.y))
      ensures r.Some? && r != Some(Point(area.x, area.y)) ==> SettledSomewhere(area, r.value)
      ensures r.Some? ==> exists id :: AreaOf(outputs, id).Some? && Overlaps(AreaOf(outputs, id).value, At(area, r.value))
      ensures r.Some? ==> Distance(area, r.value) <= I64_MAX
      ensures r.Some? ==> forall id, p: Point | AreaOf(outputs, id).Some? && Settled(AreaOf(outputs, id).value, area, p) ::
                            Distance(area, r.value) <= Distance(area, p)
    {
      var reachable := IsReachable(area);
      if reachable {
        var here := Point(area.x, area.y);
        assert At(area, here) == area;
        forall p: Point ensures Distance(area, here) <= Distance(area, p) {
          CloserOnBoth(area, here, p);
        }
        return Some(here);
      }
      r := NearestOf(outputs.Keys, area);
    }

    /** The nearest candidate of the displays given. */
    method NearestOf(ids: set<nat>, area: Rect) returns (r: Option<Point>)
      requires Modest(area) && AllModest(outputs)
      ensures r.None? <==> forall id | id in ids :: AreaOf(outputs, id).None?
      ensures r.Some? ==> SettledSomewhere(area, r.value)
      ensures r.Some? ==> Distance(area, r.value) <= I64_MAX
      ensures r.Some? ==> forall id, p: Point | id in ids && AreaOf(outputs, id).Some? && Settled(AreaOf(outputs, id).value, area, p) ::
                            Distance(area, r.value) <= Distance(area, p)
    {
      r := None;
      var left := ids;
      while left != {}
        invariant left <= ids
        invariant r.None? <==> forall id | id in ids && id !in left :: AreaOf(outputs, id).None?
        invariant r.Some? ==> SettledSomewhere(area, r.value)
        invariant r.Some? ==> Distance(area, r.value) <= I64_MAX
        invariant r.Some? ==> forall id, p: Point | && id in ids && id !in left && AreaOf(outputs, id).Some?
                                                    && Settled(AreaOf(outputs, id).value, area, p) ::
                                Distance(area, r.value) <= Distance(area, p)
        decreases left
      {
        var id :| id in left;
        left := left - {id};
        var screen := AreaOf(outputs, id);
        if screen.Some? {
          var c := ClampInto(screen.value, area);
          forall p: Point ensures Settled(screen.value, area, p) ==> Distance(area, c) <= Distance(area, p) {
            ClampIsNearest(screen.value, area, p);
            if Settled(screen.value, area, p) {
              CloserOnBoth(area, c, p);
            }
          }
          ClampIsNearest(screen.value, area, c);
          DistanceFits(area, c);
          if r.None? || Distance(area, c) < Distance(area, r.value) {
            r := Some(c);
          }
        }
      }
    }

    /** `apply`: what is attached afterwards is what was listed, with what each reports. Nothing is
        ever forgotten: a display that returns has the position it had, and one that goes keeps it. */
    method Apply(present: seq<Listed>) returns (delta: Delta)
      modifies this
      ensures forall id :: id in outputs <==> id in old(outputs) || Listing(present, id)
      ensures forall id | id in outputs :: outputs[id].attached == Listing(present, id)
      ensures forall id | id in old(outputs) :: outputs[id].position == old(outputs)[id].position
      ensures forall id | id in old(outputs) && !Listing(present, id) :: outputs[id].info == old(outputs)[id].info
      ensures forall id | id in outputs && id !in old(outputs) :: outputs[id].position == None
      ensures forall id :: id in delta.arrived <==> Listing(present, id) && id !in old(outputs)
      ensures forall id :: id in delta.returned <==> Listing(present, id) && id in old(outputs) && !old(outputs)[id].attached
      ensures forall id :: id in delta.departed <==> id in old(outputs) && old(outputs)[id].attached && !Listing(present, id)
      ensures NoDuplicates(delta.arrived) && NoDuplicates(delta.returned) && NoDuplicates(delta.departed)
      ensures DistinctlyListed(present) ==> forall i | 0 <= i < |present| ::
                && (present[i].identity in delta.reconfigured <==>
                      && present[i].identity in old(outputs) && old(outputs)[present[i].identity].attached
                      && old(outputs)[present[i].identity].info != present[i].info)
                && present[i].identity in outputs && outputs[present[i].identity].info == present[i].info
    {
      AttachAllFacts(outputs, present);
      DeltaFacts(outputs, present);
      forall i | 0 <= i < |present| && DistinctlyListed(present)
        ensures present[i].identity in DeltaOf(outputs, present).reconfigured <==>
                  && present[i].identity in outputs && outputs[present[i].identity].attached
                  && outputs[present[i].identity].info != present[i].info
        ensures present[i].identity in AttachAll(outputs, present)
                && AttachAll(outputs, present)[present[i].identity].info == present[i].info
      {
        ReconfiguredFacts(outputs, present, i);
      }
      delta := Arrivals(present);
      var departed := Departures(present);
      delta := delta.(departed := departed);
    }

    /** The displays listed, in order: new ones arrive, absent ones return, attached ones may have changed. */
    method Arrivals(present: seq<Listed>) returns (delta: Delta)
      modifies this
      ensures outputs == AttachAll(old(outputs), present) && delta == DeltaOf(old(outputs), present)
    {
      delta := Delta([], [], [], []);
      var i := 0;
      while i < |present|
        invariant 0 <= i <= |present|
        invariant outputs == AttachAll(old(outputs), present[..i]) && delta == DeltaOf(old(outputs), present[..i])
      {
        var d := present[i];
        assert present[..i + 1][..i] == present[..i];
        if d.identity in outputs && outputs[d.identity].attached {
          if outputs[d.identity].info != d.info {
            delta := delta.(reconfigured := delta.reconfigured + [d.identity]);
          }
        } else if d.identity in outputs {
          delta := delta.(returned := delta.returned + [d.identity]);
        } else {
          delta := delta.(arrived := delta.arrived + [d.identity]);
        }
        outputs := Attached(outputs, d);
        i := i + 1;
      }
      assert present[..i] == present;
    }

    /** Whatever was attached and is not listed goes, and is remembered. */
    method Departures(present: seq<Listed>) returns (departed: seq<nat>)
      modifies this
      ensures outputs.Keys == old(outputs).Keys
      ensures forall id | id in outputs :: outputs[id] == old(outputs)[id].(attached := old(outputs)[id].attached && Listing(present, id))
      ensures forall id :: id in departed <==> id in old(outputs) && old(outputs)[id].attached && !Listing(present, id)
      ensures NoDuplicates(departed)
    {
      departed := [];
      var left := outputs.Keys;
      while left != {}
        invariant left <= outputs.Keys && outputs.Keys == old(outputs).Keys
        invariant forall id | id in left :: outputs[id] == old(outputs)[id]
        invariant forall id | id in outputs && id !in left ::
                    outputs[id] == old(outputs)[id].(attached := old(outputs)[id].attached && Listing(present, id))
        invariant forall id :: id in departed <==> id in outputs && id !in left && old(outputs)[id].attached && !Listing(present, id)
        invariant NoDuplicates(departed)
        decreases left
      {
        var id :| id in left;
        left := left - {id};
        if outputs[id].attached && !Listing(present, id) {
          outputs := outputs[id := outputs[id].(attached := false)];
          departed := departed + [id];
        }
      }
    }
  }

  lemma ListingOne(present: seq<Listed>, i: nat)
    requires i < |present|
    ensures forall id :: Listing(present[..i + 1], id) <==> Listing(present[..i], id) || id == present[i].identity
  {
    forall id ensures Listing(present[..i + 1], id) <==> Listing(present[..i], id) || id == present[i].identity {
      assert present[..i + 1] == present[..i] + [present[i]];
      if Listing(present[..i], id) {
        var j :| 0 <= j < i && present[..i][j].identity == id;
        assert present[..i + 1][j].identity == id;
      }
      if id == present[i].identity {
        assert present[..i + 1][i].identity == id;
      }
    }
  }
}
