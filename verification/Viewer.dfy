/** The two threads of the framebuffer server. The composing thread presents frames with their
    damage; the viewer thread takes the newest one when it is asked, works out what changed since
    what it sent last, and writes that. They share one record behind a mutex, so each step that
    touches it is atomic and the steps of the two threads interleave freely. */
module Viewer {
  import opened Basics
  import opened Geometry
  import opened VncFrame
  import opened TileDiff
  import opened Update
  import opened Hextile

  const MAX_PENDING_REGIONS := 64

  datatype Pending = Whole | Regions(regions: seq<Region>)

  /** Whether what is pending includes a pixel. */
  ghost predicate Includes(p: Pending, x: int, y: int) {
    p.Whole? || InRegions(p.regions, x, y)
  }

  /** A damage rectangle the wire's sixteen-bit coordinates can carry. */
  predicate Carried(r: Rect) {
    0 <= r.x <= U16_MAX && 0 <= r.y <= U16_MAX && r.width <= U16_MAX && r.height <= U16_MAX
  }

  /** Those are the rectangles that a region has the same numbers as. */
  lemma CarriedIff(r: Rect)
    ensures Carried(r) <==> 0 <= r.x < 0x1_0000 && 0 <= r.y < 0x1_0000 && r.width < 0x1_0000 && r.height < 0x1_0000
    ensures Carried(r) ==> forall x, y :: InRegion(Region(r.x, r.y, r.width, r.height), x, y) <==> InRect(r, x, y)
  {
  }

  /** `accumulate`: whole stays whole; a list that would grow too long, or a rectangle that does
      not fit the wire, becomes whole; otherwise the list grows by exactly the damage. */
  method Accumulate(pending: Pending, damage: seq<Rect>) returns (next: Pending)
    ensures next.Whole? <==> pending.Whole? || |pending.regions| + |damage| > 64
                             || exists i :: 0 <= i < |damage| && !Carried(damage[i])
    ensures forall x, y :: next.Regions? ==>
              (Includes(next, x, y) <==> Includes(pending, x, y) || Covered(damage, x, y))
    ensures next.Regions? ==> |next.regions| == |pending.regions| + |damage|
  {
    if pending.Whole? || |pending.regions| + |damage| > MAX_PENDING_REGIONS {
      return Whole;
    }
    var regions := pending.regions;
    var i := 0;
    while i < |damage|
      invariant 0 <= i <= |damage| && |regions| == |pending.regions| + i
      invariant forall j | 0 <= j < i :: Carried(damage[j])
      invariant forall x, y :: InRegions(regions, x, y) <==> InRegions(pending.regions, x, y) || Covered(damage[..i], x, y)
    {
      var r := damage[i];
      if !Carried(r) {
        return Whole;
      }
      var region := Region(r.x, r.y, r.width, r.height);
      forall x, y
        ensures InRegions(regions + [region], x, y)
                <==> InRegions(pending.regions, x, y) || Covered(damage[..i + 1], x, y)
      {
        RegionsPlus(regions, region, x, y);
        CoveredNext(damage, i, x, y);
      }
      regions := regions + [region];
      i := i + 1;
    }
    assert damage[..i] == damage;
    return Regions(regions);
  }

  lemma CoveredNext(damage: seq<Rect>, i: nat, x: int, y: int)
    requires i < |damage|
    ensures Covered(damage[..i + 1], x, y) <==> Covered(damage[..i], x, y) || InRect(damage[i], x, y)
  {
    var now, before := damage[..i + 1], damage[..i];
    assert now[i] == damage[i];
    assert forall j | 0 <= j < i :: now[j] == before[j];
  }

  /** A frame a viewer was brought up to: which one, in the format and encoding then in force, where in the
      list that viewer's first is, and what that viewer showed when it arrived. */
  datatype Serving = Serving(number: nat, format: PixelFormat, hextile: bool, first: nat, start: Screen)

  /** How it was brought up to it: the rectangles written, and the message. */
  datatype Delivery = Delivery(serving: Serving, regions: seq<Region>, message: seq<byte>)

  function WireFor(format: PixelFormat, hextile: bool): Wire
    requires Produced(format)
  {
    if hextile then HextileWire(format) else RawWire(format)
  }

  /** How a pixel is laid out in what a viewer shows: as the last update that drew it was. */
  ghost function LayoutAt(ds: seq<Delivery>, x: int, y: int): Option<Wire> {
    if ds == [] then None
    else
      var last := ds[|ds| - 1];
      if InRegions(last.regions, x, y) && Produced(last.serving.format)
      then Some(WireFor(last.serving.format, last.serving.hextile)) else LayoutAt(ds[..|ds| - 1], x, y)
  }

  /** Every pixel shown is the frame's, laid out as the last update that drew it. */
  ghost predicate Pictures(values: Screen, ds: seq<Delivery>, frame: seq<byte>, width: u16, height: u16)
    requires Framed(frame, width, height)
  {
    forall x, y | 0 <= x < width && 0 <= y < height ::
      LayoutAt(ds, x, y).Some? && values(x, y) == LayoutAt(ds, x, y).value(ColourAt(frame, width, height, x, y))
  }

  /** What a viewer decodes from the messages written to it. Where nothing had changed nothing was written. */
  function DecodeAll(start: Screen, ds: seq<Delivery>): Option<Screen> {
    if ds == [] then Some(start)
    else
      var before := DecodeAll(start, ds[..|ds| - 1]);
      var last := ds[|ds| - 1];
      if before.None? || last.regions == [] then before
      else
        var read := DecodeUpdate(before.value, last.message, Stride(last.serving.format));
        if read.Some? && read.value.1 == [] then Some(read.value.0) else None
  }

  lemma DecodeNext(start: Screen, ds: seq<Delivery>, shown: Screen, d: Delivery, after: Screen)
    requires DecodeAll(start, ds) == Some(shown)
    requires if d.regions == [] then after == shown
             else DecodeUpdate(shown, d.message, Stride(d.serving.format)) == Some((after, []))
    ensures DecodeAll(start, ds + [d]) == Some(after)
  {
    assert (ds + [d])[..|ds|] == ds;
  }

  lemma LayoutNext(ds: seq<Delivery>, d: Delivery, x: int, y: int)
    requires Produced(d.serving.format)
    ensures LayoutAt(ds + [d], x, y)
            == if InRegions(d.regions, x, y) then Some(WireFor(d.serving.format, d.serving.hextile)) else LayoutAt(ds, x, y)
  {
    assert (ds + [d])[..|ds|] == ds;
  }

  ghost predicate SamePixels(a: seq<byte>, b: seq<byte>, width: u16, height: u16)
    requires Framed(a, width, height) && Framed(b, width, height)
  {
    forall x, y :: !Differs(a, b, width, height, x, y)
  }

  /** Every pixel two frames differ at is included in what is pending. */
  ghost predicate Owed(a: seq<byte>, b: seq<byte>, width: u16, height: u16, p: Pending)
    requires Framed(a, width, height) && Framed(b, width, height)
  {
    forall x, y | Differs(a, b, width, height, x, y) :: Includes(p, x, y)
  }

  ghost predicate DamageCovers(a: seq<byte>, b: seq<byte>, width: u16, height: u16, damage: seq<Rect>)
    requires Framed(a, width, height) && Framed(b, width, height)
  {
    forall x, y | Differs(a, b, width, height, x, y) :: Covered(damage, x, y)
  }

  /** What is owed after another frame: everything owed before, and its damage. */
  lemma OwedAfter(sent: seq<byte>, held: seq<byte>, next: seq<byte>, width: u16, height: u16, p: Pending,
                  damage: seq<Rect>, q: Pending)
    requires Framed(sent, width, height) && Framed(held, width, height) && Framed(next, width, height)
    requires Owed(sent, held, width, height, p) && DamageCovers(held, next, width, height, damage)
    requires q.Regions? ==> forall x, y :: Includes(q, x, y) <==> Includes(p, x, y) || Covered(damage, x, y)
    ensures Owed(sent, next, width, height, q)
  {
    forall x, y | Differs(sent, next, width, height, x, y) ensures Includes(q, x, y) {
      assert Differs(sent, held, width, height, x, y) || Differs(held, next, width, height, x, y);
    }
  }

  /** A picture of the last frame, drawn over wherever the new one differs, is a picture of the new
      one. */
  lemma RedrawnShows(values: Screen, ds: seq<Delivery>, sent: seq<byte>, frame: seq<byte>, width: u16, height: u16,
                     d: Delivery, after: Screen)
    requires Framed(sent, width, height) && Framed(frame, width, height) && Produced(d.serving.format)
    requires Pictures(values, ds, sent, width, height)
    requires forall x, y | Differs(sent, frame, width, height, x, y) :: InRegions(d.regions, x, y)
    requires forall i | 0 <= i < |d.regions| :: Fits(d.regions[i], width, height)
    requires AllDrawn(values, after, d.regions, frame, width, height, WireFor(d.serving.format, d.serving.hextile))
    ensures Pictures(after, ds + [d], frame, width, height)
  {
    forall x, y | 0 <= x < width && 0 <= y < height
      ensures LayoutAt(ds + [d], x, y).Some?
              && after(x, y) == LayoutAt(ds + [d], x, y).value(ColourAt(frame, width, height, x, y))
    {
      LayoutNext(ds, d, x, y);
      if !InRegions(d.regions, x, y) {
        assert !Differs(sent, frame, width, height, x, y);
      }
    }
  }

  lemma WholeShows(values: Screen, ds: seq<Delivery>, frame: seq<byte>, width: u16, height: u16, d: Delivery, after: Screen)
    requires Framed(frame, width, height) && Produced(d.serving.format) && d.regions == [Region(0, 0, width, height)]
    requires AllDrawn(values, after, d.regions, frame, width, height, WireFor(d.serving.format, d.serving.hextile))
    ensures Pictures(after, ds + [d], frame, width, height)
  {
    WholeCovers(width, height);
    forall x, y | 0 <= x < width && 0 <= y < height
      ensures LayoutAt(ds + [d], x, y).Some?
              && after(x, y) == LayoutAt(ds + [d], x, y).value(ColourAt(frame, width, height, x, y))
    {
      LayoutNext(ds, d, x, y);
    }
  }

  /** With nothing to write, what is shown is the new frame already. */
  lemma SameShows(values: Screen, ds: seq<Delivery>, sent: seq<byte>, frame: seq<byte>, width: u16, height: u16, d: Delivery)
    requires Framed(sent, width, height) && Framed(frame, width, height) && Produced(d.serving.format) && d.regions == []
    requires Pictures(values, ds, sent, width, height) && SamePixels(sent, frame, width, height)
    ensures Pictures(values, ds + [d], frame, width, height)
  {
    forall x, y | 0 <= x < width && 0 <= y < height
      ensures LayoutAt(ds + [d], x, y).Some?
              && values(x, y) == LayoutAt(ds + [d], x, y).value(ColourAt(frame, width, height, x, y))
    {
      LayoutNext(ds, d, x, y);
      assert !Differs(sent, frame, width, height, x, y);
    }
  }

  /** What the viewer thread took under the mutex and has not written yet. */
  datatype Taken = Taken(frame: seq<byte>, bounds: seq<Region>)

  /** The rectangles an update is made of: everything, or rectangles holding every pixel in which the
      served frame differs from the one sent before, and none when it does not differ. */
  method UpdateRegions(previous: Option<seq<byte>>, serving: Taken, width: u16, height: u16) returns (regions: seq<Region>)
    requires Framed(serving.frame, width, height)
    requires previous.Some? ==> && Framed(previous.value, width, height)
                                && Owed(previous.value, serving.frame, width, height, Regions(serving.bounds))
    ensures previous.None? ==> regions == [Region(0, 0, width, height)]
    ensures previous.Some? ==>
              forall x, y | Differs(previous.value, serving.frame, width, height, x, y) :: InRegions(regions, x, y)
    ensures forall i | 0 <= i < |regions| :: InFrame(regions[i], width, height)
    ensures regions == [] ==> previous.Some? && SamePixels(previous.value, serving.frame, width, height)
    ensures previous.Some? && width > 0 && height > 0 && SamePixels(previous.value, serving.frame, width, height) ==>
              regions == []
    ensures Sized(width, height) ==> |regions| <= U16_MAX
  {
    ghost var found;
    regions, found := ChangedRegions(previous, serving.frame, width, height, serving.bounds);
    if previous.Some? {
      if SamePixels(previous.value, serving.frame, width, height) {
        NothingFound(previous.value, serving.frame, width, height, serving.bounds, found);
        assert width > 0 && height > 0 ==> width * height > 0;
      }
      assert regions == [] ==> forall x, y :: !InRegions(regions, x, y);
    }
  }

  /** Frames that are alike have no dirty tile. */
  lemma NothingFound(a: seq<byte>, b: seq<byte>, width: u16, height: u16, bounds: seq<Region>, found: seq<Region>)
    requires Framed(a, width, height) && Framed(b, width, height)
    requires SamePixels(a, b, width, height) && TilesFound(a, b, width, height, bounds, found)
    ensures found == [] && Area(found) == 0
  {
    if found != [] {
      FoundDiffers(a, b, width, height, bounds, found);
    }
  }

  lemma FoundDiffers(a: seq<byte>, b: seq<byte>, width: u16, height: u16, bounds: seq<Region>, found: seq<Region>)
    requires Framed(a, width, height) && Framed(b, width, height)
    requires TilesFound(a, b, width, height, bounds, found) && found != []
    ensures !SamePixels(a, b, width, height)
  {
    var x, y := found[0].x, found[0].y;
    assert InRegion(found[0], x, y) && InRegions(found, x, y);
    assert TileDirty(a, b, width, height, bounds, x / TILE, y / TILE);
  }

  /** Frames whose updates always count their rectangles in sixteen bits. */
  predicate Sized(width: u16, height: u16) {
    width <= 16384 && height <= 16384
  }

  /** The message written for these rectangles. Decoded over what the viewer has, it draws them from
      the frame, changes nothing else, and is consumed to its end. */
  method SendUpdate(regions: seq<Region>, frame: seq<byte>, width: u16, height: u16, format: PixelFormat,
                    hextile: bool, ghost values: Screen)
    returns (message: seq<byte>, ghost after: Screen)
    requires Framed(frame, width, height) && Produced(format)
    requires Sized(width, height) ==> |regions| <= U16_MAX
    requires forall i | 0 <= i < |regions| :: Fits(regions[i], width, height)
    ensures Sized(width, height) ==>
              && DecodeUpdate(values, message, Stride(format)) == Some((after, []))
              && AllDrawn(values, after, regions, frame, width, height, WireFor(format, hextile))
  {
    message, after := WriteUpdate(regions, frame, width, height, format, hextile, values);
    RowsOfFrame(frame, width, height);
  }

  /** A step of either thread. The composing thread only presents. */
  datatype Step =
    | Present(frame: seq<byte>, damage: seq<Rect>)
    | Accept(screen: Screen)
    | Request(whole: bool)
    | SetFormat(format: PixelFormat, hextile: bool)
    | Take
    | Deliver(written: bool)
    | Drop

  /** The two threads without damage and rectangles: frames by number, which of them was asked for, taken and
      served, and in what format. `served` lists the frames viewers were brought up to; the connected
      viewer's begin at `first`. */
  datatype Plan = Plan(presented: seq<seq<byte>>, connected: bool, shown: nat, asked: bool, askedWhole: bool,
                       format: PixelFormat, hextile: bool, sent: Option<seq<byte>>, taken: Option<seq<byte>>,
                       served: seq<Serving>, first: nat, start: Screen)

  function Blank(): Screen {
    (x: int, y: int) => []
  }

  function Start(): Plan {
    Plan([], false, 0, false, false, DECLARED, false, None, None, [], 0, Blank())
  }

  /** The frame taken, as it is served. */
  function Next(p: Plan): Serving {
    Serving(p.shown, p.format, p.hextile, p.first, p.start)
  }

  /** There is nothing to write: the viewer has this frame, and did not ask for all of it again. */
  ghost predicate Idle(p: Plan, width: u16, height: u16) {
    !p.askedWhole && p.sent.Some? && p.taken.Some? && Alike(p.sent.value, p.taken.value, width, height)
  }

  /** Two frames of this size that show the same. */
  ghost predicate Alike(a: seq<byte>, b: seq<byte>, width: u16, height: u16) {
    Framed(a, width, height) && Framed(b, width, height) && SamePixels(a, b, width, height)
  }

  /** A viewer arrives: it is sent what is declared until it asks for something else, and whole. */
  function Arrived(a: Plan, screen: Screen): Plan {
    a.(connected := true, shown := 0, asked := false, askedWhole := false, format := DECLARED, hextile := false, sent := None,
       first := |a.served|, start := screen)
  }

  /** The frame taken was served: a request is answered unless there was nothing to write. */
  function ServedBy(a: Plan, nothing: bool): Plan {
    a.(taken := None, sent := a.taken, served := a.served + [Next(a)], asked := a.asked && nothing,
       askedWhole := a.askedWhole && nothing)
  }

  /** The viewer was lost while it was written to. */
  function Lost(a: Plan): Plan {
    a.(taken := None, asked := false, askedWhole := false, connected := false)
  }

  /** A viewer that arrives is in the declared format, 32 bits with the three colours in its low three bytes,
      in raw, knows nothing and has asked for nothing; one that was served knows what it was served, and has
      asked for nothing more unless there was nothing to send; one that was lost is gone. */
  lemma PlansMean(a: Plan, screen: Screen)
    ensures var b := Arrived(a, screen);
            && b.connected && b.shown == 0 && !b.asked && !b.askedWhole && !b.hextile && b.sent.None?
            && b.format == PixelFormat(32, false, 255, 255, 255, 0, 8, 16)
            && b.presented == a.presented && b.served == a.served && b.taken == a.taken
            && b.first == |a.served| && b.start == screen
    ensures var b := ServedBy(a, false);
            !b.asked && !b.askedWhole && b.sent == a.taken && b.taken.None? && b.connected == a.connected
    ensures var b := ServedBy(a, true);
            b.asked == a.asked && b.askedWhole == a.askedWhole && b.sent == a.taken && b.taken.None? && b.connected == a.connected
    ensures !Lost(a).connected && Lost(a).taken.None? && Lost(a).served == a.served && Lost(a).presented == a.presented
    ensures forall nothing :: ServedBy(a, nothing).served == a.served + [Serving(a.shown, a.format, a.hextile, a.first, a.start)]
                              && ServedBy(a, nothing).presented == a.presented && ServedBy(a, nothing).shown == a.shown
                              && ServedBy(a, nothing).format == a.format && ServedBy(a, nothing).hextile == a.hextile
  {
  }

  /** One step of the plain server. */
  ghost predicate Serves(a: Plan, step: Step, b: Plan, width: u16, height: u16) {
    match step
    case Present(next, _) => b == a.(presented := a.presented + [next])
    case Accept(screen) => b == if a.taken.None? then Arrived(a, screen) else a
    case Request(whole) => b == if a.connected then a.(asked := true, askedWhole := a.askedWhole || whole) else a
    case SetFormat(wanted, tiles) =>
      b == if a.connected && a.taken.None? && Produced(wanted) then a.(format := wanted, hextile := tiles) else a
    case Take =>
      b == if a.connected && a.taken.None? && a.asked && a.shown != |a.presented| && a.presented != []
           then a.(shown := |a.presented|, taken := Some(a.presented[|a.presented| - 1])) else a
    case Deliver(written) =>
      if !a.connected || a.taken.None? then b == a
      else
        || (Idle(a, width, height) && b == ServedBy(a, true))
        || (!(Idle(a, width, height) && width > 0 && height > 0) && b == if written then ServedBy(a, false) else Lost(a))
    case Drop => b == if a.connected && a.taken.None? then a.(connected := false) else a
  }

  /** Folded, as the next two are: a proof that needs what is inside says `Unlock`. */
  ghost predicate AllFramed(frames: seq<seq<byte>>, width: u16, height: u16) {
    forall key: Key | Opened(key) :: forall i | 0 <= i < |frames| :: Framed(frames[i], width, height)
  }

  /** Every pixel in which the newest frame differs from what was sent is still owed: in `pending`, or
      in the bounds already taken. */
  ghost predicate Owing(presented: seq<seq<byte>>, connected: bool, shown: nat, sent: Option<seq<byte>>, taken: Option<Taken>,
                        pending: Pending, width: u16, height: u16)
  {
    forall key: Key | Opened(key) ::
      && AllFramed(presented, width, height)
      && (taken.Some? ==> && 1 <= shown <= |presented| && taken.value.frame == presented[shown - 1]
                          && OwedNewest(taken.value.frame, presented, width, height, pending))
      && (connected && sent.Some? && taken.None? ==>
            && 1 <= shown <= |presented| && sent.value == presented[shown - 1]
            && OwedNewest(sent.value, presented, width, height, pending))
      && (connected && sent.Some? && taken.Some? ==>
            && Framed(sent.value, width, height) && Framed(taken.value.frame, width, height)
            && Owed(sent.value, taken.value.frame, width, height, Regions(taken.value.bounds)))
  }

  ghost predicate OwedNewest(was: seq<byte>, presented: seq<seq<byte>>, width: u16, height: u16, pending: Pending) {
    && presented != [] && Framed(was, width, height) && Framed(presented[|presented| - 1], width, height)
    && Owed(was, presented[|presented| - 1], width, height, pending)
  }

  lemma OwedNewestNext(frame: seq<byte>, presented: seq<seq<byte>>, width: u16, height: u16, p: Pending, next: seq<byte>,
                       damage: seq<Rect>, q: Pending)
    requires OwedNewest(frame, presented, width, height, p) && Framed(next, width, height)
    requires DamageCovers(presented[|presented| - 1], next, width, height, damage)
    requires q.Regions? ==> forall x, y :: Includes(q, x, y) <==> Includes(p, x, y) || Covered(damage, x, y)
    ensures OwedNewest(frame, presented + [next], width, height, q)
  {
    OwedAfter(frame, presented[|presented| - 1], next, width, height, p, damage, q);
  }

  lemma OwingPresented(presented: seq<seq<byte>>, connected: bool, shown: nat, sent: Option<seq<byte>>, taken: Option<Taken>,
                       p: Pending, width: u16, height: u16, next: seq<byte>, damage: seq<Rect>, q: Pending)
    requires Owing(presented, connected, shown, sent, taken, p, width, height) && Framed(next, width, height)
    requires presented != [] ==> Framed(presented[|presented| - 1], width, height)
                                 && DamageCovers(presented[|presented| - 1], next, width, height, damage)
    requires q.Regions? ==> forall x, y :: Includes(q, x, y) <==> Includes(p, x, y) || Covered(damage, x, y)
    ensures Owing(presented + [next], connected, shown, sent, taken, q, width, height)
  {
    Unlock();
    if taken.Some? {
      OwedNewestNext(taken.value.frame, presented, width, height, p, next, damage, q);
    } else if connected && sent.Some? {
      OwedNewestNext(sent.value, presented, width, height, p, next, damage, q);
    }
  }

  lemma OwingAccepted(presented: seq<seq<byte>>, connected: bool, shown: nat, sent: Option<seq<byte>>, p: Pending,
                      width: u16, height: u16, q: Pending)
    requires Owing(presented, connected, shown, sent, None, p, width, height)
    ensures Owing(presented, true, 0, None, None, q, width, height)
  {
    Unlock();
  }

  lemma OwingTaken(presented: seq<seq<byte>>, shown: nat, sent: Option<seq<byte>>, p: Pending, width: u16, height: u16,
                   bounds: seq<Region>)
    requires Owing(presented, true, shown, sent, None, p, width, height) && presented != []
    requires bounds == if p.Whole? then [Region(0, 0, width, height)] else p.regions
    ensures Owing(presented, true, |presented|, sent, Some(Taken(presented[|presented| - 1], bounds)), Regions([]), width, height)
  {
    Unlock();
    WholeCovers(width, height);
  }

  lemma OwingServed(presented: seq<seq<byte>>, shown: nat, sent: Option<seq<byte>>, taken: Taken, p: Pending, width: u16,
                    height: u16)
    requires Owing(presented, true, shown, sent, Some(taken), p, width, height)
    ensures Owing(presented, true, shown, Some(taken.frame), None, p, width, height)
    ensures Owing(presented, false, shown, sent, None, p, width, height)
    ensures 1 <= shown <= |presented| && taken.frame == presented[shown - 1]
  {
    Unlock();
  }

  /** What was taken bounds every difference from the frame sent last. */
  lemma OwingDue(presented: seq<seq<byte>>, shown: nat, sent: Option<seq<byte>>, taken: Taken, p: Pending, width: u16,
                 height: u16)
    requires Owing(presented, true, shown, sent, Some(taken), p, width, height)
    ensures Framed(taken.frame, width, height)
    ensures sent.Some? ==> && Framed(sent.value, width, height)
                           && Owed(sent.value, taken.frame, width, height, Regions(taken.bounds))
  {
    Unlock();
  }

  lemma OwingGone(presented: seq<seq<byte>>, connected: bool, shown: nat, sent: Option<seq<byte>>, p: Pending, width: u16,
                  height: u16)
    requires Owing(presented, connected, shown, sent, None, p, width, height)
    ensures Owing(presented, false, shown, sent, None, p, width, height)
    ensures connected && sent.Some? ==>
              1 <= shown <= |presented| && sent.value == presented[shown - 1] && Framed(sent.value, width, height)
  {
    Unlock();
  }

  /** A viewer decodes what was written to it, and shows what was last sent. Folded. */
  ghost predicate Follows(start: Screen, ds: seq<Delivery>, values: Screen, sent: Option<seq<byte>>, width: u16, height: u16) {
    forall key: Key | Opened(key) ::
      Sized(width, height) ==>
        && DecodeAll(start, ds) == Some(values)
        && (sent.Some? ==> Framed(sent.value, width, height) && Pictures(values, ds, sent.value, width, height))
  }

  lemma FollowsFacts(start: Screen, ds: seq<Delivery>, values: Screen, sent: Option<seq<byte>>, width: u16, height: u16)
    requires Follows(start, ds, values, sent, width, height) && Sized(width, height)
    ensures DecodeAll(start, ds) == Some(values)
    ensures sent.Some? ==> Framed(sent.value, width, height) && Pictures(values, ds, sent.value, width, height)
  {
    Unlock();
  }

  lemma FollowsStart(start: Screen, width: u16, height: u16)
    ensures Follows(start, [], start, None, width, height)
  {
  }

  /** One delivery more, of a message or of nothing when nothing had changed. */
  lemma FollowsNext(start: Screen, ds: seq<Delivery>, values: Screen, sent: Option<seq<byte>>, width: u16, height: u16,
                    d: Delivery, next: Screen, frame: seq<byte>)
    requires Follows(start, ds, values, sent, width, height) && Framed(frame, width, height)
    requires Sized(width, height) ==> Pictures(next, ds + [d], frame, width, height)
    requires Sized(width, height) ==>
               if d.regions == [] then next == values
               else DecodeUpdate(values, d.message, Stride(d.serving.format)) == Some((next, []))
    ensures Follows(start, ds + [d], next, Some(frame), width, height)
  {
    Unlock();
    if Sized(width, height) {
      DecodeNext(start, ds, values, d, next);
    }
  }

  /** What a viewer shows after these deliveries is this frame, as it decoded it, where updates can be
      counted. Folded. */
  ghost predicate Depicts(start: Screen, ds: seq<Delivery>, frame: seq<byte>, width: u16, height: u16) {
    forall key: Key | Opened(key) ::
      && Framed(frame, width, height)
      && (Sized(width, height) ==>
            DecodeAll(start, ds).Some? && Pictures(DecodeAll(start, ds).value, ds, frame, width, height))
  }

  lemma FollowsDepicts(start: Screen, ds: seq<Delivery>, values: Screen, frame: seq<byte>, width: u16, height: u16)
    requires Follows(start, ds, values, Some(frame), width, height) && Framed(frame, width, height)
    ensures Depicts(start, ds, frame, width, height)
  {
    Unlock();
  }

  /** The deliveries to the viewer of one of them, up to it. */
  function Until(ds: seq<Delivery>, i: nat): seq<Delivery>
    requires i < |ds|
  {
    if ds[i].serving.first <= i then ds[ds[i].serving.first..i + 1] else []
  }

  /** After every frame a viewer was brought up to, it showed that frame. */
  ghost predicate ServedShown(presented: seq<seq<byte>>, served: seq<Serving>, ds: seq<Delivery>, width: u16, height: u16) {
    && |ds| == |served|
    && forall key: Key | Opened(key) ::
         forall i | 0 <= i < |served| ::
           && ds[i].serving == served[i] && 1 <= served[i].number <= |presented|
           && Depicts(served[i].start, Until(ds, i), presented[served[i].number - 1], width, height)
  }

  lemma PresentedMore(presented: seq<seq<byte>>, next: seq<byte>, served: seq<Serving>, ds: seq<Delivery>, width: u16,
                      height: u16)
    requires AllFramed(presented, width, height) && Framed(next, width, height)
    requires ServedShown(presented, served, ds, width, height)
    ensures AllFramed(presented + [next], width, height)
    ensures ServedShown(presented + [next], served, ds, width, height)
  {
    Unlock();
    forall i | 0 <= i < |served| ensures (presented + [next])[served[i].number - 1] == presented[served[i].number - 1] {
    }
  }

  lemma ServedMore(presented: seq<seq<byte>>, served: seq<Serving>, ds: seq<Delivery>, width: u16, height: u16, d: Delivery)
    requires ServedShown(presented, served, ds, width, height) && 1 <= d.serving.number <= |presented|
    requires d.serving.first <= |ds|
    requires Depicts(d.serving.start, ds[d.serving.first..] + [d], presented[d.serving.number - 1], width, height)
    ensures ServedShown(presented, served + [d.serving], ds + [d], width, height)
  {
    Unlock();
    var all, more := served + [d.serving], ds + [d];
    forall i | 0 <= i < |all|
      ensures more[i].serving == all[i] && 1 <= all[i].number <= |presented|
              && Depicts(all[i].start, Until(more, i), presented[all[i].number - 1], width, height)
    {
      if i < |served| {
        assert all[i] == served[i] && more[i] == ds[i] && Until(more, i) == Until(ds, i);
      } else {
        assert Until(more, i) == ds[d.serving.first..] + [d];
      }
    }
  }

  /** Every frame presented; every frame viewers were brought up to, and how; where the connected viewer's
      begin, and what it showed when it arrived and shows now. */
  datatype History = History(presented: seq<seq<byte>>, served: seq<Serving>, deliveries: seq<Delivery>, first: nat,
                             start: Screen, values: Screen)

  /** The deliveries to the connected viewer. */
  function Mine(h: History): seq<Delivery> {
    if h.first <= |h.deliveries| then h.deliveries[h.first..] else []
  }

  /** One delivery more, after which the viewer shows this. */
  function Delivering(h: History, d: Delivery, values: Screen): History {
    h.(served := h.served + [d.serving], deliveries := h.deliveries + [d], values := values)
  }

  /** What a viewer shows once a delivery reached it is a picture of a frame, and what it decoded.
      Folded. */
  ghost predicate Landed(h: History, d: Delivery, after: Screen, frame: seq<byte>, width: u16, height: u16) {
    forall key: Key | Opened(key) ::
      && Framed(frame, width, height)
      && (Sized(width, height) ==>
            && Pictures(after, Mine(h) + [d], frame, width, height)
            && if d.regions == [] then after == h.values
               else DecodeUpdate(h.values, d.message, Stride(d.serving.format)) == Some((after, [])))
  }

  /** What was delivered showed what it was to show, and the connected viewer shows what it was sent. */
  ghost predicate Recorded(h: History, connected: bool, sent: Option<seq<byte>>, width: u16, height: u16) {
    && ServedShown(h.presented, h.served, h.deliveries, width, height)
    && h.first <= |h.deliveries|
    && (connected ==> Follows(h.start, Mine(h), h.values, sent, width, height))
  }

  lemma DeliveringHolds(h: History, sent: Option<seq<byte>>, frame: seq<byte>, d: Delivery, after: Screen, width: u16, height: u16)
    requires h.first <= |h.deliveries| && ServedShown(h.presented, h.served, h.deliveries, width, height)
    requires Follows(h.start, Mine(h), h.values, sent, width, height)
    requires d.serving.first == h.first && d.serving.start == h.start
    requires 1 <= d.serving.number <= |h.presented| && frame == h.presented[d.serving.number - 1]
    requires Landed(h, d, after, frame, width, height)
    ensures var n := Delivering(h, d, after);
            Recorded(n, true, Some(frame), width, height)
  {
    Unlock();
    FollowsNext(h.start, Mine(h), h.values, sent, width, height, d, after, frame);
    FollowsDepicts(h.start, Mine(h) + [d], after, frame, width, height);
    ServedMore(h.presented, h.served, h.deliveries, width, height, d);
    assert Mine(Delivering(h, d, after)) == Mine(h) + [d];
  }

  class Server {
    const width: u16
    const height: u16
    // Shared behind the mutex.
    var id: nat
    var frame: Option<seq<byte>>
    var pending: Pending
    // The viewer thread's own.
    var connected: bool
    var shown: nat
    var asked: bool
    var askedWhole: bool
    var format: PixelFormat
    var hextile: bool
    var sent: Option<seq<byte>>
    var taken: Option<Taken>
    ghost var history: History

    ghost function AsPlan(): Plan
      reads this
    {
      Plan(history.presented, connected, shown, asked, askedWhole, format, hextile, sent,
           if taken.Some? then Some(taken.value.frame) else None, history.served, history.first, history.start)
    }

    ghost predicate FramesValid()
      reads this
    {
      && AllFramed(history.presented, width, height)
      && id == |history.presented|
      && frame == (if history.presented == [] then None else Some(history.presented[|history.presented| - 1]))
      && (taken.Some? ==> connected && history.presented != [])
    }

    ghost predicate Valid()
      reads this
    {
      && FramesValid() && Produced(format) && shown <= id
      && Owing(history.presented, connected, shown, sent, taken, pending, width, height)
      && Recorded(history, connected, sent, width, height)
    }

    constructor (width: u16, height: u16)
      ensures Valid() && this.width == width && this.height == height && AsPlan() == Start()
    {
      this.width, this.height := width, height;
      id, frame, pending := 0, None, Whole;
      connected, shown, asked, askedWhole := false, 0, false, false;
      format, hextile, sent, taken := DECLARED, false, None, None;
      history := History([], [], [], 0, Blank(), Blank());
    }

    /** `VncSink::present`. */
    method PresentFrame(next: seq<byte>, damage: seq<Rect>)
      requires Valid() && Framed(next, width, height)
      requires frame.Some? ==> Framed(frame.value, width, height) && DamageCovers(frame.value, next, width, height, damage)
      modifies this`id, this`frame, this`pending, this`history
      ensures Valid() && frame == Some(next) && id == old(id) + 1
      ensures AsPlan() == old(AsPlan()).(presented := old(history).presented + [next])
      ensures history == old(history).(presented := old(history).presented + [next])
    {
      id := id + 1;
      ghost var before := pending;
      pending := Accumulate(pending, damage);
      frame := Some(next);
      OwingPresented(history.presented, connected, shown, sent, taken, before, width, height, next, damage, pending);
      PresentedMore(history.presented, next, history.served, history.deliveries, width, height);
      history := history.(presented := history.presented + [next]);
    }

    /** A viewer arrives. One replacing another makes everything pending again. */
    method AcceptViewer(ghost screen: Screen)
      requires Valid() && taken.None?
      modifies this
      ensures Valid() && AsPlan() == Arrived(old(AsPlan()), screen)
      ensures history == old(history).(first := |old(history).deliveries|, start := screen, values := screen)
      ensures id == old(id) && frame == old(frame)
      ensures pending == if old(connected) then Whole else old(pending)
    {
      OwingAccepted(history.presented, connected, shown, sent, pending, width, height, if connected then Whole else pending);
      if connected {
        pending := Whole;
      }
      connected, shown, asked, askedWhole := true, 0, false, false;
      format, hextile, sent := DECLARED, false, None;
      FollowsStart(screen, width, height);
      history := history.(first := |history.deliveries|, start := screen, values := screen);
      assert Mine(history) == [];
    }

    /** The viewer asks for an update, of what changed or of everything. */
    method RequestUpdate(whole: bool)
      requires Valid() && connected
      modifies this`asked, this`askedWhole
      ensures Valid() && AsPlan() == old(AsPlan()).(asked := true, askedWhole := old(askedWhole) || whole)
    {
      asked := true;
      if whole {
        askedWhole := true;
      }
    }

    /** `frame_after` and the decision before it: the newest frame and everything pending, taken
        together under the mutex. */
    method TakeFrame() returns (took: bool)
      requires Valid() && connected && taken.None?
      modifies this`pending, this`shown, this`taken
      ensures Valid()
      ensures took <==> asked && id != old(shown) && frame.Some?
      ensures took ==> pending == Regions([])
                       && AsPlan() == old(AsPlan()).(shown := id, taken := frame)
      ensures !took ==> pending == old(pending) && shown == old(shown) && taken.None?
    {
      if !asked || id == shown || frame.None? {
        return false;
      }
      var bounds := if pending.Whole? then [Region(0, 0, width, height)] else pending.regions;
      OwingTaken(history.presented, shown, sent, pending, width, height, bounds);
      pending := Regions([]);
      shown := id;
      taken := Some(Taken(frame.value, bounds));
      return true;
    }

    /** The rest of the serve loop: compare, write what changed, and remember what was sent. A
        failed write ends the viewer; otherwise it has decoded the message over what it showed, and
        now shows the whole frame it was served, each pixel laid out as the last update that drew it. */
    method DeliverFrame(written: bool) returns (message: seq<byte>, regions: seq<Region>)
      requires Valid() && connected && taken.Some?
      modifies this
      ensures Valid() && pending == old(pending)
      ensures regions == [] ==> Idle(old(AsPlan()), width, height)
      ensures Idle(old(AsPlan()), width, height) && width > 0 && height > 0 ==> regions == []
      ensures old(askedWhole) ==> regions == [Region(0, 0, width, height)]
      ensures connected <==> regions == [] || written
      ensures AsPlan() == if connected then ServedBy(old(AsPlan()), regions == []) else Lost(old(AsPlan()))
      ensures history == if connected then Delivering(old(history), Delivery(Next(old(AsPlan())), regions, message), history.values)
                         else old(history)
    {
      var serving := taken.value;
      OwingDue(history.presented, shown, sent, serving, pending, width, height);
      regions := UpdateRegions(if askedWhole then None else sent, serving, width, height);
      message := [];
      ghost var after := history.values;
      if regions != [] {
        message, after := SendUpdate(regions, serving.frame, width, height, format, hextile, history.values);
      }
      ghost var d := Delivery(Next(AsPlan()), regions, message);
      ServedFrame(serving, d, after);
      Finish(d, regions == [], written, after);
    }

    /** The picture after an update was decoded, or found not to be needed. */
    lemma ServedFrame(serving: Taken, d: Delivery, after: Screen)
      requires Valid() && connected && taken == Some(serving) && Framed(serving.frame, width, height)
      requires d.serving == Next(AsPlan())
      requires Sized(width, height) ==>
                 if d.regions == [] then after == history.values
                 else DecodeUpdate(history.values, d.message, Stride(d.serving.format)) == Some((after, []))
      requires forall i | 0 <= i < |d.regions| :: Fits(d.regions[i], width, height)
      requires d.regions != [] && Sized(width, height) ==>
                 AllDrawn(history.values, after, d.regions, serving.frame, width, height, WireFor(format, hextile))
      requires if askedWhole || sent.None? then d.regions == [Region(0, 0, width, height)]
               else Framed(sent.value, width, height)
                    && forall x, y | Differs(sent.value, serving.frame, width, height, x, y) :: InRegions(d.regions, x, y)
      ensures Landed(history, d, after, serving.frame, width, height)
    {
      if !Sized(width, height) {
        return;
      }
      FollowsFacts(history.start, Mine(history), history.values, sent, width, height);
      if askedWhole || sent.None? {
        WholeShows(history.values, Mine(history), serving.frame, width, height, d, after);
      } else if d.regions == [] {
        assert forall x, y :: !InRegions(d.regions, x, y);
        SameShows(history.values, Mine(history), sent.value, serving.frame, width, height, d);
      } else {
        RedrawnShows(history.values, Mine(history), sent.value, serving.frame, width, height, d, after);
      }
    }

    /** The state after an update was written, or found not to be needed. */
    method Finish(ghost d: Delivery, nothing: bool, written: bool, ghost after: Screen)
      requires Valid() && connected && taken.Some? && d.serving == Next(AsPlan()) && nothing == (d.regions == [])
      requires Landed(history, d, after, taken.value.frame, width, height)
      modifies this`asked, this`askedWhole, this`taken, this`sent, this`connected, this`history
      ensures Valid() && (connected <==> nothing || written)
      ensures AsPlan() == if connected then ServedBy(old(AsPlan()), nothing) else Lost(old(AsPlan()))
      ensures history == if connected then Delivering(old(history), d, after) else old(history)
    {
      if nothing || written {
        Settle(d, nothing, after);
      } else {
        Lose();
      }
    }

    /** The frame taken is now the frame sent. */
    method Settle(ghost d: Delivery, nothing: bool, ghost after: Screen)
      requires Valid() && connected && taken.Some? && d.serving == Next(AsPlan()) && nothing == (d.regions == [])
      requires Landed(history, d, after, taken.value.frame, width, height)
      modifies this`asked, this`askedWhole, this`taken, this`sent, this`history
      ensures Valid() && AsPlan() == ServedBy(old(AsPlan()), nothing)
      ensures history == Delivering(old(history), d, after)
    {
      var frame := taken.value.frame;
      OwingServed(history.presented, shown, sent, taken.value, pending, width, height);
      DeliveringHolds(history, sent, frame, d, after, width, height);
      taken, sent := None, Some(frame);
      if !nothing {
        asked, askedWhole := false, false;
      }
      history := Delivering(history, d, after);
    }

    /** The write failed, and the viewer is gone. */
    method Lose()
      requires Valid() && connected && taken.Some?
      modifies this`asked, this`askedWhole, this`taken, this`connected
      ensures Valid() && !connected && AsPlan() == Lost(old(AsPlan()))
    {
      OwingServed(history.presented, shown, sent, taken.value, pending, width, height);
      taken, connected, asked, askedWhole := None, false, false, false;
    }

    /** One step of a schedule, skipped where its thread is not at it: what the plain server does. */
    method Perform(step: Step)
      requires Valid()
      requires step.Present? ==> Framed(step.frame, width, height)
                                 && (frame.Some? ==>
                                       && Framed(frame.value, width, height)
                                       && DamageCovers(frame.value, step.frame, width, height, step.damage))
      modifies this
      ensures Valid() && Serves(old(AsPlan()), step, AsPlan(), width, height)
      ensures frame == if step.Present? then Some(step.frame) else old(frame)
      ensures old(history).deliveries <= history.deliveries
    {
      if step.Present? {
        PresentFrame(step.frame, step.damage);
      } else if step.Take? || step.Deliver? {
        Brings(step);
      } else {
        Hears(step);
      }
    }

    /** The viewer brought up to a frame. */
    method Brings(step: Step)
      requires Valid() && (step.Take? || step.Deliver?)
      modifies this
      ensures Valid() && Serves(old(AsPlan()), step, AsPlan(), width, height)
      ensures frame == old(frame) && old(history).deliveries <= history.deliveries
    {
      match step
      case Take =>
        if connected && taken.None? {
          var took := TakeFrame();
        }
      case Deliver(written) =>
        if connected && taken.Some? {
          var message, regions := DeliverFrame(written);
        }
    }

    /** The viewer arriving, asking, or leaving. */
    method Hears(step: Step)
      requires Valid() && !step.Present? && !step.Take? && !step.Deliver?
      modifies this
      ensures Valid() && Serves(old(AsPlan()), step, AsPlan(), width, height)
      ensures frame == old(frame) && history.deliveries == old(history).deliveries
    {
      match step
      case Accept(screen) =>
        if taken.None? {
          AcceptViewer(screen);
        }
      case Request(whole) =>
        if connected {
          RequestUpdate(whole);
        }
      case SetFormat(wanted, tiles) =>
        if connected && taken.None? && Produced(wanted) {
          format, hextile := wanted, tiles;
        }
      case Drop =>
        if connected && taken.None? {
          OwingGone(history.presented, connected, shown, sent, pending, width, height);
          connected := false;
        }
    }
  }

  /** A schedule in which every presented frame differs from the one before it only inside the
      damage presented with it: what composition promises its sinks. */
  ghost predicate Honest(schedule: seq<Step>, held: Option<seq<byte>>, width: u16, height: u16)
    decreases |schedule|
  {
    schedule == [] ||
    if schedule[0].Present? then
      && Framed(schedule[0].frame, width, height)
      && (held.Some? ==> Framed(held.value, width, height)
                         && DamageCovers(held.value, schedule[0].frame, width, height, schedule[0].damage))
      && Honest(schedule[1..], Some(schedule[0].frame), width, height)
    else
      Honest(schedule[1..], held, width, height)
  }

  /** The frames a schedule presents. */
  function Frames(schedule: seq<Step>): seq<seq<byte>> {
    if schedule == [] then []
    else
      var before := Frames(schedule[..|schedule| - 1]);
      if schedule[|schedule| - 1].Present? then before + [schedule[|schedule| - 1].frame] else before
  }

  /** A run of the plain server. */
  ghost predicate Planned(plans: seq<Plan>, schedule: seq<Step>, width: u16, height: u16) {
    && |plans| == |schedule| + 1 && plans[0] == Start()
    && forall key: Key | Opened(key) ::
         forall i | 0 <= i < |schedule| ::
           Serves(plans[i], schedule[i], plans[i + 1], width, height)
  }

  lemma PlannedNext(plans: seq<Plan>, schedule: seq<Step>, step: Step, next: Plan, width: u16, height: u16)
    requires Planned(plans, schedule, width, height)
    requires Serves(plans[|schedule|], step, next, width, height)
    ensures Planned(plans + [next], schedule + [step], width, height)
  {
    Unlock();
    var all, more := plans + [next], schedule + [step];
    forall i | 0 <= i < |more| ensures Serves(all[i], more[i], all[i + 1], width, height) {
      if i < |schedule| {
        assert all[i] == plans[i] && all[i + 1] == plans[i + 1] && more[i] == schedule[i];
      }
    }
  }

  lemma {:induction false} PlannedFrames(plans: seq<Plan>, schedule: seq<Step>, width: u16, height: u16)
    requires Planned(plans, schedule, width, height)
    ensures plans[|schedule|].presented == Frames(schedule)
  {
    if schedule != [] {
      Unlock();
      var n := |schedule| - 1;
      PlannedFrames(plans[..n + 1], schedule[..n], width, height);
      assert Serves(plans[n], schedule[n], plans[n + 1], width, height);
    }
  }

  /** While no frame is presented and no viewer arrives, a viewer that was brought up to the newest frame
      is written nothing, whatever it asks for: a request for the whole frame waits for a newer one. */
  lemma {:induction false} RequestWaits(plans: seq<Plan>, schedule: seq<Step>, width: u16, height: u16, i: nat, j: nat)
    requires Planned(plans, schedule, width, height) && i <= j <= |schedule|
    requires forall k | i <= k < j :: !schedule[k].Present? && !schedule[k].Accept?
    requires plans[i].shown == |plans[i].presented| && plans[i].taken.None?
    ensures plans[j].served == plans[i].served && plans[j].taken.None?
    ensures plans[j].shown == plans[i].shown && plans[j].presented == plans[i].presented
    decreases j
  {
    if i < j {
      Unlock();
      RequestWaits(plans, schedule, width, height, i, j - 1);
      assert Serves(plans[j - 1], schedule[j - 1], plans[j], width, height);
    }
  }

  /** From some point on a schedule is honest. Folded. */
  ghost predicate HonestFrom(schedule: seq<Step>, i: nat, held: Option<seq<byte>>, width: u16, height: u16) {
    forall key: Key | Opened(key) :: i <= |schedule| && Honest(schedule[i..], held, width, height)
  }

  lemma HonestStart(schedule: seq<Step>, width: u16, height: u16)
    requires Honest(schedule, None, width, height)
    ensures HonestFrom(schedule, 0, None, width, height)
  {
    assert schedule[0..] == schedule;
  }

  lemma HonestNext(schedule: seq<Step>, i: nat, held: Option<seq<byte>>, width: u16, height: u16)
    requires HonestFrom(schedule, i, held, width, height) && i < |schedule|
    ensures schedule[i].Present? ==>
              && Framed(schedule[i].frame, width, height)
              && (held.Some? ==> Framed(held.value, width, height)
                                 && DamageCovers(held.value, schedule[i].frame, width, height, schedule[i].damage))
    ensures HonestFrom(schedule, i + 1, if schedule[i].Present? then Some(schedule[i].frame) else held, width, height)
  {
    Unlock();
    assert schedule[i..][0] == schedule[i] && schedule[i..][1..] == schedule[i + 1..];
  }

  /** The steps of a schedule, one after another. */
  method Follow(schedule: seq<Step>, width: u16, height: u16) returns (server: Server, ghost plans: seq<Plan>)
    requires Honest(schedule, None, width, height)
    ensures fresh(server) && server.Valid() && server.width == width && server.height == height
    ensures Planned(plans, schedule, width, height) && plans[|schedule|] == server.AsPlan()
  {
    server := new Server(width, height);
    plans := [Start()];
    HonestStart(schedule, width, height);
    var i := 0;
    while i < |schedule|
      invariant 0 <= i <= |schedule|
      invariant fresh(server) && server.width == width && server.height == height
      invariant server.Valid() && HonestFrom(schedule, i, server.frame, width, height)
      invariant Planned(plans, schedule[..i], width, height) && plans[i] == server.AsPlan()
    {
      HonestNext(schedule, i, server.frame, width, height);
      server.Perform(schedule[i]);
      PlannedNext(plans, schedule[..i], schedule[i], server.AsPlan(), width, height);
      assert schedule[..i + 1] == schedule[..i] + [schedule[i]];
      plans := plans + [server.AsPlan()];
      i := i + 1;
    }
    assert schedule[..i] == schedule;
  }

  /** Every interleaving of the two threads. Whatever was skipped, however often the pending list
      overflowed, formats changed and viewers were replaced, the server does what the plain one does:
      the frames presented are the schedule's, every frame a viewer was brought up to is what that
      viewer then showed, decoded from the bytes written to it, each pixel laid out in the format in
      force at the last update that drew it, and a viewer that has caught up shows the newest frame. */
  method Run(schedule: seq<Step>, width: u16, height: u16) returns (server: Server, ghost plans: seq<Plan>)
    requires Honest(schedule, None, width, height)
    ensures fresh(server) && server.Valid() && server.width == width && server.height == height
    ensures Planned(plans, schedule, width, height) && plans[|schedule|] == server.AsPlan()
    ensures Delivered(server.history, Frames(schedule), width, height)
    ensures server.connected ==>
              Current(server.history, server.shown, server.sent, server.taken, Frames(schedule), width, height)
  {
    server, plans := Follow(schedule, width, height);
    PlannedFrames(plans, schedule, width, height);
    if server.connected {
      CaughtUp(server.history, server.shown, server.sent, server.taken, server.pending, width, height);
    }
  }

  /** Of these frames, each that a viewer was brought up to is what that viewer then showed. */
  ghost predicate Delivered(h: History, frames: seq<seq<byte>>, width: u16, height: u16) {
    h.presented == frames && ServedShown(frames, h.served, h.deliveries, width, height)
  }

  /** The connected viewer shows what it decodes from the bytes written to it, and once it was sent the
      newest frame it shows that one. Folded. */
  ghost predicate Current(h: History, shown: nat, sent: Option<seq<byte>>, taken: Option<Taken>, frames: seq<seq<byte>>,
                          width: u16, height: u16)
  {
    forall key: Key | Opened(key) ::
      && (Sized(width, height) ==> DecodeAll(h.start, Mine(h)) == Some(h.values))
      && (sent.Some? && taken.None? && shown == |frames| ==>
            frames != [] && Depicts(h.start, Mine(h), frames[|frames| - 1], width, height))
  }

  /** What a connected viewer shows: what it decoded, and the newest frame if that is what it was sent. */
  lemma CaughtUp(h: History, shown: nat, sent: Option<seq<byte>>, taken: Option<Taken>, pending: Pending, width: u16,
                 height: u16)
    requires Owing(h.presented, true, shown, sent, taken, pending, width, height)
    requires Follows(h.start, Mine(h), h.values, sent, width, height)
    ensures Current(h, shown, sent, taken, h.presented, width, height)
  {
    if Sized(width, height) {
      FollowsFacts(h.start, Mine(h), h.values, sent, width, height);
    }
    if sent.Some? && taken.None? && shown == |h.presented| {
      ShowsNewest(h, sent.value, pending, width, height);
    }
  }

  lemma ShowsNewest(h: History, sent: seq<byte>, pending: Pending, width: u16, height: u16)
    requires Owing(h.presented, true, |h.presented|, Some(sent), None, pending, width, height)
    requires Follows(h.start, Mine(h), h.values, Some(sent), width, height)
    ensures h.presented != [] && Depicts(h.start, Mine(h), h.presented[|h.presented| - 1], width, height)
  {
    OwingGone(h.presented, true, |h.presented|, Some(sent), pending, width, height);
    FollowsDepicts(h.start, Mine(h), h.values, sent, width, height);
  }
}
