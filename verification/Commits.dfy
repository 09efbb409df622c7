/** Damage over several commits of one surface between two compositions. A commit replaces the damage
    of the one before, so the image kept of the surface is brought up to date with the last commit's
    damage alone. */
module Commits {
  import opened Basics
  import opened Geometry
  import opened Raster
  import opened Blit
  import opened Painter
  import opened SoftwareOutput

  /** What a client attaches and the damage it names before it commits. */
  datatype Commit = Commit(buffer: SoftwareBuffer, named: seq<Damage>)

  /** The damage of a commit: what was named, or everything when nothing was. */
  function CommitDamage(named: seq<Damage>): seq<Damage> {
    if named == [] then [Full] else named
  }

  /** A buffer of this size that the output accepts. */
  ghost predicate Fits(size: Size, bpp: u8, buffer: SoftwareBuffer) {
    && buffer.bpp == bpp && buffer.descriptor.size == size
    && ValidateForLayout(buffer.descriptor, bpp, |buffer.bytes|) == None
    && Readable(buffer.descriptor, bpp, |buffer.bytes|)
  }

  /** Buffers of one size, each accepted. Folded: a proof that needs what is inside says `Unlock`. */
  ghost predicate Accepted(size: Size, bpp: u8, commits: seq<Commit>) {
    forall key: Key | Opened(key) :: forall i | 0 <= i < |commits| :: Fits(size, bpp, commits[i].buffer)
  }

  lemma AcceptedOne(size: Size, bpp: u8, commits: seq<Commit>, i: nat)
    requires Accepted(size, bpp, commits) && i < |commits|
    ensures Fits(size, bpp, commits[i].buffer)
  {
    Unlock();
  }

  ghost function CommitPixel(size: Size, bpp: u8, commits: seq<Commit>, i: nat, x: nat, y: nat): seq<byte>
    requires Accepted(size, bpp, commits) && i < |commits| && x < size.width && y < size.height
  {
    AcceptedOne(size, bpp, commits, i);
    BufferPixel(commits[i].buffer, x, y)
  }

  /** Nothing changes from one commit to the next, or from the kept image to the first, that the
      later one does not name. */
  ghost predicate Honest(size: Size, bpp: u8, kept: Image, commits: seq<Commit>)
    requires Accepted(size, bpp, commits) && kept.size == size && Tight(kept.bytes, size, bpp)
  {
    forall i, x: nat, y: nat | 0 <= i < |commits| && x < size.width && y < size.height
      && PixelBefore(size, bpp, kept, commits, i, x, y) != CommitPixel(size, bpp, commits, i, x, y) ::
      Damaged(CommitDamage(commits[i].named), x, y)
  }

  ghost function PixelBefore(size: Size, bpp: u8, kept: Image, commits: seq<Commit>, i: nat, x: nat, y: nat): seq<byte>
    requires Accepted(size, bpp, commits) && kept.size == size && Tight(kept.bytes, size, bpp)
    requires i <= |commits| && x < size.width && y < size.height
  {
    if i == 0 then ImagePixel(size, kept.bytes, bpp, x, y) else CommitPixel(size, bpp, commits, i - 1, x, y)
  }

  /** The last of a row of commits names everything the earlier ones named. */
  ghost predicate LastCovers(size: Size, named: seq<seq<Damage>>)
    requires named != []
  {
    forall i, x: nat, y: nat | 0 <= i < |named| && x < size.width && y < size.height
      && Damaged(CommitDamage(named[i]), x, y) :: Damaged(CommitDamage(named[|named| - 1]), x, y)
  }

  ghost predicate Names(commits: seq<Commit>, named: seq<seq<Damage>>) {
    |commits| == |named| && forall i | 0 <= i < |commits| :: commits[i].named == named[i]
  }

  /** Composed after these commits, the surface shows the buffer committed last. */
  ghost predicate ShowsLast(size: Size, bpp: u8, kept: Image, commits: seq<Commit>)
    requires commits != [] && Accepted(size, bpp, commits) && kept.size == size && Tight(kept.bytes, size, bpp)
  {
    AcceptedOne(size, bpp, commits, |commits| - 1);
    var last := commits[|commits| - 1];
    forall after | Refreshed(Some(kept), last.buffer, CommitDamage(last.named), after) :: ShowsPixels(after, last.buffer)
  }

  lemma {:induction false} NeverChanges<T>(values: seq<T>)
    requires values != [] && forall i | 0 <= i < |values| - 1 :: values[i] == values[i + 1]
    ensures values[|values| - 1] == values[0]
  {
    if |values| > 1 {
      NeverChanges(values[..|values| - 1]);
    }
  }

  ghost function PixelHistory(size: Size, bpp: u8, kept: Image, commits: seq<Commit>, x: nat, y: nat)
    : (values: seq<seq<byte>>)
    requires Accepted(size, bpp, commits) && kept.size == size && Tight(kept.bytes, size, bpp)
    requires x < size.width && y < size.height
    ensures |values| == |commits| + 1
    ensures forall i | 0 <= i <= |commits| :: values[i] == PixelBefore(size, bpp, kept, commits, i, x, y)
  {
    seq(|commits| + 1, i requires 0 <= i <= |commits| => PixelBefore(size, bpp, kept, commits, i, x, y))
  }

  lemma Unnamed(size: Size, bpp: u8, kept: Image, commits: seq<Commit>, i: nat, x: nat, y: nat)
    requires Accepted(size, bpp, commits) && kept.size == size && Tight(kept.bytes, size, bpp)
    requires Honest(size, bpp, kept, commits) && x < size.width && y < size.height && i < |commits|
    requires !Damaged(CommitDamage(commits[i].named), x, y)
    ensures PixelBefore(size, bpp, kept, commits, i, x, y) == PixelBefore(size, bpp, kept, commits, i + 1, x, y)
  {
  }

  /** A pixel no commit names stays what the kept image has. */
  lemma Unchanged(size: Size, bpp: u8, kept: Image, commits: seq<Commit>, x: nat, y: nat)
    requires Accepted(size, bpp, commits) && kept.size == size && Tight(kept.bytes, size, bpp)
    requires Honest(size, bpp, kept, commits) && x < size.width && y < size.height
    requires forall i | 0 <= i < |commits| :: !Damaged(CommitDamage(commits[i].named), x, y)
    ensures PixelBefore(size, bpp, kept, commits, |commits|, x, y) == ImagePixel(size, kept.bytes, bpp, x, y)
  {
    var values := PixelHistory(size, bpp, kept, commits, x, y);
    forall i | 0 <= i < |values| - 1 ensures values[i] == values[i + 1] {
      Unnamed(size, bpp, kept, commits, i, x, y);
    }
    NeverChanges(values);
  }

  /** However honest the commits, the last one's damage is enough when it covers the earlier ones'. */
  lemma CoveringShowsLast(size: Size, bpp: u8, kept: Image, commits: seq<Commit>, named: seq<seq<Damage>>)
    requires commits != [] && Accepted(size, bpp, commits) && kept.size == size && Tight(kept.bytes, size, bpp)
    requires Honest(size, bpp, kept, commits) && Names(commits, named) && LastCovers(size, named)
    ensures ShowsLast(size, bpp, kept, commits)
  {
    var last := commits[|commits| - 1];
    AcceptedOne(size, bpp, commits, |commits| - 1);
    forall after | Refreshed(Some(kept), last.buffer, CommitDamage(last.named), after) ensures ShowsPixels(after, last.buffer) {
      forall x: nat, y: nat | x < size.width && y < size.height && !Damaged(CommitDamage(last.named), x, y)
        ensures ImagePixel(size, kept.bytes, bpp, x, y) == BufferPixel(last.buffer, x, y)
      {
        forall i | 0 <= i < |commits| ensures !Damaged(CommitDamage(commits[i].named), x, y) {
          assert named[i] == commits[i].named && named[|named| - 1] == last.named;
        }
        Unchanged(size, bpp, kept, commits, x, y);
      }
      HonestDamageShowsBuffer(Some(kept), last.buffer, CommitDamage(last.named), after);
    }
  }

  // ----- when it does not -----

  /** A buffer without gaps between its rows. */
  function Plain(size: Size, bpp: u8, bytes: seq<byte>): SoftwareBuffer
    requires size.width * bpp <= U32_MAX && |bytes| <= U64_MAX
  {
    SoftwareBuffer(BufferDescriptor(SoftwareShm, size, size.width * bpp, |bytes|), bpp, bytes)
  }

  lemma PlainAccepted(size: Size, bpp: u8, row: nat, bytes: seq<byte>)
    requires size.width > 0 && size.height > 0 && bpp > 0 && row == size.width * bpp && row <= U32_MAX
    requires Tight(bytes, size, bpp)
    ensures |bytes| <= U64_MAX
    ensures Fits(size, bpp, Plain(size, bpp, bytes))
  {
    assert |bytes| == row * size.height == (size.height - 1) * row + row;
    MulMonotone(size.height, U32_MAX, row);
    MulMonotone(row, U32_MAX, U32_MAX);
    MulMonotone(1, bpp, size.width);
  }

  lemma PlainPixel(size: Size, bpp: u8, bytes: seq<byte>, x: nat, y: nat)
    requires size.width * bpp <= U32_MAX && |bytes| <= U64_MAX && Tight(bytes, size, bpp)
    requires Readable(Plain(size, bpp, bytes).descriptor, bpp, |bytes|) && x < size.width && y < size.height
    ensures BufferPixel(Plain(size, bpp, bytes), x, y) == ImagePixel(size, bytes, bpp, x, y)
  {
  }

  lemma PixelZero(bytes: seq<byte>, stride: nat, bpp: nat, x: nat, y: nat, start: nat, at: nat)
    requires start == y * stride + x * bpp && start + bpp <= |bytes|
    requires at < start || start + bpp <= at
    requires forall i | 0 <= i < |bytes| && i != at :: bytes[i] == 0
    ensures PixelAt(bytes, stride, bpp, x, y) == seq(bpp, _ => 0)
  {
    var p := bytes[start..start + bpp];
    assert |p| == bpp && forall j | 0 <= j < bpp :: p[j] == 0;
  }

  lemma MarkOutside(size: Size, bpp: nat, row: nat, x: nat, y: nat, px: nat, py: nat, at: nat, start: nat)
    requires bpp > 0 && x < size.width && y < size.height && px < size.width && py < size.height
    requires (x, y) != (px, py) && row == size.width * bpp
    requires at == py * row + px * bpp && start == y * row + x * bpp
    ensures at < start || start + bpp <= at
  {
    TightPixelInside(size, bpp, x, y);
    TightPixelInside(size, bpp, px, py);
    RowPiece(row, py, px * bpp, y, x * bpp, x * bpp + bpp);
    PixelColumn(bpp, px, 1, x);
  }

  lemma MarkedThere(size: Size, bpp: nat, row: nat, px: nat, py: nat, at: nat)
    requires bpp > 0 && px < size.width && py < size.height && row == size.width * bpp && at == py * row + px * bpp
    ensures ImagePixel(size, Marked(size, bpp, at).bytes, bpp, px, py) != ImagePixel(size, BlankBytes(size, bpp), bpp, px, py)
  {
    MarkedHere(size, bpp, px, py, at);
    FirstByte(size, BlankBytes(size, bpp), bpp, px, py, row, at);
  }

  lemma MarkedOnlyThere(size: Size, bpp: nat, row: nat, px: nat, py: nat, at: nat, x: nat, y: nat)
    requires bpp > 0 && x < size.width && y < size.height && px < size.width && py < size.height
    requires row == size.width * bpp && at == py * row + px * bpp && (x, y) != (px, py)
    ensures ImagePixel(size, Marked(size, bpp, at).bytes, bpp, x, y) == ImagePixel(size, BlankBytes(size, bpp), bpp, x, y)
  {
    var start := PixelOffset(size, bpp, x, y);
    TightPixelInside(size, bpp, x, y);
    MarkOutside(size, bpp, row, x, y, px, py, at, start);
    PixelZero(Marked(size, bpp, at).bytes, row, bpp, x, y, start, at);
    PixelZero(BlankBytes(size, bpp), row, bpp, x, y, start, at);
  }

  /** Blank until the commit that names a pixel, and marked there from then on. */
  ghost function Marking(size: Size, bpp: u8, named: seq<seq<Damage>>, j: nat, at: nat): seq<Commit>
    requires size.width * bpp <= U32_MAX && |BlankBytes(size, bpp)| <= U64_MAX
  {
    seq(|named|, i requires 0 <= i < |named| =>
      Commit(Plain(size, bpp, if i < j then BlankBytes(size, bpp) else Marked(size, bpp, at).bytes), named[i]))
  }

  lemma MarkingHonest(size: Size, bpp: u8, named: seq<seq<Damage>>, j: nat, px: nat, py: nat, at: nat)
    requires size.width > 0 && size.height > 0 && bpp > 0 && size.width * bpp <= U32_MAX
    requires px < size.width && py < size.height && j < |named| && Damaged(CommitDamage(named[j]), px, py)
    requires at == py * (size.width * bpp) + px * bpp
    ensures |BlankBytes(size, bpp)| <= U64_MAX
    ensures var commits := Marking(size, bpp, named, j, at);
            && Accepted(size, bpp, commits) && Names(commits, named)
            && Honest(size, bpp, Image(size, BlankBytes(size, bpp)), commits)
  {
    var blank, marked := BlankBytes(size, bpp), Marked(size, bpp, at).bytes;
    PlainAccepted(size, bpp, size.width * bpp, blank);
    PlainAccepted(size, bpp, size.width * bpp, marked);
    var commits, kept := Marking(size, bpp, named, j, at), Image(size, blank);
    forall i, x: nat, y: nat | 0 <= i < |commits| && x < size.width && y < size.height
      && PixelBefore(size, bpp, kept, commits, i, x, y) != CommitPixel(size, bpp, commits, i, x, y)
      ensures Damaged(CommitDamage(commits[i].named), x, y)
    {
      PlainPixel(size, bpp, blank, x, y);
      PlainPixel(size, bpp, marked, x, y);
      if (x, y) != (px, py) {
        MarkedOnlyThere(size, bpp, size.width * bpp, px, py, at, x, y);
      }
    }
  }

  /** Reading a marked buffer whose mark is not named leaves a blank image blank. */
  lemma KeptIsRefreshed(size: Size, bpp: u8, named: seq<Damage>, px: nat, py: nat, at: nat)
    requires size.width > 0 && size.height > 0 && bpp > 0 && size.width * bpp <= U32_MAX
    requires px < size.width && py < size.height && !Damaged(CommitDamage(named), px, py)
    requires at == py * (size.width * bpp) + px * bpp
    ensures |Marked(size, bpp, at).bytes| <= U64_MAX
    ensures var buffer, kept := Plain(size, bpp, Marked(size, bpp, at).bytes), Image(size, BlankBytes(size, bpp));
            && Fits(size, bpp, buffer)
            && Refreshed(Some(kept), buffer, CommitDamage(named), kept)
  {
    var blank, marked := BlankBytes(size, bpp), Marked(size, bpp, at).bytes;
    PlainAccepted(size, bpp, size.width * bpp, marked);
    forall x: nat, y: nat | x < size.width && y < size.height && (x, y) != (px, py)
      ensures ImagePixel(size, blank, bpp, x, y) == BufferPixel(Plain(size, bpp, marked), x, y)
    {
      PlainPixel(size, bpp, marked, x, y);
      MarkedOnlyThere(size, bpp, size.width * bpp, px, py, at, x, y);
    }
  }

  lemma MarkingStale(size: Size, bpp: u8, named: seq<seq<Damage>>, j: nat, px: nat, py: nat, at: nat)
    requires size.width > 0 && size.height > 0 && bpp > 0 && size.width * bpp <= U32_MAX
    requires px < size.width && py < size.height && j < |named| && !Damaged(CommitDamage(named[|named| - 1]), px, py)
    requires at == py * (size.width * bpp) + px * bpp && |BlankBytes(size, bpp)| <= U64_MAX
    requires Accepted(size, bpp, Marking(size, bpp, named, j, at))
    ensures !ShowsLast(size, bpp, Image(size, BlankBytes(size, bpp)), Marking(size, bpp, named, j, at))
  {
    var marked := Marked(size, bpp, at).bytes;
    var last := Marking(size, bpp, named, j, at)[|named| - 1];
    KeptIsRefreshed(size, bpp, named[|named| - 1], px, py, at);
    assert last == Commit(Plain(size, bpp, marked), named[|named| - 1]);
    MarkSeen(size, bpp, px, py, at);
    NotShownLast(size, bpp, Image(size, BlankBytes(size, bpp)), Marking(size, bpp, named, j, at), last);
  }

  lemma NotShownLast(size: Size, bpp: u8, kept: Image, commits: seq<Commit>, last: Commit)
    requires commits != [] && Accepted(size, bpp, commits) && kept.size == size && Tight(kept.bytes, size, bpp)
    requires last == commits[|commits| - 1] && Fits(size, bpp, last.buffer)
    requires Refreshed(Some(kept), last.buffer, CommitDamage(last.named), kept) && !ShowsPixels(kept, last.buffer)
    ensures !ShowsLast(size, bpp, kept, commits)
  {
  }

  /** A blank image does not show a marked buffer. */
  lemma MarkSeen(size: Size, bpp: u8, px: nat, py: nat, at: nat)
    requires size.width > 0 && size.height > 0 && bpp > 0 && size.width * bpp <= U32_MAX
    requires px < size.width && py < size.height && at == py * (size.width * bpp) + px * bpp
    requires |Marked(size, bpp, at).bytes| <= U64_MAX
    ensures !ShowsPixels(Image(size, BlankBytes(size, bpp)), Plain(size, bpp, Marked(size, bpp, at).bytes))
  {
    var marked := Marked(size, bpp, at).bytes;
    PlainAccepted(size, bpp, size.width * bpp, marked);
    PlainPixel(size, bpp, marked, px, py);
    MarkedThere(size, bpp, size.width * bpp, px, py, at);
  }

  /** A pixel that an earlier commit names and the last does not: honest commits after which the
      surface still shows what it showed before them. */
  lemma UncoveredGoesStale(size: Size, bpp: u8, named: seq<seq<Damage>>, j: nat, px: nat, py: nat)
    returns (kept: Image, commits: seq<Commit>)
    requires size.width > 0 && size.height > 0 && bpp > 0 && size.width * bpp <= U32_MAX
    requires px < size.width && py < size.height && j < |named| && Damaged(CommitDamage(named[j]), px, py)
    requires !Damaged(CommitDamage(named[|named| - 1]), px, py)
    ensures kept.size == size && Tight(kept.bytes, size, bpp) && Accepted(size, bpp, commits)
    ensures Names(commits, named) && Honest(size, bpp, kept, commits)
    ensures !ShowsLast(size, bpp, kept, commits)
  {
    var at := PixelOffset(size, bpp, px, py);
    MarkingHonest(size, bpp, named, j, px, py, at);
    MarkingStale(size, bpp, named, j, px, py, at);
    kept, commits := Image(size, BlankBytes(size, bpp)), Marking(size, bpp, named, j, at);
  }

  /** Whatever honest clients draw, composing only after their last commit shows it exactly when that
      commit names everything the earlier ones named: otherwise some honest client is shown pixels it
      has drawn over. */
  lemma ShowsLastIff(size: Size, bpp: u8, named: seq<seq<Damage>>)
    requires size.width > 0 && size.height > 0 && bpp > 0 && size.width * bpp <= U32_MAX && named != []
    ensures (forall kept: Image, commits: seq<Commit> |
               && kept.size == size && Tight(kept.bytes, size, bpp) && Accepted(size, bpp, commits)
               && Names(commits, named) && Honest(size, bpp, kept, commits) :: ShowsLast(size, bpp, kept, commits))
            <==> LastCovers(size, named)
  {
    if LastCovers(size, named) {
      forall kept: Image, commits: seq<Commit> |
        && kept.size == size && Tight(kept.bytes, size, bpp) && Accepted(size, bpp, commits)
        && Names(commits, named) && Honest(size, bpp, kept, commits)
        ensures ShowsLast(size, bpp, kept, commits)
      {
        CoveringShowsLast(size, bpp, kept, commits, named);
      }
    } else {
      var j, px: nat, py: nat :| 0 <= j < |named| && px < size.width && py < size.height
                                 && Damaged(CommitDamage(named[j]), px, py)
                                 && !Damaged(CommitDamage(named[|named| - 1]), px, py);
      var kept, commits := UncoveredGoesStale(size, bpp, named, j, px, py);
    }
  }

  lemma TwoPixels(bytes: seq<byte>, x: nat, y: nat)
    requires |bytes| == 2 && x < 2 && y < 1
    ensures Fits(Size(2, 1), 1, Plain(Size(2, 1), 1, bytes))
    ensures ImagePixel(Size(2, 1), bytes, 1, x, y) == [bytes[x]] == BufferPixel(Plain(Size(2, 1), 1, bytes), x, y)
  {
    PlainAccepted(Size(2, 1), 1, 2, bytes);
    assert bytes[x..x + 1] == [bytes[x]];
  }

  const PAIR := Size(2, 1)
  const LEFT: seq<Damage> := [Area(Rect(0, 0, 1, 1))]
  const RIGHT: seq<Damage> := [Area(Rect(1, 0, 1, 1))]
  const BLANK := Image(PAIR, [0, 0])
  const HALF_DRAWN := Image(PAIR, [0, 1])
  const BOTH_DRAWN: seq<Commit> := [Commit(Plain(PAIR, 1, [1, 0]), LEFT), Commit(Plain(PAIR, 1, [1, 1]), RIGHT)]

  lemma Halves(x: nat, y: nat)
    requires x < 2 && y < 1
    ensures Damaged(CommitDamage(LEFT), x, y) <==> x == 0
    ensures Damaged(CommitDamage(RIGHT), x, y) <==> x == 1
  {
    assert CommitDamage(LEFT) == LEFT && CommitDamage(RIGHT) == RIGHT;
    assert DamageHits(LEFT[0], x, y) <==> x == 0;
    assert DamageHits(RIGHT[0], x, y) <==> x == 1;
  }

  lemma BothAccepted()
    ensures Accepted(PAIR, 1, BOTH_DRAWN)
  {
    TwoPixels([1, 0], 0, 0);
    TwoPixels([1, 1], 0, 0);
  }

  lemma BothHonest()
    requires Accepted(PAIR, 1, BOTH_DRAWN) && Tight(BLANK.bytes, PAIR, 1)
    ensures Honest(PAIR, 1, BLANK, BOTH_DRAWN)
  {
    forall i, x: nat, y: nat | 0 <= i < 2 && x < 2 && y < 1
      && PixelBefore(PAIR, 1, BLANK, BOTH_DRAWN, i, x, y) != CommitPixel(PAIR, 1, BOTH_DRAWN, i, x, y)
      ensures Damaged(CommitDamage(BOTH_DRAWN[i].named), x, y)
    {
      Halves(x, y);
      TwoPixels([0, 0], x, y);
      TwoPixels([1, 0], x, y);
      TwoPixels([1, 1], x, y);
    }
  }

  lemma SecondRefreshed()
    requires Fits(PAIR, 1, BOTH_DRAWN[1].buffer) && Tight(BLANK.bytes, PAIR, 1)
    ensures Refreshed(Some(BLANK), BOTH_DRAWN[1].buffer, CommitDamage(RIGHT), HALF_DRAWN)
  {
    forall x: nat, y: nat | x < 2 && y < 1
      ensures ImagePixel(PAIR, HALF_DRAWN.bytes, 1, x, y) == if x == 1 then [1] else ImagePixel(PAIR, BLANK.bytes, 1, x, y)
      ensures BufferPixel(BOTH_DRAWN[1].buffer, x, y) == [1] && (Damaged(CommitDamage(RIGHT), x, y) <==> x == 1)
    {
      Halves(x, y);
      TwoPixels([0, 0], x, y);
      TwoPixels([0, 1], x, y);
      TwoPixels([1, 1], x, y);
    }
  }

  /** The family in one input: two pixels, each drawn and named by a commit of its own. Only the
      second is shown. */
  lemma FirstOfTwoIsLost()
    ensures Tight(BLANK.bytes, PAIR, 1) && Accepted(PAIR, 1, BOTH_DRAWN) && Honest(PAIR, 1, BLANK, BOTH_DRAWN)
    ensures var last := BOTH_DRAWN[1];
            && Readable(last.buffer.descriptor, last.buffer.bpp, |last.buffer.bytes|)
            && Refreshed(Some(BLANK), last.buffer, CommitDamage(last.named), HALF_DRAWN)
            && !ShowsPixels(HALF_DRAWN, last.buffer)
  {
    BothAccepted();
    AcceptedOne(PAIR, 1, BOTH_DRAWN, 1);
    BothHonest();
    SecondRefreshed();
    TwoPixels([0, 1], 0, 0);
    TwoPixels([1, 1], 0, 0);
  }

  /** A commit that names nothing is read as a whole. */
  lemma NothingNamedIsAll(x: int, y: int)
    ensures Damaged(CommitDamage([]), x, y)
    ensures forall named | named != [] :: Damaged(CommitDamage(named), x, y) <==> exists d :: d in named && DamageHits(d, x, y)
  {
    assert DamageHits(CommitDamage([])[0], x, y);
    forall named: seq<Damage> | named != []
      ensures Damaged(CommitDamage(named), x, y) <==> exists d :: d in named && DamageHits(d, x, y)
    {
      if d :| d in named && DamageHits(d, x, y) {
        var i :| 0 <= i < |named| && named[i] == d;
      }
    }
  }
}
