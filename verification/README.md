# Atria, verified

Atria is a display server. This project models the parts of it where being wrong would be hardest to
notice, in Dafny, and proves what they promise:

- **Software composition and damage** (`Raster`, `Blit`, `Painter`, `SoftwareOutput`, `Staging`,
  `KeptImages`, `Commits`). Client buffers are copied into kept images, a stack of clipped images is
  drawn into a frame, and rectangles are reported that should cover every pixel that changed. The
  frame is proved equal, pixel by pixel, to a simple painter, and every pixel of it to be that of
  the last buffer read there, over every run of successful and failed compositions; the reported
  rectangles are proved to cover every change, with the exact condition under which they do.
  `Commits` asks what a surface shows when several commits come between two compositions.
- **The remote framebuffer path** (`VncFrame`, `TileDiff`, `Hextile`, `Update`, `Pixels`, `Viewer`).
  A tile comparison, the hextile and raw encoders proved against a decoder written from section
  7.7.4 of RFC 6143, and the two threads that share pending damage, as steps that interleave freely
  and do what a plain server that sends whole frames does.
- **The compositor's state machine** (`Registry`, `World`, `Cascade`, `Steps`, `Lifetimes`,
  `Destruction`, `Fates`, `Transitions`, `Requests`, `Effects`, `Meanings`, `Admission`, `Runs`,
  `Provision`, `Compositor`, `Trace`). Connections and their objects, buffer ownership, the scene,
  windows and their handles, names held outside connections, and the bounded event queue whose
  overflow closes a connection, which queues events, which may close others. Every step keeps every
  invariant and has exactly its effect, over every run.
- **Input** (`Input`, `Evdev`). A seat's routing of keys and pointer, and the assembling of device
  reports into key events that mean something within one epoch.
- **Displays** (`Displays`): canonical scales, the topology of displays, and where a window that
  cannot be reached goes. **The wire** (`Wire`): framing and payload fields, in both directions.

## How the model is laid out

`Basics`, `Geometry` and `Model` hold what everything shares. The compositor's fields are kept in
one record, `World.World`, so that a step can be stated on the record before and after it; `Steps`,
`Lifetimes`, `Destruction` and `Transitions` define the changes a step makes between events as
functions on that record and prove that each keeps what holds; `Compositor.State` is the class whose
methods are the source's operations. `World.AllSound` is everything that holds between steps;
`World.Holds` is the same predicate folded so that long methods can pass it along, and
`World.HoldsIffAllSound` says that they are the same. Other predicates are folded in the same way,
where their comments say so. `Requests.Refusal`, `Requests.Accepted`, `Requests.Doomed` and
`Requests.Closing` say of every request why it is refused, what it changes, what it destroys and
whom it disconnects, all read off the state before it. `Fates.FateOf` is what falls with an object,
and `Fates.Reduced` what a destruction leaves: what falls is gone and everything else is as it was.
`Effects.Effect` is the effect of every accepted request that tells somebody something, and
`Cascade.OnlyFull` the rule that nobody is disconnected but for a full queue. `Runs` says what holds
over whole runs. `Admission.May` and `Meanings` say the same of requests and changes without the
functions that compute them, and `Provision` what nobody may ever have. Histories (`log`, `drained`,
`keys`, `pointer`, `emitted`, `history`) are part of the model so that statements about whole runs
can be made; the operations never read them.

What runs inside a lock is one step. Clocks, serial numbers, titles and other values that are only
passed through are left out. Where an ordered map is walked and the order does not matter to what is
stated, the model walks it in any order. Numbers have the source's width wherever the width can
show: see `Basics`.

## What the proofs found

- **A move that is not reported.** A placement records only the clipped rectangle, so a surface
  larger than the output that moves without a new commit, while spanning the output before and
  after, is not damaged, although the documentation of the damage list says it is never smaller than
  the difference. `Painter.UnreportedMove` is such an input; `Painter.ReportIsCompleteIff` says
  exactly when the report is complete.
- **A scene fault through the protocol.** The documentation of scene faults says none can happen
  through the protocol. Destroying a buffer that a stacked surface shows leaves the surface stacked
  with nothing to show. A client can do it with requests that are all accepted, once the compositor
  has given the buffer back (`Trace.LosesContent`, `Compositor.State.ReleasedThenDestroyed`), or
  while the compositor has it, by asking for its destruction or attaching it again, which is refused
  with an object error that destroys it (`Compositor.State.Dispatch`); revoking the grant to import
  buffers does it too (`Compositor.State.Revoke`). Which surfaces lose what they show is read off
  the state before the step (`Requests.Loses`), and no other step of any kind makes a surface empty:
  `Compositor.State.Perform`, and over whole runs `Compositor.State.Run`.
- **Damage lost between two compositions.** A commit replaces the damage of the one before, so a
  client that draws and names one part after another, each honestly, is left with the earlier parts
  stale when both commits come before the next composition: `Commits.FirstOfTwoIsLost`. All honest
  clients are shown their last buffer exactly when the last commit's damage covers the earlier
  ones': `Commits.ShowsLastIff`.
- **A release without a press.** A button pressed over nothing, dragged onto a surface and released
  there tells the surface of a release it had no press for: `Input.StrayRelease`. Of the buttons a
  seat is told of, exactly those released over a surface, outside a shell's grab, while the seat
  counts none as held, are told to a client with no press left to end: `Input.Seat.PointerButton`,
  and over whole runs `Input.RunInput`.
- **A key released that was never pressed.** A report that cannot be read is refused whole, and what
  it told is gone: a press refused for its time is followed by a release that is passed on with no
  press before it, in the same epoch (`Evdev.RefusedPressThenRelease`). When every report can be
  read and every cut comes between two reports, no epoch has such a release:
  `Evdev.CarefulRunIsCycles`. Otherwise a key is still told of in whole cycles exactly when it is
  silent, or what is believed of it happens to be true, or the next report says nothing of it:
  `Evdev.RefusedThenReadable`, `Evdev.CutThenReadable`.
- **A refused destruction that destroys.** Asking for the display to be destroyed is refused with an
  object error, and an object error destroys the object it names, here the display:
  `Trace.RefusedDestroys`. The same happens to every object that a refused request names in an
  object error, for instance a buffer that is attached or asked to be destroyed while somebody has
  it: `Compositor.State.Dispatch`.
- **A place held by nobody.** Binding the input method takes its place before the identifier is
  checked. Refused for its identifier, the bind leaves the place taken by an object that is not
  there as long as the connection lasts, and every other bind is refused:
  `Trace.PlaceTakenByNobody`, and exactly when, `Effects.PlaceTakenIff`.
- **Names that outlive their objects.** Destroying an input method, a text field or a shortcut
  manager does not free the place, the field or the chords that name it; they stay until the
  connection closes: `Fates.NamesOutlive`.
- **A request for the whole frame that waits.** A viewer that asks for the whole frame, having lost
  what it showed, is not answered until the compositor presents a newer frame, although the comment
  beside the request says it must be answered whole whatever the difference: `Viewer.RequestWaits`.
- **Not the shortest move.** The documentation of the move that brings a window back promises the
  shortest distance that makes it reachable. It is moved until all of it is seen, or it begins where
  the display does: `Displays.ClampedFurther`, and exactly when the two agree,
  `Displays.ClampIsShortestIff`.
- **What revocation does not reach.** Taking the control of a shell, of shortcuts or of an input
  method from a client destroys nothing it bound with it: its shell is told of windows as before,
  its chords stay claimed, and its input method keeps its place (`Meanings.GrantReaches`,
  `Compositor.State.Revoke`). Of the objects that need a grant nobody ever has one without it:
  `Provision.AlwaysProvisioned`.
- **A maximum that loses colour.** A viewer's maxima are not checked to be all ones, as section 7.4
  of RFC 6143 has them; one that is not loses colour (`Pixels.OddMaximum`), and otherwise none is
  lost (`Pixels.ColourReads`).
- **A handle spent on nothing.** A window refused for its identifier still uses up a handle:
  `Compositor.State.GetToplevel`.
- **Padding nobody reads.** The reader of text accepts any padding, so bytes and fields determine
  each other except there: `Wire.TextReencodedIff`.

## Model

| member | source | states |
|---|---|---|
| Raster.CopyRange | atria-software-output/src/output.rs:597-643 | succeeds exactly when both ranges lie in their buffers, then replaces those bytes and no other; otherwise changes nothing |
| Raster.CopyRect | atria-software-output/src/output.rs:546-595 | succeeds exactly when both buffers reach the end of the rectangle's last row; then every byte of the rectangle is the source's and every other byte is what it was |
| Raster.PasteRow | atria-software-output/src/output.rs:558-594 | one more row pasted extends the rectangle pasted so far by exactly that row |
| Blit.PastedPixel | atria-software-output/src/output.rs:699-724 | a rectangle pasted at whole pixels moves whole pixels and leaves every other pixel alone |
| Blit.Frame.constructor | atria-software-output/src/frame.rs:33-56 | a frame whose rows follow one another without a gap, all zero |
| Blit.Frame.Clear | atria-software-output/src/frame.rs:78-80 | every byte zero |
| Blit.BlitSurface | atria-software-output/src/output.rs:659-725 | never fails for an image of its declared size, stays in range, and afterwards each pixel is the image's where the surface covers it and unchanged elsewhere |
| Painter.ClippedIsCoverage | atria-software-output/src/output.rs:139-157 | the rectangle `clipped` reports holds exactly the output pixels `blit_surface` writes: the two clip formulas coincide |
| Painter.ClipDeterminesOrigin | atria-software-output/src/output.rs:42-46 | two visible placements of one size have the same clipped rectangle exactly when on each axis they share the origin or both span the output |
| Painter.UnreportedPixel | atria-software-output/src/output.rs:165-204 | where nothing was reported both stacks have the same surface on top, at the same depth, with the same rectangle, not redrawn |
| Painter.ReportIsSound | atria-software-output/src/output.rs:165-204 | a pixel that is neither reported nor under a surface moved unseen is painted the same before and after |
| Painter.KeptMovesSeen | atria-software-output/src/output.rs:165-204 | a surface that was read again is always reported where it is, so only one that kept its image can be missed |
| Painter.MissedPixelCanDiffer | atria-software-output/src/output.rs:165-204 | at every missed pixel some image contents make the two frames differ |
| Painter.ReportIsCompleteIff | atria-software-output/src/output.rs:165-204 | the report covers every change, for every content images could have, exactly when no pixel is under a surface that moved unseen |
| Painter.UnreportedMove | atria-software-output/src/output.rs:42-46 | an input of the failing family: a surface wider than the output moved by one pixel changes a pixel and nothing is reported |
| SoftwareOutput.ValidatedIsReadable | atria-software-output/src/output.rs:444-489 | a buffer accepted by validation holds every pixel of its declared size, with no overflow |
| SoftwareOutput.RefusedDamage | atria-software-output/src/output.rs:491-517 | nothing is refused exactly when every damage rectangle lies inside the surface |
| SoftwareOutput.CopyDamage | atria-software-output/src/output.rs:332-345 | copying a validated rectangle cannot fail, and changes exactly its pixels to the buffer's |
| SoftwareOutput.RefreshImage | atria-software-output/src/output.rs:300-346 | the kept image has the buffer's pixel where it is new or damaged, and its old pixel elsewhere |
| SoftwareOutput.HonestDamageShowsBuffer | atria-software-output/src/output.rs:300-346 | the kept image equals the buffer exactly when the damage covers every pixel in which it differed |
| SoftwareOutput.DrawStack | atria-software-output/src/output.rs:354-368 | the drawn frame is, at every pixel, what the reference painter paints: the topmost surface there, or zeros |
| SoftwareOutput.ChangedRects | atria-software-output/src/output.rs:165-204 | the rectangles reported cover exactly what one surface's change of place, depth or content contributes |
| SoftwareOutput.Output.constructor | atria-software-output/src/output.rs:76-88 | starts with a published frame of zeros that shows the empty stack, and no kept image |
| SoftwareOutput.Output.Stage | atria-software-output/src/output.rs:224-346 | refused exactly for the first check that fails, with every kept image as it was; otherwise the surface has its origin and an image kept or, for a commit not read before, refreshed from a buffer that was there, held for it and ready |
| SoftwareOutput.Output.StageAll | atria-software-output/src/output.rs:224-346 | refused exactly when some stacked surface is, with the error of the first such surface, and then exactly the surfaces below it that had something new are refreshed; otherwise every surface is staged |
| SoftwareOutput.Output.NoteDamage | atria-software-output/src/output.rs:165-204 | placements recorded as they are now, and every reported pixel in some rectangle |
| SoftwareOutput.Output.Publish | atria-software-output/src/output.rs:110-131 | the composed frame becomes the published one together with its placements and damage, which covers every change unless some pixel is missed |
| SoftwareOutput.Output.Compose | atria-software-output/src/output.rs:211-397 | succeeds only if every commit it had not read was ready; fails as the scene and the kept images say, and with which error; a failure leaves the published frame, placements and damage alone, refreshes exactly what it read, unmarked, and leaves every other image as it was; a success publishes what the painter paints for this stack, and every pixel that differs from the last published frame lies in reported damage unless a pixel is missed |
| SoftwareOutput.Output.ComposeEach | atria-software-output/src/output.rs:64-71 | over any run of compositions each succeeds or fails as it should, keeps exactly the images it should and publishes what its scene paints, the rectangles returned are those of the published frames, and if no published frame missed a pixel they cover every pixel where the last published frame differs from the first |
| SoftwareOutput.StagedBelow | atria-software-output/src/output.rs:224-346 | where a surface is refused, exactly the surfaces below it with something new are refreshed and unmarked, and no image is dropped |
| SoftwareOutput.StagedAll | atria-software-output/src/output.rs:348-386 | where presenting or releasing fails, exactly the stacked surfaces with something new are refreshed and unmarked, and images of surfaces not stacked are dropped |
| Staging.ValidatedIff | atria-software-output/src/output.rs:444-489 | a buffer is accepted exactly when it is shared memory with an area, rows long enough, and its last row within the length declared and backed |
| Staging.InvalidMeans | atria-software-output/src/output.rs:444-489 | every reason for which a buffer is not accepted is so, and overflow never is the reason |
| Staging.InsideIff | atria-software-output/src/output.rs:491-517 | a damage rectangle with an area is accepted exactly when every pixel of it is the surface's |
| Staging.StagedIff | atria-software-output/src/output.rs:224-299 | a surface is staged exactly when it has content and a place and either that content was read before or it is ready, its buffer is the one described, held for it and valid, and its damage lies inside |
| Staging.RefusalMeans | atria-software-output/src/output.rs:224-299 | every reason for which a surface is refused is so: what is missing is missing, what is not ready is not, what does not agree does not |
| Staging.ReadWhenReady | atria-software-output/src/output.rs:243-249 | over any run, a composition succeeds only if every commit it had not read was ready, and an image changes only by being read from a commit that was |
| SoftwareOutput.DamageCoversChanges | atria-software-output/src/output.rs:165-204 | the damage of one step covers every difference between the frames it stands between, if no pixel is missed |
| SoftwareOutput.KeptImagesAlike | atria-software-output/src/output.rs:236-243 | a surface that was not read again still has the image the published frame showed |
| KeptImages.StepCarries | atria-software-output/src/output.rs:224-397 | whether it succeeds or fails, a composition keeps of a surface only its buffer as read or the image it had |
| KeptImages.LastBufferRead | atria-software-output/src/output.rs:224-397 | after every composition of a run, each pixel of a kept image is that of the last buffer that was read there, or the one it began with |
| KeptImages.FrameShowsLastRead | atria-software-output/src/output.rs:207-397 | over every run from a new output, whatever failed in between: each pixel of a published frame is, under the topmost surface there, that of the last buffer read at that place of the surface, by a composition that succeeded or failed, and zero elsewhere |
| Commits.CoveringShowsLast | atria-compositor/src/state/mod.rs:960-1046 | composed after several honest commits, a surface shows the last buffer if the last commit's damage covers that of the earlier ones |
| Commits.UncoveredGoesStale | atria-compositor/src/state/mod.rs:960-1046 | for every pixel an earlier commit named and the last did not, honest clients exist that are left with a stale pixel there |
| Commits.ShowsLastIff | atria-compositor/src/state/mod.rs:960-1046 | every honest client is shown its last buffer exactly when the last commit's damage covers that of the commits since the last composition |
| Commits.NothingNamedIsAll | atria-compositor/src/state/mod.rs:989-993 | a commit that names nothing is read as a whole, and any other exactly where it names something |
| Commits.FirstOfTwoIsLost | atria-software-output/src/output.rs:300-346 | an input of the failing family: two pixels drawn by two commits, of which only the second is shown |
| TileDiff.Overlaps | atria-vnc/src/protocol.rs:219-231 | whether some bound reaches the tile |
| TileDiff.TileChanged | atria-vnc/src/protocol.rs:292-297 | whether any pixel of the tile differs, comparing whole row slices |
| TileDiff.CompareTile | atria-vnc/src/protocol.rs:289-297 | a tile counts exactly when a bound reaches it and a pixel of it differs |
| TileDiff.NextTile | atria-vnc/src/protocol.rs:298-307 | one tile starts, extends or closes the run, and the rectangles so far hold exactly the dirty tiles seen |
| TileDiff.TileRow | atria-vnc/src/protocol.rs:284-312 | one row of tiles: rectangles disjoint and made only of dirty tiles |
| TileDiff.CompareTiles | atria-vnc/src/protocol.rs:276-313 | all rows: rectangles disjoint, in the frame, holding exactly the dirty tiles' pixels, with their area |
| TileDiff.ChangedRegions | atria-vnc/src/protocol.rs:253-318 | if all differences lie inside the bounds every one is in a rectangle; rectangles are in the frame and disjoint, and they hold only tiles with a difference, unless those make up half of the frame, in which case it is the whole |
| TileDiff.DifferenceIsDirty | atria-vnc/src/protocol.rs:289-297 | a bounded difference makes its tile dirty |
| TileDiff.DirtyIff | atria-vnc/src/protocol.rs:276-297 | a tile of 64 by 64 pixels is reported exactly when some bound shares a pixel with it and some pixel of it differs |
| Hextile.ForegroundRuns | atria-vnc/src/protocol.rs:427-452 | row runs that are disjoint, cover exactly the cells that are not background, and number at most eight a row, so the 255 limit is never met |
| Hextile.RunBytesAre | atria-vnc/src/protocol.rs:410-415 | of the two bytes of a subrectangle the first is its column and row, four bits each, and the second one less than its width and its height |
| Hextile.RunsDecode | atria-vnc/src/protocol.rs:410-415 | decoding the subrectangle bytes of section 7.7.4 of RFC 6143 paints the runs that were written and stops where they end |
| Hextile.FlatReads | atria-vnc/src/protocol.rs:395-399 | a square of one colour reads back whatever follows it |
| Hextile.TwoColourReads | atria-vnc/src/protocol.rs:400-417 | a square of two colours reads back |
| Hextile.RawReads | atria-vnc/src/protocol.rs:454-469 | a raw square reads back and carries no colours on |
| Hextile.WriteCells | atria-vnc/src/protocol.rs:454-469 | every pixel of the square, row by row |
| Hextile.WriteSquare | atria-vnc/src/protocol.rs:378-419 | whichever form is chosen, the decoder reads the wanted square and stops at its end; the form is that of one colour, of two, or raw, exactly as the square has one colour, two, or more |
| Hextile.DrawSquare | atria-vnc/src/protocol.rs:355-424 | painting one wanted square extends what is drawn of the region by that square |
| Hextile.WriteHextile | atria-vnc/src/protocol.rs:355-424 | decoding the message, whatever follows it, draws every pixel of the region with the frame's pixel and changes nothing else |
| Update.DeclaredPixel | atria-vnc/src/protocol.rs:124-139 | in the declared format a pixel is the frame's three colour bytes and a zero |
| Pixels.WordSent | atria-vnc/src/protocol.rs:130-138 | the bytes sent make the word, most significant first or last as the format names |
| Pixels.PixelReads | atria-vnc/src/protocol.rs:124-139 | whatever the maxima, each channel reads as the scaled colour masked by its maximum, if the channels lie within the pixel and apart |
| Pixels.ColourReads | atria-vnc/src/protocol.rs:124-139 | in every format whose maxima are all ones and whose channels lie within the pixel and apart: the bytes, put together in the order the format names, shifted down and masked as section 7.4 of RFC 6143 says, give each channel the colour scaled to its maximum |
| Pixels.MiddleGrey | atria-vnc/src/protocol.rs:124-139 | an input: middle grey in 16 bits of 5, 6 and 5 is read as the middle of each channel |
| Pixels.OddMaximum | atria-vnc/src/protocol.rs:60-118 | an input: a maximum that is not all ones, which is not refused, reads two fifths of red as none |
| Update.EncodingsAgree | atria-vnc/src/protocol.rs:146-160 | raw and hextile carry the same colours; they differ at most in the fourth byte of the declared format |
| Update.WriteRaw | atria-vnc/src/protocol.rs:512-517 | decoding a raw rectangle draws the frame's pixels |
| Update.WriteRectangles | atria-vnc/src/protocol.rs:502-518 | the rectangles in order, each read back before the next |
| Update.WriteUpdate | atria-vnc/src/protocol.rs:476-525 | decoding the message draws every fitting rectangle with the frame's pixels, changes nothing else and is consumed to its end, for up to 65535 rectangles; byte 0 is 0, bytes 2 and 3 the number of rectangles, and the first of them begins with its place, size and encoding, 0 for raw and 5 for hextile, each most significant byte first |
| Viewer.Accumulate | atria-vnc/src/server.rs:608-636 | whole stays whole; more than 64 rectangles or one the wire cannot carry become whole; otherwise exactly the damage is added |
| Viewer.CarriedIff | atria-vnc/src/server.rs:608-636 | a rectangle is carried exactly when its place and size fit in sixteen bits, and then the region has the same pixels |
| Viewer.OwedAfter | atria-vnc/src/server.rs:643-660 | what is owed after another frame is what was owed and its damage |
| Viewer.RedrawnShows | atria-vnc/src/server.rs:233-292 | what a viewer decoded of the last frame, drawn over in the layout now in force where the new one differs, has at every pixel the new frame in the layout of the last update that held it |
| Viewer.UpdateRegions | atria-vnc/src/server.rs:260-270 | everything for a first update; otherwise every differing pixel is in a rectangle, and there is none exactly when nothing differs |
| Viewer.SendUpdate | atria-vnc/src/server.rs:273-287 | the message, decoded over what the viewer has, draws exactly those rectangles and is read to its end |
| Viewer.Server.PresentFrame | atria-vnc/src/server.rs:643-660 | the newest frame is held and what the viewer is owed still covers every difference |
| Viewer.Server.AcceptViewer | atria-vnc/src/server.rs:235-245 | a replaced viewer makes everything pending again; the new one has been written nothing, in the format and encoding every viewer begins with |
| Viewer.Server.TakeFrame | atria-vnc/src/server.rs:331-353 | taken exactly when asked for a frame newer than the one shown, and then the newest and everything pending together |
| Viewer.Server.DeliverFrame | atria-vnc/src/server.rs:258-289 | the viewer decodes the message over what it showed and then shows the whole frame it was served, each pixel in the format and encoding in force at the last update that held it; exactly the whole frame is written when it was asked for, and nothing exactly when it has that frame; a failed write ends it |
| Viewer.Server.Perform | atria-vnc/src/server.rs:210-292 | one step of either thread is one step of the plain server that sends whole frames |
| Viewer.PlannedFrames | atria-vnc/src/server.rs:643-660 | the plain server's frames are those of the schedule |
| Viewer.PlansMean | atria-vnc/src/server.rs:219-245 | how a viewer begins, what being served changes and what losing it does |
| Viewer.RequestWaits | atria-vnc/src/server.rs:258-289 | a viewer that has the newest frame is written nothing until a newer one is presented, whatever it asks for |
| Viewer.Run | atria-vnc/src/server.rs:233-292 | for every interleaving the server does what the plain one does, format and encoding among it; every frame a viewer was brought up to is what it then showed, decoded from the bytes written to it since it arrived, each pixel as the last update that held it wrote it in the format then in force; and one that has caught up shows the newest frame |
| Registry.Teardown | atria-compositor/src/registry.rs:111-113 | every live object once, in strictly decreasing order of latest creation, though the creation order holds duplicates |
| Registry.LastCreated | atria-compositor/src/registry.rs:81-93 | the last place an identifier has in the creation order |
| Requests.BornAllocates | atria-compositor/src/registry.rs:69-93 | with room for another object creation is refused exactly when the registry refuses and with the same error, and otherwise is the registry's allocation |
| Lifetimes.BornIds | atria-compositor/src/registry.rs:81-93 | an identifier is only created when the history has it unused: destroyed, announced and retired before |
| Lifetimes.BornHolds | atria-compositor/src/state/mod.rs:2649-2662 | a new object keeps every invariant |
| Lifetimes.WindowBornHolds | atria-compositor/src/state/mod.rs:2391-2428 | a new window, under the next handle, keeps handles and windows in one-to-one correspondence |
| Cascade.ShrunkHolds | atria-compositor/src/state/mod.rs:2049-2130 | whatever connections a cascade closes, in whatever order, everything that held still holds |
| Cascade.ShrunkTrans | atria-compositor/src/state/mod.rs:2049-2130 | cascades compose: what two remove is what one removing both would |
| Cascade.QueueKept | atria-compositor/src/state/mod.rs:1965-1987 | queueing adds an event to what was pushed and to what waits, for its connection alone |
| Cascade.OverflowedClosed | atria-compositor/src/state/mod.rs:1971-1980 | the last error past the bound and the close leave a sound queue: one event above the limit at most |
| Cascade.CascadedTrans | atria-compositor/src/state/mod.rs:2049-2130 | cascades compose: after both every shell that is left was told of every window that went in either, and every connection that went had a full queue |
| Cascade.OverflowOverran | atria-compositor/src/state/mod.rs:1971-1980 | a connection closed for its queue was told, with as many events as the limit allows then waiting for it |
| Cascade.OnlyFullTrans | atria-compositor/src/state/mod.rs:1965-1987 | over two stretches a connection goes only for its full queue, unless it was to be closed in one of them |
| Cascade.CloseKnown | atria-compositor/src/state/mod.rs:2098-2128 | a close that announces its own windows leaves every remaining shell told of every window that went, whatever closed meanwhile |
| Compositor.State.PushEvent | atria-compositor/src/state/mod.rs:1965-1987 | nothing for a departed connection, one event more within the bound, and otherwise the overflow error first, the close and its cascade, in which a connection goes only when its own queue is full; it terminates because live connections strictly decrease |
| Compositor.State.CloseConnection | atria-compositor/src/state/mod.rs:2049-2130 | the connection and everything it owned are gone, its objects listed newest first; any other connection goes only with a full queue; the field a lost input method composed into is told, the composition moves to where it then belongs, and every shell that is left was told of every window that went in the whole cascade |
| Compositor.State.AnnounceClose | atria-compositor/src/state/mod.rs:2098-2128 | every shell that is left was told of every retired handle, and the field whose input method went was told the proposal is withdrawn and that it is left; a connection goes only with a full queue |
| Compositor.State.TellShells | atria-compositor/src/state/mod.rs:1687-1703 | every shell there is when the telling starts has the event in its history afterwards, or its connection went with a full queue |
| Compositor.State.FieldOf | atria-compositor/src/state/text.rs:25-33 | the connection's field with the smallest identifier, or none exactly when it has none |
| Compositor.State.WantedField | atria-compositor/src/state/text.rs:25-33 | exactly the first field of the focused connection, if it admits composition, and otherwise none |
| Compositor.State.RefreshComposition | atria-compositor/src/state/text.rs:25-83 | nothing if the right field is composed into already; otherwise the field left and the method are told it ended, the field entered and the method that one started, under a new number, where a listener is missing only if its queue was full |
| Steps.AttachedHolds | atria-compositor/src/state/mod.rs:898-940 | an attached buffer waits with the surface that names it |
| Steps.CommittedHolds | atria-compositor/src/state/mod.rs:960-1046 | a commit keeps scene coherence, buffer ownership and the rest |
| Steps.CommittedBuffers | atria-compositor/src/state/mod.rs:1019-1044 | the buffer of a commit is held for it by the surface showing it, and older ones for older commits |
| Steps.CommittedScene | atria-compositor/src/state/mod.rs:1067-1079 | a surface given content is stacked once, with a position |
| Steps.EmptiedHolds | atria-compositor/src/state/mod.rs:1052-1065 | a detached surface leaves the stack and keeps its position |
| Steps.PlacedHolds | atria-compositor/src/state/mod.rs:1300-1318 | placing keeps scene coherence |
| Steps.RaisedHolds | atria-compositor/src/state/mod.rs:1320-1334 | raising keeps scene coherence and stacks the same surfaces |
| Destruction.RemovedHolds | atria-compositor/src/state/mod.rs:2268-2272 | an object nothing names can be removed without disturbing anything |
| Destruction.DroppedHolds | atria-compositor/src/state/mod.rs:2215-2235 | a destroyed buffer is forgotten by every surface, and everything else holds |
| Destruction.DroppedShownIff | atria-compositor/src/state/mod.rs:2215-2235 | destroying a buffer keeps every stacked surface with content exactly when none of them shows it |
| Fates.DestroyedShown | atria-compositor/src/state/mod.rs:2215-2235 | destroying a buffer takes the content of the surfaces that show it and of no other: afterwards exactly those stacked surfaces have nothing to show that had nothing before or showed it |
| Destruction.FreedHolds | atria-compositor/src/state/mod.rs:2273-2279 | an identifier is free again only once destruction and then retirement are in the history |
| Destruction.NewestOfSplit | atria-compositor/src/registry.rs:111-113 | a filtered listing has everything created later before everything created earlier |
| Fates.GoneFalls | atria-compositor/src/state/mod.rs:2144-2182 | objects of a connection that closed on the way count as fallen, so that a destruction interrupted by its own overflow has done all it was to do |
| Fates.ReducedTrans | atria-compositor/src/state/mod.rs:2132-2280 | what two destructions leave is what one of both objects sets leaves: nothing else falls, is given back or is unsaid to those it concerns |
| Fates.ReducedLookups | atria-compositor/src/state/mod.rs:2132-2280 | what is left of every object of every connection after a destruction: gone, given back or freed of a name exactly as said, and otherwise as it was |
| Fates.ReducedMoved | atria-compositor/src/state/mod.rs:2132-2280 | whatever falls, a stacked surface loses what it shows only to a buffer that fell |
| Fates.NamesOutlive | atria-compositor/src/state/mod.rs:2132-2280 | a destroyed object stays named: an input method keeps its place, a text field its text and a shortcut manager its chords until their connection closes |
| Transitions.ConnectedHolds | atria-compositor/src/state/mod.rs:410-459 | a new connection, with its display object only, keeps every invariant |
| Transitions.NoHistory | atria-compositor/src/state/mod.rs:434-436 | a connection number never used has no history and no events |
| Transitions.TakenForQueue | atria-compositor/src/state/mod.rs:2032-2047 | draining one connection takes its events in order, leaves every other connection's in theirs, and loses none |
| Transitions.TakenAllQueue | atria-compositor/src/state/mod.rs:1989-1994 | draining everything loses no event and keeps each connection's order |
| Transitions.HeldByCurrent | atria-compositor/src/state/mod.rs:1152-1168 | with nothing held for an earlier commit a surface holds at most what it shows |
| Transitions.NamedIsLive | atria-compositor/src/state/mod.rs:960-1046 | buffers a surface names are live, so a commit cannot fail on them |
| Transitions.WindowsKnown | atria-compositor/src/state/mod.rs:2391-2468 | handles and live windows name each other |
| Transitions.FaultlessIff | atria-compositor/src/state/mod.rs:2002-2028 | the scene has a fault exactly when some stacked surface has nothing to show |
| Meanings.AttachMeans | atria-compositor/src/state/mod.rs:922-940 | an attach leaves this buffer at this offset pending, with its fence, and the buffer pending for the surface |
| Meanings.AskMeans | atria-compositor/src/state/mod.rs:1098-1111 | asking for a frame marks the surface and nothing else |
| Meanings.DetachMeans | atria-compositor/src/state/mod.rs:914-921 | attaching nothing waits for the next commit and touches no buffer |
| Meanings.ReleaseMeans | atria-compositor/src/state/mod.rs:1229-1243 | a buffer given back is nobody's, and nothing else is different |
| Meanings.SignaledIff | atria-compositor/src/state/mod.rs:1140-1151 | a commit waits exactly while its fence was not signaled |
| Meanings.OlderIff | atria-compositor/src/state/mod.rs:1152-1168 | of the buffers held for a surface exactly those held for commits before the one shown go back |
| Meanings.BornMeans | atria-compositor/src/state/mod.rs:2649-2662 | a new object is there under its identifier, taken and listed last, and everything else is as it was |
| Meanings.EmptyMeans | atria-compositor/src/state/mod.rs:377-408 | nobody and nothing to begin with, and every first number is 1 |
| Meanings.WindowMeans | atria-compositor/src/state/mod.rs:2391-2428 | a new window is over the surface named, under a handle nobody had |
| Meanings.ArrivalGrants | atria-compositor/src/state/mod.rs:410-459 | what a program is granted when it connects, never the control of a shell, of shortcuts or of an input method |
| Meanings.PlaceMeans | atria-compositor/src/state/mod.rs:1300-1318 | a surface is put where it is told, is stacked on top if it shows something and was not stacked, and nothing else moves |
| Meanings.RaiseMeans | atria-compositor/src/state/mod.rs:1320-1334 | a raised surface is on top and the others are in the order they were |
| Meanings.UnclaimMeans | atria-compositor/src/state/mod.rs:711-716 | exactly the chords the client claimed under that number are given up |
| Meanings.FieldMeans | atria-compositor/src/state/mod.rs:627-654 | a field wants text, composed or not as it says, and one that no longer wants it leaves the others |
| Meanings.CloseMeans | atria-compositor/src/state/mod.rs:2049-2097 | a close takes exactly the positions, windows, chords and fields of its connection |
| Meanings.CloseFocus | atria-compositor/src/state/mod.rs:2049-2097 | a close takes the connection's surfaces out of the stack and from under the keyboard and the pointer, and nobody else's |
| Meanings.GrantReaches | atria-compositor/src/state/mod.rs:2282-2306 | which objects fall with which grant: with the control of a shell, of shortcuts or of an input method, none |
| Meanings.ComposedInto | atria-compositor/src/state/text.rs:25-83 | once settled, the method composes into the field wanted, of that connection and that object, or into none |
| Meanings.SnapshotMeans | atria-compositor/src/state/mod.rs:1707-1732 | a shell's first picture: every handle once, ascending, then the focused window, then the boundary |
| Requests.AttachRefused | atria-compositor/src/state/mod.rs:898-940 | accepted only for a surface with nothing pending and a buffer nobody has, or for nothing at all |
| Provision.AlwaysProvisioned | atria-compositor/src/state/mod.rs:2595-2662 | over every run nobody ever has an object that needs a grant it lacks, more surfaces, windows, buffers or objects than the limits allow, nor are there more than 256 chords or text fields |
| Provision.StepProvisioned | atria-compositor/src/state/mod.rs:592-615 | every step of every kind keeps everybody within grants and limits, revocation among them |
| Provision.EmptyProvisioned | atria-compositor/src/state/mod.rs:377-408 | it is so of the empty compositor |
| Admission.RefusalIff | atria-compositor/src/state/mod.rs:617-760 | every request is accepted exactly when the client may make it, said of its objects, its grants and the limits: `Admission.May` |
| Admission.RefusalTruthful | atria-compositor/src/state/mod.rs:592-615 | no refusal says what is not so: objects are missing or of another kind, identifiers reserved or taken, grants missing, limits reached as it says |
| Admission.DoomedIff | atria-compositor/src/state/mod.rs:592-615 | what a request may destroy: what it asks to be destroyed, or the object an object error names |
| Admission.ErrorCosts | atria-compositor/src/error.rs:32-43 | which errors cost the connection, which the object, and which nothing |
| Requests.UngrantedLearnsNothing | atria-compositor/src/state/shell.rs:50-67 | without the grant every handle and every set of windows gets the same answer |
| Requests.ExpectKind | atria-compositor/src/state/mod.rs:2668-2692 | no error exactly when the object is live and of the kind asked for |
| Requests.Focusable | atria-compositor/src/state/mod.rs:2308-2318 | a surface that may hold the keyboard has content and a position |
| Compositor.State.constructor | atria-compositor/src/state/mod.rs:377-408 | an empty compositor satisfies every invariant |
| Compositor.State.Connect | atria-compositor/src/state/mod.rs:410-459 | refused exactly for missing capabilities, too many connections or exhausted numbers; the number is new |
| Compositor.State.CloseStep | atria-compositor/src/state/mod.rs:2049-2130 | the connection is gone, its objects listed once each, newest first, any other connection goes only with a full queue, and every shell that is left was told of every window that went |
| Compositor.State.Grant | atria-compositor/src/state/mod.rs:474-489 | granted exactly when available |
| Compositor.State.Revoke | atria-compositor/src/state/mod.rs:492-514 | the grant itself is removed and its client told; exactly the objects that need it and what falls with them are destroyed, as they stand when their turn comes, and everything else is as it was; no stacked surface loses what it shows but to a buffer destroyed for it, and without buffers every stacked surface of the connection is empty |
| Compositor.State.Announce | atria-compositor/src/state/mod.rs:2268-2279 | destruction, then retirement, then the identifier is free |
| Compositor.State.ReleaseRelated | atria-compositor/src/state/mod.rs:1152-1168 | exactly the buffers held for the surface, or for an earlier commit of it, are given back, each told, and nothing else changes |
| Compositor.State.DestroySurface | atria-compositor/src/state/mod.rs:2183-2214 | the surface is gone and out of the stack, the positions, the keyboard and the pointer, the buffers held for it given back, and every other object and place is as it was |
| Compositor.State.DestroySession | atria-compositor/src/state/mod.rs:2144-2161 | exactly the session and its surfaces are gone, and everything else is as it was |
| Compositor.State.DestroySeat | atria-compositor/src/state/mod.rs:2162-2182 | exactly the seat, its sessions and their surfaces are gone, and everything else is as it was |
| Compositor.State.DestroyFence | atria-compositor/src/state/mod.rs:2236-2259 | exactly the fence and the surfaces waiting on it are gone, and everything else is as it was |
| Compositor.State.DestroyToplevel | atria-compositor/src/state/mod.rs:2260-2267 | exactly the window is gone, its handle names nothing, every shell was told or went with a full queue, and everything else is as it was |
| Compositor.State.DestroyBuffer | atria-compositor/src/state/mod.rs:2215-2235 | exactly the buffer is gone, every surface forgets it, and everything else is as it was; if its connection is left, so is every other |
| Compositor.State.DestroyObject | atria-compositor/src/state/mod.rs:2132-2280 | exactly the object and what falls with it are gone, by its kind, and everything else is as it was; nothing at all for an object that is not there |
| Compositor.State.DestroyRequest | atria-compositor/src/state/mod.rs:871-887 | accepted exactly for a live object other than the display that is not a buffer somebody has, and then destroys exactly that and what falls with it |
| Compositor.State.AllocateObject | atria-compositor/src/state/mod.rs:2649-2662 | allocated or refused with the state unchanged |
| Compositor.State.CreatePlain | atria-compositor/src/state/mod.rs:623-626 | the object of the kind asked for, or the first refusal and nothing changed |
| Compositor.State.CreateSurface | atria-compositor/src/state/mod.rs:768-789 | a surface with nothing attached, or refused with the state unchanged |
| Compositor.State.CreateAvailable | atria-compositor/src/state/mod.rs:798-815 | a buffer nobody has, or refused with the state unchanged |
| Compositor.State.CreateRegistry | atria-compositor/src/state/mod.rs:721-727 | the registry object, and then every global on offer announced to it, unless its own queue is full |
| Compositor.State.CreateSeat | atria-compositor/src/state/mod.rs:517-533 | a seat, or refused with the state unchanged |
| Compositor.State.CreateSession | atria-compositor/src/state/mod.rs:536-561 | refused exactly without its seat, for a second session or for its identifier |
| Compositor.State.CreateFence | atria-compositor/src/state/mod.rs:568-580 | refused exactly without the grant or for its identifier |
| Compositor.State.GetToplevel | atria-compositor/src/state/mod.rs:2391-2428 | a window under a new handle, every shell told or gone with a full queue; a handle is spent, and nothing else, even if the identifier is then refused |
| Compositor.State.AttachBuffer | atria-compositor/src/state/mod.rs:898-940 | refused with the state unchanged, or the buffer or the null attachment pending |
| Compositor.State.CommitSurface | atria-compositor/src/state/mod.rs:960-1046 | a commit that shows something makes the surface show the buffer attached, or else the one it shows, as the next commit, at its offset, waiting on the fence attached with it and owing the frame asked for, with nothing pending, and changes nothing else; a detaching commit gives the buffer back and empties the surface, failing exactly if the client went with a full queue meanwhile; a refusal changed nothing |
| Effects.CommittedCommits | atria-compositor/src/state/mod.rs:1000-1044 | what a commit that shows something makes of the surface, its buffer, the stack, the positions and everything else |
| Compositor.State.DetachContent | atria-compositor/src/state/mod.rs:1052-1065 | the buffer goes back and its client is told; the surface has no content and is out of the stack, unless the client went with a full queue |
| Compositor.State.AskForFrame | atria-compositor/src/state/mod.rs:1098-1111 | refused when already asked |
| Compositor.State.Present | atria-compositor/src/state/mod.rs:1128-1191 | exactly the buffers held for earlier commits go back; the client is told once more that a frame is done exactly if it had asked before the commit shown; then the surface holds at most the buffer it shows; fails exactly without content, before the fence, or if the client went with a full queue |
| Compositor.State.AskCommitPresent | atria-compositor/src/state/mod.rs:1098-1191 | a frame asked for, a commit that shows something and its presentation: the client is told exactly once that the frame is done, and nothing is owed any more |
| Compositor.State.ReleaseBuffer | atria-compositor/src/state/mod.rs:1229-1243 | exactly a held buffer goes back |
| Compositor.State.SignalFence | atria-compositor/src/state/mod.rs:1194-1205 | the fence is signaled and nothing else changes |
| Compositor.State.PlaceSurface | atria-compositor/src/state/mod.rs:1300-1318 | a position for a live surface, and a place in the stack if it has content |
| Compositor.State.RaiseSurface | atria-compositor/src/state/mod.rs:1320-1334 | the same surfaces stacked, a surface with content on top |
| Compositor.State.UpdatePointerTarget | atria-compositor/src/state/mod.rs:1346-1377 | the topmost stacked surface whose content covers the point, or none exactly when none does |
| Compositor.State.SceneFaults | atria-compositor/src/state/mod.rs:2002-2028 | no fault exactly when every stacked surface has content and a position and every position a live connection; so between steps exactly when every stacked surface shows something |
| Compositor.State.SetKeyboardFocus | atria-compositor/src/state/mod.rs:1388-1442 | refused for what may not hold the keyboard; the batch is the leave before the enter, both surfaces and every keyboard of their clients are told, the composition follows and every shell is told the window; the focus is the new one, and on a live surface unless its connection went with a full queue while it was told |
| Compositor.State.SetSessionActive | atria-compositor/src/state/mod.rs:1458-1489 | a sleeping session holds neither the keyboard nor the pointer: the surface that held the keyboard is told it left; waking changes the session alone |
| Compositor.State.EnableField | atria-compositor/src/state/mod.rs:627-648 | a field wants text, never more than the bound, and the composition moves where it then belongs; or nothing changed |
| Compositor.State.DisableField | atria-compositor/src/state/mod.rs:649-654 | the field no longer wants text and is not composed into |
| Compositor.State.SendToField | atria-compositor/src/state/text.rs:90-98 | text for the composition going on is sent to its field, text of one that ended is dropped |
| Compositor.State.RegisterShortcut | atria-compositor/src/state/input.rs:264-288 | one holder for each chord: a claim never displaces another, and the bound holds |
| Compositor.State.UnregisterShortcut | atria-compositor/src/state/mod.rs:711-716 | exactly the holder's chords under that number are given up |
| Compositor.State.BindGlobal | atria-compositor/src/state/mod.rs:1808-1887 | refused before anything changes for its name, version, grant or a method already there; an input method takes its place before its identifier is checked and keeps it when that is refused; otherwise the object bound is of the kind offered, and a bound shell is told the whole snapshot |
| Effects.PlaceTakenIff | atria-compositor/src/state/mod.rs:1830-1862 | a refused bind leaves the place of the input method taken exactly if only the identifier was refused, and then by an object that is not there |
| Compositor.State.SnapshotForShell | atria-compositor/src/state/mod.rs:1707-1732 | unless the shell went with a full queue, exactly every window by ascending handle, the focused one, and the boundary were queued, in that order |
| Compositor.State.ShellToplevels | atria-compositor/src/state/shell.rs:25-47 | every window exactly once, by ascending handle, under its own handle |
| Compositor.State.ShellPlaceWindow | atria-compositor/src/state/shell.rs:107-125 | the surface of the window named is placed, or nothing changed |
| Compositor.State.ShellRaiseWindow | atria-compositor/src/state/shell.rs:132-146 | refused exactly without the grant or for an unknown handle; otherwise the window's surface is on top if it shows anything, and the same surfaces are stacked |
| Compositor.State.ShellFocusWindow | atria-compositor/src/state/shell.rs:153-171 | refused exactly for another seat, without the grant, for an unknown handle or for what may not hold the keyboard; otherwise the keyboard is given to the window's surface as by the compositor itself |
| Compositor.State.ShellCloseWindow | atria-compositor/src/state/shell.rs:92-100 | refused exactly without the grant or for an unknown handle; otherwise the window is sent the event that asks it to close, and nothing else changes |
| Compositor.State.SetTitle | atria-compositor/src/state/mod.rs:736-749 | every shell is told of the window under its handle, or went with a full queue |
| Compositor.State.TakeEventsFor | atria-compositor/src/state/mod.rs:2032-2047 | exactly the connection's events, in the order queued; everyone else's stay |
| Compositor.State.TakeEvents | atria-compositor/src/state/mod.rs:1989-1994 | everything queued, in order |
| Compositor.State.Advertise | atria-compositor/src/state/mod.rs:1537-1551 | a name no global has and none issued before had, or none for kinds without an interface or when names ran out |
| Compositor.State.Withdraw | atria-compositor/src/state/mod.rs:1756-1768 | a name on offer is taken back and every registry told, or gone with a full queue |
| Compositor.State.AnnounceGlobals | atria-compositor/src/state/mod.rs:1774-1795 | every name on offer is announced to the registry, unless it went with a full queue |
| Compositor.State.DispatchChecked | atria-compositor/src/state/mod.rs:617-760 | refused exactly as the state it finds says, unless the client's own queue overflows on the way; an accepted request has exactly the effect `Effects.Effect` gives it, and only a destruction takes content away |
| Compositor.State.Report | atria-compositor/src/state/mod.rs:600-613 | the client is told of the error, or went with a full queue; a protocol error then closes the connection, an object error destroys the object, with exactly the effect of a destruction, and a refused resource changes nothing more |
| Compositor.State.Dispatch | atria-compositor/src/state/mod.rs:592-615 | refused exactly as the state it finds says; a protocol error takes the connection, an object error destroys the object it names, and a refused resource changes nothing but the queue; an accepted request has exactly its effect; a connection goes only by its own protocol error or with a full queue, and stacked surfaces lose what they show only to a buffer the request, or its refusal, destroys |
| Effects.RefusedMoved | atria-compositor/src/state/mod.rs:592-615 | whatever a refusal destroys or closes is what is read off the state before the request |
| Compositor.State.ReleasedThenDestroyed | atria-compositor/src/state/mod.rs:2215-2235 | from every state in which a surface shows a held buffer, releasing and then destroying it both succeed and leave the surface stacked with nothing to show |
| Compositor.State.Perform | atria-compositor/src/state/mod.rs:592-615 | every step keeps every invariant and has its own effect, exactly where nothing is queued; a connection goes only if the step closes it or with a full queue, and a stacked surface has nothing to show afterwards only if it had nothing before or showed a buffer the step destroys, read off the state before it |
| Compositor.State.Run | atria-compositor/src/state/mod.rs:2002-2028 | over every sequence of steps every invariant holds after each and each had its effect; the scene is faultless exactly when no stacked surface is empty, and each that is was empty at the start or lost its content at a step that destroyed the buffer it showed, and has shown nothing since |
| Runs.PassedGrown | atria-compositor/src/state/mod.rs:1965-2047 | over any stretch of a run counters and histories only grow |
| Runs.NeverReissued | atria-compositor/src/state/mod.rs:2391-2428 | a connection number, a window's handle or a global's name that is gone is never there again, and a handle names the same window for good |
| Runs.EmptyFrom | atria-compositor/src/state/mod.rs:2002-2028 | following an empty stacked surface back through a run ends at the start or at the step that destroyed the buffer it showed |
| Runs.DepartureExplained | atria-compositor/src/state/mod.rs:1965-1987 | a connection that is gone at some point of a run went at a step that closed it, for its client leaving or its protocol error, or with as many events waiting as the limit allows |
| Effects.ToldThenDestroyed | atria-compositor/src/state/mod.rs:600-613 | an object error destroys exactly as an accepted destruction does, though its client is told first |
| Effects.WindowOfIsTheWindow | atria-compositor/src/state/mod.rs:1448-1456 | the handle found for a surface is that of the one window over it, or there is none |
| Trace.LosesContent | atria-compositor/src/state/mod.rs:2215-2235 | a run from the empty compositor, every request of it accepted and given as the state before and after, that ends with a surface stacked and nothing to show |
| Trace.PlaceTakenByNobody | atria-compositor/src/state/mod.rs:1830-1862 | an input: a bind of the input method refused for want of room leaves its place taken by an object that is not there, and from then on every such bind of every client is refused |
| Trace.RefusedDestroys | atria-compositor/src/state/mod.rs:600-613 | an input: a client asks for its display to be destroyed, is refused, stays connected, and has no display |
| Input.PairedOne | atria-compositor/src/state/input.rs:167-210 | presses and releases alternate and a release is swallowed exactly when its press was, kept by one more |
| Input.BackedAfterRelease | atria-compositor/src/state/input.rs:177-183 | every modifier still set is backed by a key still held |
| Input.NoteOne | atria-compositor/src/state/input.rs:51-157 | no client is told of the pointer while a shell holds it, kept by one more event |
| Input.TalliedOne | atria-compositor/src/state/input.rs:86-157 | the presses a client was told of and not yet released are counted as the seat counts them, kept by one more event |
| Input.ReleaseTail | atria-compositor/src/state/input.rs:86-157 | a release is unpaired exactly when the surface told has no press outstanding |
| Input.Seat.Key | atria-compositor/src/state/input.rs:167-255 | a press is swallowed exactly when it completes a claimed chord, a release exactly when its press was: where no claim on the key is exact, when some claim has all its modifiers held; where all are, when one has just the modifiers held; it is told to the holder of such a claim; exactly the key's own modifier is set or cleared, consumed keys are held, at most 32 are, and every set modifier is backed |
| Input.Seat.Claimed | atria-compositor/src/state/input.rs:291-300 | a claim on a chord of this key, on this seat, with its modifiers held and just those if it is exact; or none exactly when there is none |
| Input.ClaimedIff | atria-compositor/src/model.rs:51-59 | what completes a chord, said of the modifiers themselves, for exact claims and for the others |
| Input.HoldingMore | atria-compositor/src/model.rs:51-59 | holding more never stops a chord that is not exact and always stops one that is |
| Input.ModifierPositions | atria-compositor/src/state/input.rs:177-183 | the eight positions that are modifiers, and which each is |
| Input.Seat.MovePointer | atria-compositor/src/state/input.rs:51-82 | a drag goes to the shell, a held button keeps its target, otherwise what is under the pointer is entered |
| Input.ToldInOrder | atria-compositor/src/state/input.rs:51-157 | leaving is told before entering, nothing where the surface stays the same, and a press before what it does to a window |
| Input.Seat.PointerButton | atria-compositor/src/state/input.rs:86-157 | who is told of a button, in order, and the count of held buttons, in every case; a release told to a client has no press left to end exactly when the seat counts none as held; the last release ends a grab |
| Input.Seat.ShellGrab | atria-compositor/src/state/shell.rs:178-198 | granted exactly while a button is held, after the client was told to let go |
| Input.Seat.ResetInput | atria-compositor/src/state/input.rs:30-47 | everything held is let go of and a new epoch begins |
| Input.RunInput | atria-compositor/src/state/input.rs:30-157 | over every run of keys, motion, buttons, grabs and resets the seat does step by step what `SeatNext` says, the histories only grow, the routing invariants hold, and the releases told without a press are exactly those of a button released over a surface while none counts as held |
| Input.StrayRelease | atria-compositor/src/state/input.rs:86-157 | a press over nothing, dragged onto a surface: the surface is told of a release and never of a press |
| Evdev.CodesAgree | atria-input/src/key.rs:74-126 | device codes and keys determine each other |
| Evdev.RecordMeans | atria-input/src/report.rs:5-8 | a record of type 0 ends a report if its code is 0 and says records were lost if it is 3; one of type 1 is about the key with its code, which its value 0 releases, 1 presses and 2 repeats |
| Evdev.TimesKeepOrder | atria-input/src/key.rs:246-263 | a time is usable exactly when it fits, and usable times keep their order: nothing wraps or is rounded |
| Evdev.TimeInNanoseconds | atria-input/src/key.rs:246-263 | a usable time is its seconds and microseconds in nanoseconds |
| Evdev.StepKeepsCycles | atria-input/src/key.rs:186-214 | one record, passed on or kept silent, keeps every key's epoch a run of cycles |
| Evdev.EpochIsCycles | atria-input/src/epoch.rs:134-144 | in an epoch that was never out of step every key's events are cycles beginning with a press |
| Evdev.NewEpoch | atria-input/src/epoch.rs:134-144 | a new epoch begins with nothing passed on and whatever is down silent |
| Evdev.Delivery | atria-input/src/epoch.rs:97-115 | an accepted report keeps what was passed on orderly in every epoch |
| Evdev.PassedByKey | atria-input/src/key.rs:186-214 | of a key that is not silent everything is passed on, and of one that is exactly what follows its release |
| Evdev.PassedKeepsStep | atria-input/src/key.rs:177-217 | what a consistent report is passed on as keeps every key's epoch a run of cycles |
| Evdev.ReportAccumulator.Push | atria-input/src/report.rs:80-105 | the answer and what is pending, in every case and by the device's own numbers: a report is exactly the records since the last one of type 0 and code 0, at most 256; one of type 0 and code 3, or one too many, discards up to the next boundary, which then says so |
| Evdev.ReportAccumulator.Reset | atria-input/src/report.rs:108-111 | nothing pending, nothing dropped |
| Evdev.KeyNormalizer.Normalize | atria-input/src/key.rs:177-217 | refused exactly when some record cannot be read, for the first such, changing nothing; otherwise the key state moves by all records and exactly what is not silent is passed on |
| Evdev.KeyNormalizer.SuppressHeld | atria-input/src/key.rs:224-228 | exactly what is down is silent |
| Evdev.KeyNormalizer.Reacquire | atria-input/src/key.rs:230-243 | every supported key is what the bitmap says, and silent if it is down |
| Evdev.BitIs | atria-input/src/key.rs:230-243 | a key's bit is counted from the least significant of its byte |
| Evdev.InputPipeline.Push | atria-input/src/epoch.rs:97-115 | one record is one step of the pipeline as a value, with its answer; a batch is exactly what was passed on and is delivered exactly by a record of type 0 and code 0 that ends a readable report; after a loss that record asks for the device's state instead |
| Evdev.EnterPressed | atria-input/src/epoch.rs:97-115 | in the device's numbers: key 28 pressed and the end of the report deliver exactly that press, with its time in nanoseconds |
| Evdev.RecordsLost | atria-input/src/report.rs:80-105 | in the device's numbers: a press, a lost record, and a boundary that delivers nothing and asks for the device's state |
| Evdev.InputPipeline.Reacquire | atria-input/src/epoch.rs:118-126 | after a loss the key state is the device's again, in a new epoch, and nothing is made up |
| Evdev.InputPipeline.Advance | atria-input/src/epoch.rs:134-144 | the epoch grows past everything passed on before, so that all of it is refused, and held keys are silent |
| Evdev.RunSound | atria-input/src/epoch.rs:97-144 | every run of a real device, with any losses, cuts and recoveries, keeps every unbroken epoch a run of cycles |
| Evdev.CarefulRunIsCycles | atria-input/src/epoch.rs:97-144 | if every report can be read and every cut comes between reports, every key in every epoch is whole cycles beginning with a press |
| Evdev.AcceptedCyclesIff | atria-input/src/key.rs:177-217 | a report accepted while the key state is not the device's: a key is told of in whole cycles exactly if it is silent, or what is believed of it is true, or the report says nothing of it |
| Evdev.RefusedThenReadable | atria-input/src/epoch.rs:97-115 | after a report refused from a line in step, the next one that can be read tells a key in whole cycles exactly if the key is silent, or was not changed by what was refused, or the report says nothing of it |
| Evdev.CutThenReadable | atria-input/src/epoch.rs:134-144 | after a cut in the middle of a report, the rest of it tells a key in whole cycles of the new epoch exactly if the key was down already, is up when the cut comes, or the rest says nothing of it |
| Evdev.RefusedPressThenRelease | atria-input/src/epoch.rs:97-115 | an input where it fails: a press refused for its time, and a release passed on with no press before it |
| Evdev.RunPipeline | atria-input/src/epoch.rs:89-144 | any run of the pipeline does what the value does |
| Displays.GreatestCommonDivisor | atria-compositor/src/output.rs:121-129 | the loop ends with the greatest common divisor |
| Displays.ScaleIsCanonical | atria-compositor/src/output.rs:70-79 | canonical exactly when both terms are between 1 and 65536 and share no divisor |
| Displays.CoprimeDivides | atria-compositor/src/output.rs:64-79 | a number coprime to one factor of a product it divides divides the other |
| Displays.CanonicalScalesEqual | atria-compositor/src/output.rs:64-79 | two canonical scales denote the same ratio exactly when their fields are equal |
| Displays.OverlapsIsSharing | atria-compositor/src/output.rs:88-94 | overlapping is sharing a pixel |
| Displays.ClampIsNearest | atria-compositor/src/output.rs:97-119 | the clamped area is seen on the display, wholly on each axis it fits and otherwise from where the display begins, and no such place is nearer on either axis |
| Displays.SettledWhereItFits | atria-compositor/src/output.rs:97-119 | for an area that fits, those places are exactly the ones that show the whole of it |
| Displays.ClampIsShortestIff | atria-compositor/src/output.rs:292-315 | clamping is the shortest move that makes an area reachable on a display exactly when on both axes it is settled already or is moved from beyond the display by a single coordinate's overlap |
| Displays.ClampedFurther | atria-compositor/src/output.rs:292-315 | an input: a window left of a display is moved by its whole width where one coordinate would make it reachable |
| Displays.OutputSet.Place | atria-compositor/src/output.rs:247-256 | a known display gets the position, an unknown one is refused |
| Displays.OutputSet.IsReachable | atria-compositor/src/output.rs:285-290 | exactly when some attached, placed display overlaps |
| Displays.OutputSet.NearestReachable | atria-compositor/src/output.rs:299-315 | none exactly without a display to move to; unmoved if reachable; otherwise such a place on a display, for areas of every size, none on any display nearer, and the arithmetic fits |
| Displays.OutputSet.Apply | atria-compositor/src/output.rs:197-243 | attached afterwards is exactly what was listed, each change classified once, and no display or position ever forgotten |
| Displays.DeltaFacts | atria-compositor/src/output.rs:203-233 | arrived are the unknown ones listed, returned the known absent ones, each once |
| Displays.ReconfiguredFacts | atria-compositor/src/output.rs:205-211 | listed once, a display is reconfigured exactly when it was attached and reports something else |
| Wire.OneSpelling32 | atria-protocol/src/wire.rs:237-243 | every number has exactly one spelling in four bytes |
| Wire.FieldRoundTrip | atria-protocol/src/wire.rs:303-340 | every field reads back as it was written |
| Wire.FieldLaidOut | atria-protocol/src/wire.rs:237-265 | where a field's bytes are: numbers least significant byte first, a wide number's low half first, text and lists behind their count, zeroes behind text, handles above 0xFFFFFF00 |
| Wire.ReadIff | atria-protocol/src/wire.rs:303-340 | a field is read exactly when its bytes are there, text is UTF-8 and a handle is in its range |
| Wire.ReadLaidOut | atria-protocol/src/wire.rs:303-340 | what is read is what the bytes from its place on spell |
| Wire.PayloadReads | atria-protocol/src/message/mod.rs:14-48 | every list of fields reads back, with nothing after it |
| Wire.ReadIsExact | atria-protocol/src/wire.rs:342-369 | what is read has the types asked for, takes exactly the bytes there are, and could be sent |
| Wire.Reencoded | atria-protocol/src/wire.rs:303-328 | encoding what was read, if it was not text, gives the bytes it was read from |
| Wire.TextReencodedIff | atria-protocol/src/wire.rs:255-265 | encoding text that was read gives the bytes it was read from exactly when its padding was zero |
| Wire.PacketReencodedIff | atria-protocol/src/wire.rs:156-193 | a whole packet that was read is the message made of the header and fields that were read exactly when all of its text was padded with zeroes |
| Wire.MessageRoundTrip | atria-protocol/src/message/mod.rs:14-48 | every message that fits comes back as header and fields, nothing trailing, its length a multiple of four |
| Wire.ForPayload | atria-protocol/src/wire.rs:92-117 | a header exactly for payloads that fit and are aligned |
| Wire.DecodeFrame | atria-protocol/src/wire.rs:156-193 | one whole packet of the declared, aligned, bounded size, whose object, opcode, length and sequence number are those its first twelve bytes spell, in that order |
| Wire.FrameIff | atria-protocol/src/wire.rs:156-193 | a packet is accepted exactly when the length its header spells is its own, a multiple of four, at least 12 and at most 65532 |
| Wire.FrameRefused | atria-protocol/src/wire.rs:156-193 | why a packet is refused, by the length its seventh and eighth bytes spell |
| Wire.BarePacket | atria-protocol/src/wire.rs:119-145 | a packet of twelve given bytes and what it is read as |
| Wire.PayloadAligned | atria-protocol/src/message/mod.rs:705-708 | encoded lengths are multiples of four |
| Wire.Encoder.Write | atria-protocol/src/wire.rs:267-284 | all of the bytes or none, and nothing outside the part written to |
| Wire.Encoder.WriteField | atria-protocol/src/wire.rs:237-265 | exactly the field's bytes, as many as `encoded_len` says, if they fit |
| Wire.EncodeMessage | atria-protocol/src/message/mod.rs:14-48 | succeeds exactly when the message and the buffer are large enough, writes exactly the message, whose first twelve bytes spell the object, the opcode, the whole length and the sequence number, and leaves the rest of the buffer alone; otherwise says which of the two is too small and writes nothing |
| Wire.Decoder.TakeField | atria-protocol/src/wire.rs:303-340 | reading step by step is reading at once, and the position moves by the field's length |
| Wire.Decoder.TakePayload | atria-protocol/src/message/mod.rs:60-70 | the fields in order and then `finish` |
| Wire.SendAndReceive | atria-protocol/src/message/mod.rs:14-48 | encoding into a buffer and decoding from it gives back the header and the fields |

## Left out

- Foreign calls and I/O: the DRM backend, evdev ioctls and device discovery, the Unix transport, shared memory, sockets, the poll loop, the handshake and the reading of client messages of the framebuffer server.
- The spare-frame pool and reference counts: a published frame is a value that does not change. `FrameReport` counters are not modelled.
- Damage lists, roles, refresh ranges and deadlines of compositor surfaces: they are only passed through; composition has damage of its own in `SoftwareOutput`.
- Displays described to clients and window configuration serials: they only queue events, which is the step `Tells` of `Requests.Step`. Globals that offer a surface, a buffer, a session, a fence or a window are not modelled; nothing advertises one.
- Iteration order of ordered maps, except where it is stated: the order in which buffers are released, shells told and candidate displays compared is arbitrary here. Among displays at the same distance any may be chosen, and among claimed chords that a key completes any may be.
- The seat is a class of its own, because queueing an event never changes it; the scene, the focus and the claims it consults are arguments. Pointer coordinates inside surfaces are not modelled.
- Modifier bits of a chord outside the four defined ones are not modelled.
- Modifiers equal to the union of the held keys, strict alternation of enter and leave, and exactly one release event for each hold are not stated: the source does not promise them and does not do them.
- UTF-8 validity is a parameter of the wire model.
- The check that a buffer carved out of a pool lies inside it is the parameter `fits` of its request; whether an imported descriptor is well formed is a parameter too.
- `initialize_key_state`, which sets the first key state before any report, is the constructor's all-up state here.
- SoftwareOutput.Output.Compose: the calls that present and release at the end are a parameter naming the surface whose call fails, if one does; their effect on the compositor is `Compositor.State.Present` and `Compositor.State.ReleaseBuffer`. It needs outputs of at most 2147483647 pixels a side for the damage statement, and buffers no longer than a vector can be.
- Blit.BlitSurface: origins are sums of two 32-bit numbers, as its caller makes them.
- Update.WriteUpdate: the rectangle count on the wire has sixteen bits and the source truncates it; the statement is for up to 65535 rectangles, which `TileDiff.ChangedRegions` proves for frames of up to 16384 pixels a side.
- Update.DeclaredPixel: shifts of a viewer's format are taken modulo 32, and what a shift pushes past the word is lost.
- Viewer.Run: a failed write ends the viewer. What viewers decode is stated for frames of up to 16384 pixels a side, whose updates always count their rectangles in sixteen bits; that the server does what the plain one does is stated for every size.
- Viewer.Server.Perform: what a viewer does with the fourth byte of a pixel, and with pixels it decoded before it changed its format, is left to it; each pixel is stated in the format and encoding in force at the last update that held it.
- Commits.ShowsLastIff: rows of at most 4294967295 bytes, as a buffer's stride has 32 bits.
- Compositor.State.UpdatePointerTarget: the sizes of buffers are a parameter, as descriptors are not part of the compositor's record here.
- Displays.OutputSet.NearestReachable: rectangles are not empty and coordinates and sizes are below 2^30, outside which the source's sums saturate and its squares can exceed 64 bits.
- Compositor.State.PushEvent: the composition number does not wrap.
- Compositor.State.RefreshComposition: when a connection closes while the change is told, the close changes what is composed into in its turn, and which field that leaves is not stated for the change interrupted; who must have been told is.
- Evdev.RunSound: the device is taken to report a press only of a key that is up and a repeat or release only of one that is down, as long as nothing it told was missed; an epoch in which a report was accepted after something was missed is marked broken and nothing is stated of it. A cut in the middle of a report counts as missing what that report told.
