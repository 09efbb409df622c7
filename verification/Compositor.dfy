/** `CompositorState`: connections and their objects, the scene, windows, names and the shared
    event queue. Every method is one step of the compositor, or part of one; what it promises is
    stated on the record `w` before and after. */
module Compositor {
  import opened Basics
  import opened Geometry
  import opened Model
  import opened Registry
  import opened World
  import opened Cascade
  import opened Steps
  import opened Lifetimes
  import opened Destruction
  import opened Fates
  import opened Transitions
  import opened Requests
  import opened Effects
  import opened Runs

  class State {
    const serverCapabilities: set<Capability>
    /** Every field, kept together as one record so that what a step does can be stated on the record
        before and after it. */
    var w: World

    // ----- the event queue and the cascade -----

    /** `push_event`: queue one event, or disconnect a connection that has stopped reading, which
        is told why first. */
    method PushEvent(c: ConnectionId, id: ObjectId, kind: EventKind)
      requires Ready(w)
      modifies `w
      ensures Ready(w)
      ensures c !in old(w).clients ==> w == old(w)
      ensures c in old(w).clients && old(w).clients[c].pendingEvents < old(w).limit ==>
                w == Appended(old(w), Event(c, id, kind))
      ensures c in old(w).clients && old(w).clients[c].pendingEvents >= old(w).limit ==>
                && Cascaded(old(w), w) && c !in w.clients
                && OverflowTold(old(w), w, c)
      decreases |w.clients|, 2
    {
      if c !in w.clients {
        return;
      }
      if w.clients[c].pendingEvents >= w.limit {
        Disconnect(c);
        return;
      }
      AppendedReady(w, Event(c, id, kind));
      w := Appended(w, Event(c, id, kind));
    }

    /** The overflow branch of `push_event`: the error bypasses the bound, and then the close. */
    method Disconnect(c: ConnectionId)
      requires Ready(w) && c in w.clients && w.limit <= w.clients[c].pendingEvents
      modifies `w
      ensures Ready(w) && Cascaded(old(w), w) && c !in w.clients && OverflowTold(old(w), w, c)
      decreases |w.clients|, 1
    {
      ghost var start := w;
      OverflowedClosed(start, c);
      ReadyFacts(start);
      w := Overflowed(w, c);
      var destroyed := CloseConnection(c);
      OverflowCascaded(start, c, w);
      assert start.log + [Queued(Event(c, DISPLAY_ID, QueueOverflow(start.clients[c].pendingEvents)))] <= w.log;
    }

    /** An event that says nothing about identifiers. */
    method Notify(c: ConnectionId, id: ObjectId, kind: EventKind)
      requires Ready(w) && !Lifecycle(kind)
      modifies `w
      ensures Ready(w) && Sent(old(w), Event(c, id, kind), w) && Told(old(w), w, Event(c, id, kind))
      ensures w.clients.Keys <= old(w).clients.Keys
      decreases |w.clients|, 3
    {
      ghost var before := w;
      ghost var e := Event(c, id, kind);
      if c in w.clients && w.clients[c].pendingEvents < w.limit {
        AppendedCascaded(w, e);
      }
      CascadedRefl(w);
      PushEvent(c, id, kind);
      SentTold(before, e, w);
    }

    /** `close_connection`: the connection and everything it owned go; the field being composed
        into and the input method are told, which may close them in turn, and every shell that is
        left when it ends was told of every window that went. */
    method CloseConnection(c: ConnectionId) returns (destroyed: seq<ObjectId>)
      requires if c in w.clients then Ready(Closed(w, c)) else Ready(w)
      requires c in w.clients ==> forall id | id in w.clients[c].registry.live :: id in w.clients[c].registry.order
      modifies `w
      ensures Ready(w) && c !in w.clients
      ensures c !in old(w).clients ==> w == old(w) && destroyed == []
      ensures c in old(w).clients ==>
                && ClosedFrom(old(w), c, w)
                && NoDuplicates(destroyed) && NewestFirst(old(w).clients[c].registry.order, destroyed)
                && forall id :: id in destroyed <==> id in old(w).clients[c].registry.live
      decreases |w.clients|, 0
    {
      if c !in w.clients {
        return [];
      }
      ghost var before := w;
      destroyed := Teardown(w.clients[c].registry);
      var retired := WindowsOf(w, c);
      var owned := OwnsMethod(w, c);
      OneFewer(w.clients, c);
      w := Closed(w, c);
      AnnounceClose(c, retired, owned);
      CloseKnown(before, c, w);
    }

    /** Who is told of a close: the field an input method was composing into, whatever is to be
        composed into now, and every shell for every window that went. */
    method AnnounceClose(c: ConnectionId, retired: set<nat>, ownedMethod: bool)
      requires Ready(w)
      modifies `w
      ensures Ready(w) && Cascaded(old(w), w)
      ensures RetiredTold(old(w), w, retired)
      ensures CloseTold(old(w), c, ownedMethod, retired, w)
      decreases |w.clients|, 8
    {
      ghost var start := w;
      CascadedRefl(start);
      if ownedMethod && w.composing.Some? {
        WithdrawProposal(w.composing.value);
      }
      ghost var left := w;
      ComposingCascaded(left, Deserted(left, c));
      w := Deserted(w, c);
      CascadedTrans(start, left, w);
      FewerClients(start.clients, w.clients);
      ghost var deserted := w;
      RefreshComposition();
      CascadedTrans(start, deserted, w);
      FewerClients(start.clients, w.clients);
      ghost var composed := w;
      TellRetired(retired);
      CascadedTrans(start, composed, w);
      RetiredSince(start, composed, w, retired);
      CloseToldBy(start, c, ownedMethod, retired, left, composed, w);
    }

    /** The field a dead input method was composing into is told the proposal is withdrawn. */
    method WithdrawProposal(field: TextField)
      requires Ready(w)
      modifies `w
      ensures Ready(w) && Cascaded(old(w), w) && LeaveSent(Abandoned(old(w)), field, w)
      ensures w.clients.Keys <= old(w).clients.Keys
      decreases |w.clients|, 5
    {
      ghost var before := w;
      ComposingCascaded(w, Abandoned(w));
      w := Abandoned(w);
      ghost var abandoned := w;
      LeaveField(field);
      CascadedTrans(before, abandoned, w);
    }

    /** A field is told that what was proposed is gone, and then that it is left. */
    method LeaveField(field: TextField)
      requires Ready(w)
      modifies `w
      ensures Ready(w) && Cascaded(old(w), w) && LeaveSent(old(w), field, w) && Withdrawn(old(w), w, field)
      ensures w.clients.Keys == old(w).clients.Keys ==>
                w.composing == old(w).composing && w.composition == old(w).composition
      decreases |w.clients|, 4
    {
      ghost var before := w;
      Notify(field.connection, field.input, TextPreedit);
      ghost var cleared := w;
      FewerClients(before.clients, w.clients);
      Notify(field.connection, field.input, TextLeave);
      CascadedTrans(before, cleared, w);
      ToldKept(before, cleared, w, Event(field.connection, field.input, TextPreedit));
      ToldSince(before, cleared, w, Event(field.connection, field.input, TextLeave));
    }

    /** Every retired handle, told to every shell. */
    method TellRetired(retired: set<nat>)
      requires Ready(w)
      modifies `w
      ensures Ready(w) && Cascaded(old(w), w)
      ensures RetiredTold(old(w), w, retired)
      decreases |w.clients|, 5
    {
      ghost var before := w;
      CascadedRefl(w);
      var left := retired;
      while left != {}
        invariant Ready(w) && Cascaded(before, w) && left <= retired
        invariant RetiredTold(before, w, retired - left)
        decreases left
      {
        var h :| h in left;
        ghost var done := retired - left;
        left := left - {h};
        FewerClients(before.clients, w.clients);
        ghost var last := w;
        TellShells(ShellToplevelGone(h));
        CascadedTrans(before, last, w);
        RetiredNext(before, last, w, done, h);
        assert retired - left == done + {h};
      }
      assert retired - left == retired;
    }

    /** `tell_shells`: every shell-control object there is when the telling starts is told, unless the
        queue of its connection fills up. */
    method TellShells(kind: EventKind)
      requires Ready(w) && !Lifecycle(kind)
      modifies `w
      ensures Ready(w) && ShellsTold(old(w), w, kind)
      decreases |w.clients|, 4
    {
      ghost var before := w;
      var all := Shells(w.clients);
      var left := all;
      CascadedRefl(before);
      NobodyTold(before, kind);
      assert all - left == {};
      while left != {}
        invariant Ready(w) && Cascaded(before, w) && left <= all && AllTold(before, w, all - left, kind)
        decreases left
      {
        var k :| k in left;
        ghost var done := all - left;
        left := left - {k};
        FewerClients(before.clients, w.clients);
        ghost var last := w;
        Notify(k.connection, k.objectId, kind);
        CascadedTrans(before, last, w);
        AllToldNext(before, last, w, done, k, kind);
        assert all - left == done + {k};
      }
      assert all - left == all;
    }

    /** The field of one connection that wants text: the one with the smallest identifier. */
    method FieldOf(c: ConnectionId) returns (field: Option<TextField>)
      ensures field.Some? ==> exists f :: IsFirstField(w, c, f) && w.fields[f] == field.value
      ensures field.None? ==> forall f | f in w.fields :: f.connection != c
    {
      field := None;
      var best: ObjectId := 0;
      var left := set f | f in w.fields && f.connection == c;
      while left != {}
        invariant forall f | f in left :: f in w.fields && f.connection == c
        invariant field.Some? ==> SurfaceKey(c, best) in w.fields && w.fields[SurfaceKey(c, best)] == field.value
        invariant field.Some? ==> forall f | f in w.fields && f.connection == c && f !in left :: best <= f.objectId
        invariant field.None? ==> forall f | f in w.fields && f.connection == c :: f in left
        decreases left
      {
        var f :| f in left;
        left := left - {f};
        if field.None? || f.objectId < best {
          best, field := f.objectId, Some(w.fields[f]);
        }
      }
      assert field.Some? ==> IsFirstField(w, c, SurfaceKey(c, best));
    }

    /** The field text should go to: the focused connection's first, unless it must not be composed
        into. */
    method WantedField() returns (wanted: Option<TextField>)
      ensures Wants(w, wanted)
    {
      wanted := None;
      if w.keyboardFocus.Some? {
        var found := FieldOf(w.keyboardFocus.value.connection);
        if found.Some? && found.value.composes {
          wanted := found;
        }
        OneFirstField(w, w.keyboardFocus.value.connection);
      }
    }

    /** `refresh_composition`: whatever the method should be composing into now, told to both
        sides. */
    method RefreshComposition()
      requires Ready(w)
      modifies `w
      ensures Ready(w) && Recomposed(old(w), w)
      decreases |w.clients|, 7
    {
      ghost var before := w;
      CascadedRefl(before);
      var now := WantedField();
      if !SameField(w.composing, now) {
        ComposeInto(now);
      }
      RecomposedBy(before, now, w);
    }

    /** The change: what was composed into is left, and what is to be is entered. The field left is told
        its proposal is gone and then that it is left, and the method that it stopped; the field entered
        and the method are told they started, unless there is no method left. */
    method ComposeInto(now: Option<TextField>)
      requires Ready(w) && !SameField(w.composing, now)
      modifies `w
      ensures Ready(w) && Cascaded(old(w), w) && Composed(old(w), now, w)
      decreases |w.clients|, 6
    {
      ghost var before := w;
      var was := w.composing;
      ComposingCascaded(w, w.(composing := None));
      w := w.(composing := None);
      ghost var freed := w;
      CascadedRefl(freed);
      if was.Some? {
        StopComposing(was.value);
        CascadedTrans(before, freed, w);
      }
      ghost var stopped := w;
      CascadedRefl(stopped);
      if now.Some? && w.inputMethod.Some? {
        FewerClients(before.clients, w.clients);
        StartComposing(now.value, w.inputMethod.value);
        EnteredSince(before, stopped, w, now.value, stopped.inputMethod.value);
      }
      CascadedTrans(before, stopped, w);
      if was.Some? {
        LeftSince(before, freed, stopped, was.value);
        LeftKept(before, stopped, w, was.value);
      }
    }

    /** The end of a composition: the proposal withdrawn, the field left, the method told. */
    method StopComposing(was: TextField)
      requires Ready(w) && w.composing.None?
      modifies `w
      ensures Ready(w) && Cascaded(old(w), w) && Left(old(w), w, was)
      ensures w.clients.Keys == old(w).clients.Keys ==> w.composing.None? && w.composition == old(w).composition
      decreases |w.clients|, 5
    {
      ghost var before := w;
      LeaveField(was);
      ghost var left := w;
      CascadedRefl(left);
      if w.inputMethod.Some? {
        FewerClients(before.clients, w.clients);
        Notify(w.inputMethod.value.connection, w.inputMethod.value.objectId, MethodDeactivated);
        CascadedTrans(before, left, w);
        ToldSince(before, left, w, MethodStopped(left.inputMethod.value));
      }
      WithdrawnKept(before, left, w, was);
    }

    /** The start of one, which gets a number of its own. */
    method StartComposing(now: TextField, composer: ObjectKey)
      requires Ready(w)
      modifies `w
      ensures Ready(w) && Cascaded(old(w), w) && Entered(old(w), w, now, composer)
      ensures w.clients.Keys == old(w).clients.Keys ==> w.composing == Some(now) && w.composition == old(w).composition + 1
      decreases |w.clients|, 4
    {
      ghost var before := w;
      var numbered := w.(composing := Some(now), composition := w.composition + 1);
      ComposingCascaded(w, numbered);
      w := numbered;
      Notify(now.connection, now.input, TextEnter);
      ghost var entered := w;
      CascadedTrans(before, numbered, w);
      FewerClients(before.clients, w.clients);
      Notify(composer.connection, composer.objectId, MethodActivated);
      CascadedTrans(before, entered, w);
      ToldSince(before, numbered, entered, Event(now.connection, now.input, TextEnter));
      EnteredInTurn(before, entered, w, now, composer);
    }

    // ----- events between other changes -----

    /** An event in the course of a step: whatever held still holds. */
    method Tell(c: ConnectionId, id: ObjectId, kind: EventKind, ghost x: Dying)
      requires Holds(w, x) && !Lifecycle(kind)
      modifies `w
      ensures Holds(w, x) && Sent(old(w), Event(c, id, kind), w) && Told(old(w), w, Event(c, id, kind))
    {
      ghost var before := w;
      HoldsReady(w, x);
      Notify(c, id, kind);
      CascadedHolds(before, w, x);
    }

    /** `tell_shells`, in the course of a step. */
    method TellAllShells(kind: EventKind, ghost x: Dying)
      requires Holds(w, x) && !Lifecycle(kind)
      modifies `w
      ensures Holds(w, x) && ShellsTold(old(w), w, kind)
    {
      ghost var before := w;
      HoldsReady(w, x);
      TellShells(kind);
      CascadedHolds(before, w, x);
    }

    // ----- destruction -----

    /** The end of `destroy_object`: the destruction queued, then the retirement, then the
        identifier freed. */
    method Announce(k: ObjectKey, kind: Kind)
      requires Holds(w, Some(k)) && Unannounced(w, k)
      modifies `w
      ensures Holds(w, None) && Reduced(old(w), w, Nothing())
      ensures k.connection in w.clients ==> w.clients.Keys == old(w).clients.Keys
      ensures old(w).clients[k.connection].pendingEvents + 2 <= old(w).limit ==> k.connection in w.clients
    {
      ghost var before := w;
      AnnounceGone(k, kind);
      if k.connection in w.clients {
        ghost var told := w;
        AnnounceRetired(k);
        ReducedTrans(before, told, w, Nothing(), Nothing());
        NothingMore(Nothing());
      }
    }

    method AnnounceGone(k: ObjectKey, kind: Kind)
      requires Holds(w, Some(k)) && Unannounced(w, k)
      modifies `w
      ensures Reduced(old(w), w, Nothing())
      ensures if k.connection in w.clients
              then Holds(w, Some(k)) && IdHistory(w.log, k.connection, k.objectId) == Gone
                   && Lookup(w.clients, k.connection, k.objectId).None?
              else Holds(w, None)
      ensures k.connection in w.clients ==>
                && w.clients.Keys == old(w).clients.Keys && w.limit == old(w).limit
                && w.clients[k.connection].pendingEvents == old(w).clients[k.connection].pendingEvents + 1
      ensures old(w).clients[k.connection].pendingEvents < old(w).limit ==> k.connection in w.clients
    {
      ghost var before := w;
      ghost var e := Event(k.connection, k.objectId, ObjectDestroyed(kind));
      HoldsReady(w, Some(k));
      PushEvent(k.connection, k.objectId, ObjectDestroyed(kind));
      if k.connection in w.clients {
        AppendedHolds(before, e);
        HistoryOne(before.log, Queued(e), k.connection, k.objectId);
        AppendedReduced(before, e);
        AppendedView(before, e);
      } else {
        CascadedHolds(before, w, Some(k));
        CascadedReduced(before, w);
        DyingGone(w, k);
      }
    }

    method AnnounceRetired(k: ObjectKey)
      requires Holds(w, Some(k)) && k.connection in w.clients && Lookup(w.clients, k.connection, k.objectId).None?
      requires IdHistory(w.log, k.connection, k.objectId) == Gone
      modifies `w
      ensures Holds(w, None) && Reduced(old(w), w, Nothing())
      ensures k.connection in w.clients ==> w.clients.Keys == old(w).clients.Keys
      ensures old(w).clients[k.connection].pendingEvents < old(w).limit ==> k.connection in w.clients
    {
      ghost var before := w;
      ghost var e := Event(k.connection, k.objectId, IdRetired);
      HoldsReady(w, Some(k));
      PushEvent(k.connection, k.objectId, IdRetired);
      if k.connection in w.clients {
        AppendedHolds(before, e);
        HistoryOne(before.log, Queued(e), k.connection, k.objectId);
        AppendedReduced(before, e);
        AppendedView(before, e);
        ghost var told := w;
        FreeObject(k);
        ReducedTrans(before, told, w, Nothing(), Nothing());
        NothingMore(Nothing());
      } else {
        CascadedHolds(before, w, Some(k));
        CascadedReduced(before, w);
        DyingGone(w, k);
      }
    }

    method FreeObject(k: ObjectKey)
      requires Holds(w, Some(k)) && k.connection in w.clients && Lookup(w.clients, k.connection, k.objectId).None?
      requires IdHistory(w.log, k.connection, k.objectId) == Unused
      modifies `w
      ensures Holds(w, None) && Reduced(old(w), w, Nothing()) && w.clients.Keys == old(w).clients.Keys
    {
      FreedHolds(w, k);
      FreedReduced(w, k);
      w := Freed(w, k);
    }

    /** An object nothing names any more is removed and announced. */
    method RemoveObject(k: ObjectKey, kind: Kind)
      requires Holds(w, Some(k)) && Lookup(w.clients, k.connection, k.objectId).Some? && Loose(w, k)
      modifies `w
      ensures Holds(w, None) && Reduced(old(w), w, Falling({k}))
      ensures old(w).clients[k.connection].pendingEvents + 2 <= old(w).limit ==> k.connection in w.clients
    {
      ghost var before := w;
      RemovedHolds(before, k);
      RemovedReduced(before, k);
      w := Removed(w, k);
      ghost var removed := w;
      Announce(k, kind);
      ReducedTrans(before, removed, w, Falling({k}), Nothing());
      NothingMore(Falling({k}));
    }

    /** Every buffer related to a surface goes back to its client, which is told: all of them, or those
        held for commits before a given one. */
    method ReleaseRelated(k: SurfaceKey, older: Option<CommitId>)
      requires Holds(w, None) && SurfaceOf(w.clients, k).Some?
      modifies `w
      ensures Holds(w, None) && Reduced(old(w), w, Freeing(RelatedTo(old(w).clients, k, older)))
      ensures k.connection in w.clients ==> OnlyReleases(old(w).log, w.log, k.connection)
    {
      ghost var before := w;
      ghost var related := RelatedTo(w.clients, k, older);
      ReducedRefl(w);
      var left := w.clients[k.connection].registry.live.Keys;
      ghost var freed: set<ObjectKey> := {};
      while left != {}
        invariant Holds(w, None) && Reduced(before, w, Freeing(freed)) && freed <= related
        invariant forall b | b in related && b !in freed :: b.objectId in left
        invariant k.connection in w.clients ==> OnlyReleases(before.log, w.log, k.connection)
        decreases left
      {
        var id :| id in left;
        left := left - {id};
        ghost var last, b := w, SurfaceKey(k.connection, id);
        ReleaseIfRelated(k, older, id);
        RelatedStays(before, last, k, older, freed, b);
        ReducedTrans(before, last, w, Freeing(freed), Freeing(RelatedTo(last.clients, k, older) * {b}));
        FallingBoth(freed, RelatedTo(last.clients, k, older) * {b});
        ReducedClients(last, w, Freeing(RelatedTo(last.clients, k, older) * {b}));
        if k.connection in w.clients {
          freed := freed + (RelatedTo(last.clients, k, older) * {b});
        } else {
          FreedGone(before, w, freed + (RelatedTo(last.clients, k, older) * {b}), related);
          freed := related;
        }
      }
      assert freed == related;
    }

    method ReleaseIfRelated(k: SurfaceKey, older: Option<CommitId>, id: ObjectId)
      requires Holds(w, None)
      modifies `w
      ensures Holds(w, None)
      ensures Reduced(old(w), w, Freeing(RelatedTo(old(w).clients, k, older) * {SurfaceKey(k.connection, id)}))
      ensures k.connection in w.clients ==> OnlyReleases(old(w).log, w.log, k.connection)
    {
      ghost var before := w;
      var b := SurfaceKey(k.connection, id);
      if LiveBuffer(w.clients, k.connection, id) && Related(Lookup(w.clients, k.connection, id).value.held, k, older) {
        Release(b);
        ReleasedReduced(before, b, w);
        assert RelatedTo(before.clients, k, older) * {b} == {b};
      } else {
        ReducedRefl(w);
        assert RelatedTo(before.clients, k, older) * {b} == {};
      }
    }

    /** A buffer made available and its client told. */
    method Release(b: ObjectKey)
      requires Holds(w, None) && LiveBuffer(w.clients, b.connection, b.objectId)
      modifies `w
      ensures Holds(w, None) && Sent(Released(old(w), b), Notice(b, BufferRelease), w)
      ensures Told(old(w), w, Notice(b, BufferRelease)) && Onward(old(w), w)
    {
      ghost var before := w;
      ReleasedHolds(before, b, None);
      w := Released(w, b);
      ghost var released := w;
      Tell(b.connection, b.objectId, BufferRelease, None);
      ToldSince(before, released, w, Notice(b, BufferRelease));
      ReleasedReduced(before, b, w);
      ReducedOnward(before, w, Freeing({b}));
    }

    /** The surface branch of `destroy_object`: its buffers go back, it leaves the scene and the
        focus, and then it goes. */
    method DestroySurface(k: SurfaceKey)
      requires Holds(w, None) && SurfaceOf(w.clients, k).Some?
      modifies `w
      ensures Holds(w, None) && Reduced(old(w), w, Falling({k}))
    {
      ghost var before := w;
      ghost var freed := Freeing(RelatedTo(w.clients, k, None));
      ReleaseRelated(k, None);
      ghost var released := w;
      ReducedSurfaces(before, w, freed);
      if k.connection in w.clients {
        NoneNaming(before, released, k);
        LeaveScene(k);
        ghost var left := w;
        ReducedTrans(before, released, w, freed, Leaving(k));
        if k.connection in w.clients {
          LeftIsLoose(released, k, w);
          RemoveObject(k, Surface);
          ReducedTrans(before, left, w, Both(freed, Leaving(k)), Falling({k}));
        } else {
          DyingGone(w, k);
          GoneFalls(before, w, Both(freed, Leaving(k)), {k});
        }
        JustFalls(before, w, k, Both(Both(freed, Leaving(k)), Falling({k})));
      } else {
        GoneFalls(before, w, freed, {k});
        JustFalls(before, w, k, Both(freed, Falling({k})));
      }
    }

    /** A surface being destroyed is out of the scene, and then holds neither the keyboard nor the
        pointer. */
    method LeaveScene(k: SurfaceKey)
      requires Holds(w, None) && SurfaceOf(w.clients, k).Some?
      modifies `w
      ensures Holds(w, Some(k)) && Reduced(old(w), w, Leaving(k))
    {
      ghost var before := w;
      UnplacedHolds(w, k);
      w := Unplaced(w, k);
      ghost var unplaced := w;
      CascadedRefl(w);
      if w.keyboardFocus == Some(k) {
        Tell(k.connection, k.objectId, KeyboardLeave, Some(k));
        CascadedScene(unplaced, w);
      }
      LeavingReduced(before, k, w);
      FocusHolds(w, Unfocused(w, k).keyboardFocus, Unfocused(w, k).pointerTarget, Some(k));
      w := Unfocused(w, k);
    }

    /** Surfaces of one connection, destroyed in the order given. */
    method DestroySurfaces(c: ConnectionId, ids: seq<ObjectId>)
      requires Holds(w, None) && c in w.clients
      modifies `w
      ensures Holds(w, None) && Reduced(old(w), w, Falling(SurfacesAmong(old(w).clients, c, ids)))
    {
      ghost var before := w;
      NoneFallen(before, c, ids);
      var i := 0;
      while i < |ids|
        invariant 0 <= i <= |ids|
        invariant Holds(w, None) && SurfacesFallen(before, w, c, ids, i)
      {
        DestroyNext(before, c, ids, i);
        i := i + 1;
      }
      AllFallen(before, w, c, ids);
    }

    /** One of them, if it is still there. */
    method DestroyNext(ghost before: World, c: ConnectionId, ids: seq<ObjectId>, i: nat)
      requires i < |ids| && Holds(before, None) && c in before.clients
      requires Holds(w, None) && SurfacesFallen(before, w, c, ids, i)
      modifies `w
      ensures Holds(w, None) && SurfacesFallen(before, w, c, ids, i + 1)
    {
      ghost var last, fallen := w, SurfacesAmong(before.clients, c, ids[..i]);
      var k := SurfaceKey(c, ids[i]);
      SurfacesFallenIff(before, w, c, ids, i);
      ReducedSurfaces(before, w, Falling(fallen));
      SurfacesMore(before.clients, c, ids, i);
      if SurfaceOf(w.clients, k).Some? {
        DestroySurface(k);
        ReducedTrans(before, last, w, Falling(fallen), Falling({k}));
        FallingBoth(fallen, {k});
      } else if c !in w.clients {
        GoneFalls(before, w, Falling(fallen), SurfacesAmong(before.clients, c, ids[..i + 1]));
        FallingBoth(fallen, SurfacesAmong(before.clients, c, ids[..i + 1]));
      } else if SurfaceOf(before.clients, k).Some? {
        assert fallen + {k} == fallen;
      }
      SurfacesFallenIff(before, w, c, ids, i + 1);
    }

    /** The session branch: its surfaces go first, newest to oldest. */
    method DestroySession(k: ObjectKey)
      requires Holds(w, None) && IsSession(w.clients, k.connection, k.objectId)
      modifies `w
      ensures Holds(w, None) && Reduced(old(w), w, Falling(SurfacesUnder(old(w).clients, k.connection, {k}) + {k}))
    {
      ghost var before := w;
      var order, wanted := w.clients[k.connection].registry.order, IdsUnder(w.clients, k.connection, {k});
      AllListed(w, k.connection);
      AmongNewest(w.clients, k.connection, order, wanted);
      DestroySurfaces(k.connection, NewestOf(order, wanted));
      RemoveRest(before, k, Session, SurfacesUnder(before.clients, k.connection, {k}));
    }

    /** The object itself, after what it takes with it: nothing names it any more. */
    method RemoveRest(ghost before: World, k: ObjectKey, kind: Kind, ghost fallen: set<ObjectKey>)
      requires Holds(before, None) && Holds(w, None) && Reduced(before, w, Falling(fallen)) && k !in fallen
      requires Lookup(before.clients, k.connection, k.objectId).Some?
      requires Unnamed(Lookup(before.clients, k.connection, k.objectId).value)
               || (LiveFence(before.clients, k.connection, k.objectId) && Waiting(before.clients, k) <= fallen)
      modifies `w
      ensures Holds(w, None) && Reduced(before, w, Falling(fallen + {k}))
    {
      ghost var emptied := w;
      FallingBoth(fallen, {k});
      ReducedLookup(before, w, Falling(fallen), k);
      if k.connection in w.clients {
        if LiveFence(before.clients, k.connection, k.objectId) {
          NoneWaiting(before, w, k, fallen);
          FenceLoose(w, k);
        } else {
          UnnamedIsLoose(w, k);
        }
        DyingHolds(w, k);
        RemoveObject(k, kind);
        ReducedTrans(before, emptied, w, Falling(fallen), Falling({k}));
      } else {
        ReducedClients(before, w, Falling(fallen));
        GoneFalls(before, w, Falling(fallen), {k});
      }
    }

    /** An object that is no surface, buffer, fence or window goes. */
    method RemoveUnnamed(k: ObjectKey, kind: Kind)
      requires Holds(w, None) && Lookup(w.clients, k.connection, k.objectId).Some?
      requires Unnamed(Lookup(w.clients, k.connection, k.objectId).value)
      modifies `w
      ensures Holds(w, None) && Reduced(old(w), w, Falling({k}))
      ensures old(w).clients[k.connection].pendingEvents + 2 <= old(w).limit ==> k.connection in w.clients
    {
      UnnamedIsLoose(w, k);
      DyingHolds(w, k);
      RemoveObject(k, kind);
    }

    /** The seat branch: its sessions go first, and with each its surfaces. */
    method DestroySeat(k: ObjectKey)
      requires Holds(w, None) && Lookup(w.clients, k.connection, k.objectId).Some?
      requires Lookup(w.clients, k.connection, k.objectId).value.SeatObject?
      modifies `w
      ensures Holds(w, None)
      ensures var sessions := SessionsOn(old(w).clients, k);
              Reduced(old(w), w, Falling(SurfacesUnder(old(w).clients, k.connection, sessions) + sessions + {k}))
    {
      ghost var before := w;
      ghost var sessions := SessionsOn(w.clients, k);
      var order, wanted := w.clients[k.connection].registry.order, IdsOn(w.clients, k);
      AllListed(w, k.connection);
      AmongNewest(w.clients, k.connection, order, wanted);
      DestroySessions(k.connection, NewestOf(order, wanted));
      RemoveRest(before, k, Seat, SurfacesUnder(before.clients, k.connection, sessions) + sessions);
    }

    /** Sessions of one connection, destroyed in the order given. */
    method DestroySessions(c: ConnectionId, ids: seq<ObjectId>)
      requires Holds(w, None) && c in w.clients
      modifies `w
      ensures Holds(w, None) && Reduced(old(w), w, Falling(SessionsFall(old(w).clients, c, ids)))
    {
      ghost var before := w;
      ReducedRefl(w);
      assert SessionsFall(before.clients, c, ids[..0]) == {};
      var i := 0;
      while i < |ids|
        invariant 0 <= i <= |ids|
        invariant Holds(w, None) && Reduced(before, w, Falling(SessionsFall(before.clients, c, ids[..i])))
      {
        ghost var last, fallen := w, SessionsFall(before.clients, c, ids[..i]);
        var k := SurfaceKey(c, ids[i]);
        if IsSession(w.clients, c, ids[i]) {
          DestroySession(k);
          ReducedTrans(before, last, w, Falling(fallen), Falling(SurfacesUnder(last.clients, c, {k}) + {k}));
          FallingBoth(fallen, SurfacesUnder(last.clients, c, {k}) + {k});
          SessionsNext(before, last, c, ids, i);
        } else if c !in w.clients {
          GoneFalls(before, w, Falling(fallen), SessionsFall(before.clients, c, ids[..i + 1]));
          FallingBoth(fallen, SessionsFall(before.clients, c, ids[..i + 1]));
          SessionsMore(before.clients, c, ids, i);
        } else {
          SessionsSame(before, last, c, ids, i);
        }
        i := i + 1;
      }
      assert ids[..i] == ids;
    }

    /** The fence branch: surfaces waiting on it go first, so none is left naming it. */
    method DestroyFence(k: ObjectKey)
      requires Holds(w, None) && LiveFence(w.clients, k.connection, k.objectId)
      modifies `w
      ensures Holds(w, None) && Reduced(old(w), w, Falling(Waiting(old(w).clients, k) + {k}))
    {
      ghost var before := w;
      var order, wanted := w.clients[k.connection].registry.order, IdsWaiting(w.clients, k);
      AllListed(w, k.connection);
      AmongNewest(w.clients, k.connection, order, wanted);
      DestroySurfaces(k.connection, NewestOf(order, wanted));
      RemoveRest(before, k, Fence, Waiting(before.clients, k));
    }

    /** The window branch: the handle is retired and the shells told before the object goes. */
    method DestroyToplevel(k: ObjectKey)
      requires Holds(w, None) && IsToplevel(w.clients, k)
      modifies `w
      ensures Holds(w, None) && Reduced(old(w), w, Falling({k}))
      ensures AllTold(old(w), w, Shells(old(w).clients), ShellToplevelGone(HandleOf(old(w).clients, k)))
    {
      ghost var before := w;
      var h := HandleOf(w.clients, k);
      UnhandledHolds(w, k);
      w := Unhandled(w, h);
      ghost var unhandled := w;
      TellAllShells(ShellToplevelGone(h), Some(k));
      ghost var told := w;
      UnhandledReduced(before, k, told);
      AllToldSince(before, unhandled, told, Shells(before.clients), ShellToplevelGone(h));
      if k.connection in w.clients {
        WindowIsLoose(unhandled, k, w);
        RemoveObject(k, Toplevel);
        ReducedTrans(before, told, w, Leaving(k), Falling({k}));
        ReducedClients(told, w, Falling({k}));
        AllToldKept(before, told, w, Shells(before.clients), ShellToplevelGone(h));
      } else {
        DyingGone(w, k);
        GoneFalls(before, w, Leaving(k), {k});
      }
      JustFalls(before, w, k, Both(Leaving(k), Falling({k})));
    }

    /** The buffer branch: whatever named it forgets it. A stacked surface that was showing it
        stays in the stack, with nothing to show, and no other loses anything. */
    method DestroyBuffer(b: ObjectKey)
      requires Holds(w, None) && LiveBuffer(w.clients, b.connection, b.objectId)
      modifies `w
      ensures Holds(w, None) && Reduced(old(w), w, Dropping(b))
      ensures b.connection in w.clients ==> w.clients.Keys == old(w).clients.Keys
      ensures old(w).clients[b.connection].pendingEvents + 2 <= old(w).limit ==> b.connection in w.clients
    {
      ghost var before := w;
      DroppedHolds(w, b);
      DroppedReduced(w, b);
      w := Dropped(w, b);
      ghost var dropped := w;
      Announce(b, Buffer);
      ReducedTrans(before, dropped, w, Dropping(b), Nothing());
      NothingMore(Dropping(b));
    }

    /** `destroy_object`: exactly the object and what it takes with it. */
    method DestroyObject(k: ObjectKey)
      requires Holds(w, None)
      modifies `w
      ensures Holds(w, None) && DestroyedBy(old(w), k, w)
      ensures Lookup(old(w).clients, k.connection, k.objectId).None? ==> w == old(w)
      ensures Lone(old(w).clients, k) && old(w).clients[k.connection].pendingEvents + 2 <= old(w).limit ==>
                k.connection in w.clients
    {
      ghost var before := w;
      ReducedRefl(w);
      var found := Lookup(w.clients, k.connection, k.objectId);
      match found {
        case None =>
        case Some(SurfaceObject(_)) =>
          DestroySurface(k);
          AloneDestroyed(before, k, w);
        case Some(BufferObject(_, _)) =>
          DestroyBuffer(k);
          BufferDestroyed(before, k, w);
        case Some(FenceObject(_)) =>
          DestroyFence(k);
          FenceDestroyed(before, k, w);
        case Some(ToplevelObject(_, _)) =>
          DestroyToplevel(k);
          AloneDestroyed(before, k, w);
        case Some(SessionObject(_, _)) =>
          DestroySession(k);
          SessionDestroyed(before, k, w);
        case Some(SeatObject(_)) =>
          DestroySeat(k);
          SeatDestroyed(before, k, w);
        case Some(Plain(kind)) =>
          RemoveUnnamed(k, kind);
          AloneDestroyed(before, k, w);
      }
    }

    // ----- requests that create -----

    method AllocateObject(c: ConnectionId, id: ObjectId, o: Object) returns (e: Option<StateError>)
      requires Holds(w, None) && Inert(o) && !o.ToplevelObject?
      modifies `w
      ensures Holds(w, None) && Onward(old(w), w)
      ensures e == AllocationRefused(old(w), c, id)
      ensures e.Some? ==> w == old(w)
      ensures e.None? ==> c in old(w).clients && w == Born(old(w), SurfaceKey(c, id), o)
    {
      e := AllocationRefused(w, c, id);
      OnwardRefl(w);
      if e.None? {
        BornHolds(w, SurfaceKey(c, id), o);
        BornOnward(w, SurfaceKey(c, id), o);
        w := Born(w, SurfaceKey(c, id), o);
      }
    }

    /** A plain object, once the object it is asked of is what it should be. */
    method CreatePlain(c: ConnectionId, id: ObjectId, kind: PlainKind, refused: Option<StateError>) returns (e: Option<StateError>)
      requires Holds(w, None)
      modifies `w
      ensures Holds(w, None) && Onward(old(w), w)
      ensures e == if refused.Some? then refused else AllocationRefused(old(w), c, id)
      ensures e.Some? ==> w == old(w)
      ensures e.None? ==> c in old(w).clients && w == Born(old(w), SurfaceKey(c, id), Plain(kind))
    {
      if refused.Some? {
        OnwardRefl(w);
        return refused;
      }
      e := AllocateObject(c, id, Plain(kind));
    }

    method CreateSurface(c: ConnectionId, id: ObjectId) returns (e: Option<StateError>)
      requires Holds(w, None)
      modifies `w
      ensures Holds(w, None) && Onward(old(w), w)
      ensures e == SurfaceRefused(old(w), c, id)
      ensures e.Some? ==> w == old(w)
      ensures e.None? ==> w == Born(old(w), SurfaceKey(c, id),
                                    SurfaceObject(SurfaceState(old(w).clients[c].session.value, Unchanged, None, None, false)))
    {
      e := SurfaceRefused(w, c, id);
      if e.Some? {
        OnwardRefl(w);
        return;
      }
      e := AllocateObject(c, id, SurfaceObject(SurfaceState(w.clients[c].session.value, Unchanged, None, None, false)));
    }

    /** `create_buffer` and an import: a buffer nobody has yet. */
    method CreateAvailable(c: ConnectionId, id: ObjectId, transport: Capability, refused: Option<StateError>)
      returns (e: Option<StateError>)
      requires Holds(w, None) && (refused.None? ==> AllocationRefused(w, c, id).None?)
      modifies `w
      ensures Holds(w, None) && Onward(old(w), w)
      ensures e == refused
      ensures e.Some? ==> w == old(w)
      ensures e.None? ==> c in old(w).clients && w == Born(old(w), SurfaceKey(c, id), BufferObject(transport, Available))
    {
      if refused.Some? {
        OnwardRefl(w);
        return refused;
      }
      e := AllocateObject(c, id, BufferObject(transport, Available));
    }

    /** `get_toplevel`: a handle is spent on the attempt, even if the identifier is then refused. */
    method GetToplevel(c: ConnectionId, surface: ObjectId, id: ObjectId) returns (e: Option<StateError>)
      requires Holds(w, None) && c in w.clients
      modifies `w
      ensures Holds(w, None) && Onward(old(w), w)
      ensures e == First(WindowRefused(old(w), c, surface, id), AllocationRefused(old(w), c, id))
      ensures e.Some? ==> RefusedTo(old(w), c, Request.GetToplevel(surface, id), w)
      ensures e.None? ==> ShellsTold(WindowBorn(old(w), SurfaceKey(c, id), surface), w, ShellToplevel(old(w).nextHandle))
    {
      ghost var before := w;
      OnwardRefl(w);
      e := WindowRefused(w, c, surface, id);
      if e.Some? {
        return;
      }
      e := AllocationRefused(w, c, id);
      if e.Some? {
        SpentHolds(w);
        w := w.(nextHandle := w.nextHandle + 1);
        return;
      }
      NoRole(w, c, surface);
      WindowBornHolds(w, SurfaceKey(c, id), surface);
      WindowBornOnward(w, SurfaceKey(c, id), surface);
      var handle := w.nextHandle;
      w := WindowBorn(w, SurfaceKey(c, id), surface);
      ghost var born := w;
      TellAllShells(ShellToplevel(handle), None);
      CascadedOnward(born, w);
      OnwardTrans(before, born, w);
    }

    // ----- attach and commit -----

    /** `attach`. */
    method AttachBuffer(k: SurfaceKey, buffer: ObjectId, offset: Point, fence: Option<ObjectId>) returns (e: Option<StateError>)
      requires Holds(w, None)
      modifies `w
      ensures Holds(w, None) && Onward(old(w), w)
      ensures e == AttachRefused(old(w), k.connection, k.objectId, buffer, fence)
      ensures w == if e.None? then AttachAccepted(old(w), k, buffer, offset, fence) else old(w)
    {
      e := AttachRefused(w, k.connection, k.objectId, buffer, fence);
      assert SurfaceKey(k.connection, k.objectId) == k;
      OnwardRefl(w);
      if e.Some? {
        return;
      }
      if buffer == NULL_ID {
        var s := SurfaceOf(w.clients, k).value.(attachment := Detach);
        DetachPendingHolds(w, k);
        PutOnward(w, k, SurfaceObject(s));
        w := Put(w, k, SurfaceObject(s));
      } else {
        AttachedHolds(w, k, buffer, offset, fence);
        AttachedOnward(w, k, buffer, offset, fence);
        w := Attached(w, k, buffer, offset, fence);
      }
    }

    /** `commit`. Once it has started to change anything it cannot fail, except that the client's
        own queue may overflow on the release of what was shown, which takes the connection. */
    method CommitSurface(k: SurfaceKey) returns (e: Option<StateError>)
      requires Holds(w, None)
      modifies `w
      ensures Holds(w, None) && Onward(old(w), w)
      ensures CommitRefused(old(w), k.connection, k.objectId).Some? ==>
                e == CommitRefused(old(w), k.connection, k.objectId) && w == old(w)
      ensures CommitRefused(old(w), k.connection, k.objectId).None? ==>
                if CommitAccepted(old(w), k).Some? then e.None? && w == CommitAccepted(old(w), k).value
                else DetachedFrom(old(w), k, w) && e == if k.connection in w.clients then None else Some(ConnectionClosed)
      ensures SurfaceOf(old(w).clients, k).Some? && old(w).nextCommit != U64_MAX ==>
                var s := SurfaceOf(old(w).clients, k).value;
                && (s.attachment.Set? ==> e.None? && Commits(old(w), k, s.attachment.buffer, s.attachment.offset, w))
                && (s.attachment.Unchanged? && s.current.Some? ==>
                      e.None? && Commits(old(w), k, s.current.value.buffer, s.current.value.offset, w))
                && (!s.attachment.Set? && s.current.None? ==>
                      e.None? && w == Put(old(w), k, SurfaceObject(s.(attachment := Unchanged, acquireFence := None))))
                && (s.attachment.Detach? && s.current.Some? && e.None? ==>
                      && SurfaceOf(w.clients, k) == Some(s.(attachment := Unchanged, acquireFence := None, current := None))
                      && k !in w.stack)
    {
      OnwardRefl(w);
      if w.nextCommit == U64_MAX {
        return Some(QuotaExceeded(k.objectId));
      }
      e := ExpectKind(w, k.connection, k.objectId, Surface);
      if e.Some? {
        return;
      }
      var s := SurfaceOf(w.clients, k).value;
      var carried := Carried(s);
      if s.attachment.Detach? && s.current.Some? {
        e := DetachContent(k);
        return;
      }
      if carried.None? {
        DropPendingHolds(w, k);
        PutOnward(w, k, SurfaceObject(s.(attachment := Unchanged, acquireFence := None)));
        w := Put(w, k, SurfaceObject(s.(attachment := Unchanged, acquireFence := None)));
        return;
      }
      NamedIsLive(w, k);
      CommittedHolds(w, k, carried.value.0, carried.value.1);
      CommittedOnward(w, k, carried.value.0, carried.value.1);
      CommittedCommits(w, k, carried.value.0, carried.value.1);
      w := Committed(w, k, carried.value.0, carried.value.1);
    }

    /** A commit of a null attachment on a surface with content: `detach`, and what was pending
        dropped. */
    method DetachContent(k: SurfaceKey) returns (e: Option<StateError>)
      requires Holds(w, None) && SurfaceOf(w.clients, k).Some?
      requires var s := SurfaceOf(w.clients, k).value; s.attachment.Detach? && s.current.Some?
      modifies `w
      ensures Holds(w, None) && Onward(old(w), w) && DetachedFrom(old(w), k, w)
      ensures e == if k.connection in w.clients then None else Some(ConnectionClosed)
      ensures e.None? ==> && SurfaceOf(w.clients, k)
                             == Some(SurfaceOf(old(w).clients, k).value.(attachment := Unchanged, acquireFence := None,
                                                                        current := None))
                          && k !in w.stack
    {
      ghost var before := w;
      var s := SurfaceOf(w.clients, k).value;
      var b := SurfaceKey(k.connection, s.current.value.buffer);
      NamedIsLive(w, k);
      Release(b);
      ghost var released := w;
      ReleasedReduced(before, b, w);
      ReducedSurfaces(before, w, Freeing({b}));
      if k.connection !in w.clients {
        DetachedBy(before, k, released, w);
        return Some(ConnectionClosed);
      }
      DetachedHolds(w, k);
      w := Detached(w, k);
      OnwardTrans(before, released, w);
      DetachedBy(before, k, released, w);
      return None;
    }

    /** `request_frame`. */
    method AskForFrame(k: SurfaceKey) returns (e: Option<StateError>)
      requires Holds(w, None)
      modifies `w
      ensures Holds(w, None) && Onward(old(w), w)
      ensures e == FrameRefused(old(w), k.connection, k.objectId)
      ensures e.None? <==> SurfaceOf(old(w).clients, k).Some? && !SurfaceOf(old(w).clients, k).value.frameRequested
      ensures w == if e.None? then Put(old(w), k, SurfaceObject(SurfaceOf(old(w).clients, k).value.(frameRequested := true)))
                   else old(w)
    {
      OnwardRefl(w);
      e := ExpectKind(w, k.connection, k.objectId, Surface);
      if e.Some? {
        return;
      }
      var s := SurfaceOf(w.clients, k).value;
      if s.frameRequested {
        return Some(InvalidState(k.objectId));
      }
      FramesHold(w, k, s.(frameRequested := true));
      PutOnward(w, k, SurfaceObject(s.(frameRequested := true)));
      w := Put(w, k, SurfaceObject(s.(frameRequested := true)));
    }

    // ----- presentation -----

    /** `present`: older buffers of the surface go back. After a success the surface holds at most
        the buffer it shows. */
    method Present(k: SurfaceKey) returns (r: Result<CommitId, StateError>)
      requires Holds(w, None)
      modifies `w
      ensures Holds(w, None) && Onward(old(w), w)
      ensures r.Ok? <==> HasContent(old(w).clients, k) && FenceSignaled(old(w), k) && k.connection in w.clients
      ensures if HasContent(old(w).clients, k) && FenceSignaled(old(w), k) then Presented(old(w), k, w) else w == old(w)
      ensures r.Ok? ==> var s := SurfaceOf(old(w).clients, k).value;
                        && HasContent(w.clients, k) && r.value == s.current.value.commit
                        && SurfaceOf(w.clients, k) == Some(s.(current := Some(s.current.value.(frameCallback := false))))
                        && HoldsOnlyShown(w, k)
      ensures r.Ok? ==> FrameTold(old(w), k, w)
    {
      ghost var before := w;
      OnwardRefl(w);
      var e := ExpectKind(w, k.connection, k.objectId, Surface);
      if e.Some? {
        return Err(e.value);
      }
      var s := SurfaceOf(w.clients, k).value;
      if s.current.None? {
        return Err(InvalidState(k.objectId));
      }
      NamedFence(w, k);
      if !FenceSignaled(w, k) {
        return Err(InvalidState(k.objectId));
      }
      var current := s.current.value;
      ghost var freed := Freeing(RelatedTo(w.clients, k, Some(current.commit)));
      ReleaseRelated(k, Some(current.commit));
      ghost var released := w;
      ReducedOnward(before, w, freed);
      CascadedRefl(w);
      if current.frameCallback {
        Tell(k.connection, k.objectId, FrameDone, None);
      }
      ghost var told := w;
      CascadedOnward(released, w);
      OnwardTrans(before, released, w);
      if k.connection !in w.clients {
        PresentedTells(before, k, released, told, w);
        PresentedBy(before, k, released, told, w);
        return Err(ConnectionClosed);
      }
      PresentedSurface(before, k, released, told);
      var t := s.(current := Some(current.(frameCallback := false)));
      FramesHold(w, k, t);
      PutOnward(w, k, SurfaceObject(t));
      w := Put(w, k, SurfaceObject(t));
      OnwardTrans(before, told, w);
      PutSurfaceLookups(told, k, t);
      HeldByCurrent(w, k);
      PresentedTells(before, k, released, told, w);
      PresentedBy(before, k, released, told, w);
      return Ok(current.commit);
    }

    /** A frame asked for, a commit that shows something, and its presentation: the client, if it is left,
        is told exactly once that the frame is done. */
    method AskCommitPresent(k: SurfaceKey)
      returns (asked: Option<StateError>, committed: Option<StateError>, r: Result<CommitId, StateError>)
      requires Holds(w, None) && SurfaceOf(w.clients, k).Some?
      requires var s := SurfaceOf(w.clients, k).value; s.attachment.Set? || (s.attachment.Unchanged? && s.current.Some?)
      modifies `w
      ensures Holds(w, None)
      ensures asked.None? <==> !SurfaceOf(old(w).clients, k).value.frameRequested
      ensures committed.None? <==> old(w).nextCommit != U64_MAX
      ensures r.Ok? ==>
                && committed.None? && r.value == old(w).nextCommit && FramesDone(w.log, k) == FramesDone(old(w).log, k) + 1
                && HasContent(w.clients, k) && !SurfaceOf(w.clients, k).value.frameRequested
                && !SurfaceOf(w.clients, k).value.current.value.frameCallback
    {
      AskedSurface(w, k);
      asked := AskForFrame(k);
      ghost var before, s := w, SurfaceOf(w.clients, k).value;
      committed := CommitSurface(k);
      if committed.None? {
        if s.attachment.Set? {
          FrameCarried(before, k, s.attachment.buffer, s.attachment.offset, w);
        } else {
          FrameCarried(before, k, s.current.value.buffer, s.current.value.offset, w);
        }
        r := Present(k);
      } else {
        r := Err(committed.value);
      }
    }

    /** `release_buffer`. */
    method ReleaseBuffer(b: ObjectKey) returns (e: Option<StateError>)
      requires Holds(w, None)
      modifies `w
      ensures Holds(w, None) && Onward(old(w), w)
      ensures e.Some? ==> w == old(w)
      ensures e.None? <==> IsHeld(old(w), b)
      ensures e.None? ==> Sent(Released(old(w), b), Notice(b, BufferRelease), w)
    {
      OnwardRefl(w);
      e := ExpectKind(w, b.connection, b.objectId, Buffer);
      if e.Some? {
        return;
      }
      if !Lookup(w.clients, b.connection, b.objectId).value.held.CompositorHeld? {
        return Some(InvalidState(b.objectId));
      }
      Release(b);
    }

    /** `signal_fence`. */
    method SignalFence(k: ObjectKey) returns (e: Option<StateError>)
      requires Holds(w, None)
      modifies `w
      ensures Holds(w, None) && Onward(old(w), w)
      ensures e == ExpectKind(old(w), k.connection, k.objectId, Fence)
      ensures w == if e.None? then Put(old(w), k, FenceObject(true)) else old(w)
    {
      OnwardRefl(w);
      e := ExpectKind(w, k.connection, k.objectId, Fence);
      if e.None? {
        StatusHolds(w, k, FenceObject(true));
        PutOnward(w, k, FenceObject(true));
        w := Put(w, k, FenceObject(true));
      }
    }

    // ----- the scene -----

    /** `place_surface`. */
    method PlaceSurface(k: SurfaceKey, p: Point) returns (e: Option<StateError>)
      requires Holds(w, None)
      modifies `w
      ensures Holds(w, None) && Onward(old(w), w)
      ensures e == ExpectKind(old(w), k.connection, k.objectId, Surface)
      ensures w == if e.None? then Placed(old(w), k, p) else old(w)
    {
      OnwardRefl(w);
      e := ExpectKind(w, k.connection, k.objectId, Surface);
      if e.None? {
        PlacedHolds(w, k, p);
        SceneOnward(w, Placed(w, k, p));
        w := Placed(w, k, p);
      }
    }

    /** `raise_surface`: the same surfaces stacked, this one on top. */
    method RaiseSurface(k: SurfaceKey) returns (e: Option<StateError>)
      requires Holds(w, None)
      modifies `w
      ensures Holds(w, None) && Onward(old(w), w)
      ensures e == ExpectKind(old(w), k.connection, k.objectId, Surface)
      ensures w == if e.None? && HasContent(old(w).clients, k) then Raised(old(w), k) else old(w)
      ensures forall l :: l in w.stack <==> l in old(w).stack
    {
      OnwardRefl(w);
      e := ExpectKind(w, k.connection, k.objectId, Surface);
      if e.None? && HasContent(w.clients, k) {
        RaisedHolds(w, k);
        SceneOnward(w, Raised(w, k));
        w := Raised(w, k);
      }
    }

    /** `update_pointer_target`: the topmost stacked surface whose content covers the point. */
    method UpdatePointerTarget(sizes: ObjectKey -> Size, p: Point)
      requires Holds(w, None)
      modifies `w
      ensures Holds(w, None) && Onward(old(w), w) && w == old(w).(pointerTarget := w.pointerTarget)
      ensures TopmostUnder(old(w), sizes, p, w.pointerTarget)
    {
      ghost var before := w;
      var i := |w.stack|;
      while i > 0 && !Under(w, sizes, w.stack[i - 1], p)
        invariant 0 <= i <= |w.stack| && w == before
        invariant forall j | i <= j < |w.stack| :: !Under(w, sizes, w.stack[j], p)
      {
        i := i - 1;
      }
      var target := if i > 0 then Some(w.stack[i - 1]) else None;
      FocusHolds(w, w.keyboardFocus, target, None);
      w := w.(pointerTarget := target);
      FocusOnward(before, w);
      assert i > 0 ==> Under(w, sizes, w.stack[i - 1], p);
    }

    /** `scene_faults`: fine exactly when the stack and the positions agree with the objects. */
    method SceneFaults() returns (faultless: bool)
      ensures faultless <==> && (forall k | k in w.stack :: HasContent(w.clients, k) && k in w.positions)
                             && (forall k | k in w.positions :: k.connection in w.clients)
      ensures Holds(w, None) ==> (faultless <==> forall k :: !Hollow(w, k))
    {
      if Holds(w, None) {
        FaultlessIff(w);
      }
      var i := 0;
      while i < |w.stack|
        invariant 0 <= i <= |w.stack|
        invariant forall k | k in w.stack[..i] :: HasContent(w.clients, k) && k in w.positions
      {
        if !HasContent(w.clients, w.stack[i]) || w.stack[i] !in w.positions {
          return false;
        }
        assert w.stack[..i + 1] == w.stack[..i] + [w.stack[i]];
        i := i + 1;
      }
      assert w.stack[..i] == w.stack;
      faultless := forall k | k in w.positions :: k.connection in w.clients;
    }

    // ----- focus -----

    /** `send_to_keyboards`: every keyboard object a connection holds when the sending starts. */
    method SendToKeyboards(c: ConnectionId, kind: EventKind)
      requires Holds(w, None) && !Lifecycle(kind)
      modifies `w
      ensures Holds(w, None) && Cascaded(old(w), w)
      ensures AllTold(old(w), w, Keyboards(old(w).clients, c), kind)
    {
      ghost var before := w;
      var all := Keyboards(w.clients, c);
      var left := all;
      CascadedRefl(before);
      NobodyTold(before, kind);
      assert all - left == {};
      while left != {}
        invariant Holds(w, None) && Cascaded(before, w) && left <= all && AllTold(before, w, all - left, kind)
        decreases left
      {
        var k :| k in left;
        ghost var done := all - left;
        left := left - {k};
        ghost var last := w;
        Tell(k.connection, k.objectId, kind, None);
        CascadedTrans(before, last, w);
        AllToldNext(before, last, w, done, k, kind);
        assert all - left == done + {k};
      }
      assert all - left == all;
    }

    /** One side of a focus change: the surface told, and then every keyboard its connection has. */
    method TellFocus(k: SurfaceKey, surfaceEvent: EventKind, keyboardEvent: EventKind)
      requires Holds(w, None) && !Lifecycle(surfaceEvent) && !Lifecycle(keyboardEvent)
      modifies `w
      ensures Holds(w, None) && Cascaded(old(w), w)
      ensures FocusTold(old(w), k, surfaceEvent, keyboardEvent, w) && Told(old(w), w, Notice(k, surfaceEvent))
    {
      ghost var before := w;
      Tell(k.connection, k.objectId, surfaceEvent, None);
      ghost var told := w;
      SendToKeyboards(k.connection, keyboardEvent);
      FocusToldBy(before, k, surfaceEvent, keyboardEvent, told, w);
    }

    /** `refresh_composition`, between other changes. */
    method Recompose()
      requires Holds(w, None)
      modifies `w
      ensures Holds(w, None) && Recomposed(old(w), w)
    {
      ghost var before := w;
      HoldsReady(w, None);
      RefreshComposition();
      CascadedHolds(before, w, None);
    }

    /** `set_keyboard_focus`: the batch returned is always the leave before the enter. The focus
        ends where it was asked to be, on a live surface unless that surface's connection went
        while it was being told. */
    method SetKeyboardFocus(now: Option<SurfaceKey>) returns (e: Option<StateError>, changes: seq<FocusEvent>)
      requires Holds(w, None)
      modifies `w
      ensures Holds(w, None) && Onward(old(w), w)
      ensures e == if now.Some? then Focusable(old(w), now.value) else None
      ensures e.Some? || old(w).keyboardFocus == now ==> w == old(w) && changes == []
      ensures e.None? ==> FocusGiven(old(w), now, w)
      ensures e.None? && old(w).keyboardFocus != now ==>
                && changes == (if old(w).keyboardFocus.Some? then [Leave(old(w).keyboardFocus.value)] else [])
                              + (if now.Some? then [Enter(now.value)] else [])
                && (old(w).keyboardFocus.Some? ==> Told(old(w), w, Notice(old(w).keyboardFocus.value, KeyboardLeave)))
                && (now.Some? ==> Told(old(w), w, Notice(now.value, KeyboardEnter)))
      ensures e.None? ==> w.keyboardFocus == now || (now.Some? && w.keyboardFocus == None && now.value.connection !in w.clients)
      ensures e.None? && now.Some? && now.value.connection in w.clients ==>
                w.keyboardFocus == now && SurfaceOf(w.clients, now.value).Some?
    {
      ghost var before := w;
      OnwardRefl(w);
      changes := [];
      e := if now.Some? then Focusable(w, now.value) else None;
      if e.Some? || w.keyboardFocus == now {
        return;
      }
      ghost var left;
      changes, left := TellMove(now);
      ghost var told := w;
      ghost var settled := SettleFocus(now);
      RefocusedBy(before, now, left, told, settled, w);
      if before.keyboardFocus.Some? {
        ToldKept(before, told, w, Notice(before.keyboardFocus.value, KeyboardLeave));
      }
      if now.Some? {
        ToldKept(before, told, w, Notice(now.value, KeyboardEnter));
      }
      CascadedOnward(before, told);
      OnwardTrans(before, told, w);
    }

    /** Both sides of a move of the focus: the surface left is told, and then the one entered. */
    method TellMove(now: Option<SurfaceKey>) returns (changes: seq<FocusEvent>, ghost left: World)
      requires Holds(w, None) && (now.Some? ==> Focusable(w, now.value).None?)
      modifies `w
      ensures Holds(w, None) && Cascaded(old(w), w)
      ensures changes == (if old(w).keyboardFocus.Some? then [Leave(old(w).keyboardFocus.value)] else [])
                         + (if now.Some? then [Enter(now.value)] else [])
      ensures if old(w).keyboardFocus.Some?
              then && FocusTold(old(w), old(w).keyboardFocus.value, KeyboardLeave, KeyFocusLost, left)
                   && Told(old(w), w, Notice(old(w).keyboardFocus.value, KeyboardLeave))
              else left == old(w)
      ensures if now.Some?
              then && FocusTold(left, now.value, KeyboardEnter, KeyFocusGained, w)
                   && Told(old(w), w, Notice(now.value, KeyboardEnter))
                   && now.value.connection < w.nextConnection && FocusLive(w.clients, now.value)
              else w == left
    {
      ghost var before := w;
      changes := [];
      CascadedRefl(w);
      if w.keyboardFocus.Some? {
        changes := [Leave(w.keyboardFocus.value)];
        TellFocus(w.keyboardFocus.value, KeyboardLeave, KeyFocusLost);
      }
      left := w;
      CascadedRefl(w);
      if now.Some? {
        changes := changes + [Enter(now.value)];
        TellFocus(now.value, KeyboardEnter, KeyFocusGained);
        CascadedTrans(before, left, w);
        ToldSince(before, left, w, Notice(now.value, KeyboardEnter));
        FocusableStays(before, w, now.value);
      }
      if before.keyboardFocus.Some? {
        ToldKept(before, left, w, Notice(before.keyboardFocus.value, KeyboardLeave));
      }
    }

    /** The focus moved: text follows the keys, and shells are told which window holds them. */
    method SettleFocus(now: Option<SurfaceKey>) returns (ghost settled: World)
      requires Holds(w, None)
      requires now.Some? ==> now.value.connection < w.nextConnection && FocusLive(w.clients, now.value)
      modifies `w
      ensures Holds(w, None) && Onward(old(w), w) && Recomposed(Focused(old(w), now), settled)
      ensures ShellsTold(settled, w, ShellFocusChanged(if now.Some? then WindowOf(settled, now.value) else 0))
      ensures w.keyboardFocus == now || (now.Some? && w.keyboardFocus == None && now.value.connection !in w.clients)
      ensures now.Some? ==> FocusLive(w.clients, now.value)
      ensures w.clients.Keys <= old(w).clients.Keys && old(w).log <= w.log
    {
      ghost var before := w;
      FocusHolds(w, now, w.pointerTarget, None);
      w := Focused(w, now);
      FocusOnward(before, w);
      ghost var focused := w;
      Recompose();
      settled := w;
      TellAllShells(ShellFocusChanged(if now.Some? then WindowOf(w, now.value) else 0), None);
      CascadedTrans(focused, settled, w);
      CascadedOnward(focused, w);
      OnwardTrans(before, focused, w);
      CascadedLookups(focused, w);
      CascadedScene(focused, w);
    }

    // ----- text and shortcuts -----

    method EnableField(k: ObjectKey, composes: bool) returns (e: Option<StateError>)
      requires Holds(w, None)
      modifies `w
      ensures Holds(w, None) && Onward(old(w), w)
      ensures e == FieldRefused(old(w), k.connection, k.objectId)
      ensures if e.Some? then w == old(w) else Recomposed(WithField(old(w), k, composes), w)
      ensures |old(w).fields| <= MAX_TEXT_FIELDS ==> |w.fields| <= MAX_TEXT_FIELDS
    {
      ghost var before := w;
      OnwardRefl(w);
      e := FieldRefused(w, k.connection, k.objectId);
      if e.Some? {
        return;
      }
      FieldHolds(w, k, composes);
      NamesOnward(w, WithField(w, k, composes));
      w := WithField(w, k, composes);
      ghost var named := w;
      Recompose();
      FewerFields(named, w);
      CascadedOnward(named, w);
      OnwardTrans(before, named, w);
    }

    method DisableField(k: ObjectKey) returns (e: Option<StateError>)
      requires Holds(w, None)
      modifies `w
      ensures Holds(w, None) && Onward(old(w), w)
      ensures e == ExpectKind(old(w), k.connection, k.objectId, TextInput)
      ensures if e.Some? then w == old(w) else Recomposed(WithoutField(old(w), k), w) && k !in w.fields
    {
      ghost var before := w;
      OnwardRefl(w);
      e := ExpectKind(w, k.connection, k.objectId, TextInput);
      if e.Some? {
        return;
      }
      FieldHolds(w, k, true);
      NamesOnward(w, WithoutField(w, k));
      w := WithoutField(w, k);
      ghost var named := w;
      Recompose();
      CascadedFields(named, w);
      CascadedOnward(named, w);
      OnwardTrans(before, named, w);
    }

    /** `tell_field`: text of a composition that has ended is dropped. */
    method SendToField(k: ObjectKey, number: nat) returns (e: Option<StateError>)
      requires Holds(w, None)
      modifies `w
      ensures Holds(w, None) && Onward(old(w), w)
      ensures e == ExpectKind(old(w), k.connection, k.objectId, InputMethod)
      ensures if e.Some? then w == old(w) else TextSent(old(w), number, w)
    {
      ghost var before := w;
      OnwardRefl(w);
      e := ExpectKind(w, k.connection, k.objectId, InputMethod);
      if e.Some? || number != w.composition || w.composing.None? {
        return;
      }
      Tell(w.composing.value.connection, w.composing.value.input, Announcement, None);
      CascadedOnward(before, w);
    }

    /** `register_shortcut`: one holder for each chord, and the first keeps it. */
    method RegisterShortcut(k: ObjectKey, shortcut: nat, chord: Chord) returns (e: Option<StateError>)
      requires Holds(w, None)
      modifies `w
      ensures Holds(w, None) && Onward(old(w), w)
      ensures e == ClaimRefused(old(w), k.connection, k.objectId, chord)
      ensures w == if e.None? then WithClaim(old(w), chord, Claim(k.connection, k.objectId, shortcut)) else old(w)
      ensures forall other | other in old(w).shortcuts :: other in w.shortcuts && w.shortcuts[other] == old(w).shortcuts[other]
      ensures |old(w).shortcuts| <= MAX_SHORTCUTS ==> |w.shortcuts| <= MAX_SHORTCUTS
    {
      OnwardRefl(w);
      e := ClaimRefused(w, k.connection, k.objectId, chord);
      if e.None? {
        ClaimHolds(w, chord, Claim(k.connection, k.objectId, shortcut));
        NamesOnward(w, WithClaim(w, chord, Claim(k.connection, k.objectId, shortcut)));
        w := WithClaim(w, chord, Claim(k.connection, k.objectId, shortcut));
      }
    }

    method UnregisterShortcut(k: ObjectKey, shortcut: nat) returns (e: Option<StateError>)
      requires Holds(w, None)
      modifies `w
      ensures Holds(w, None) && Onward(old(w), w)
      ensures e == ExpectKind(old(w), k.connection, k.objectId, Shortcuts)
      ensures w == if e.None? then WithoutClaims(old(w), k.connection, shortcut) else old(w)
    {
      OnwardRefl(w);
      e := ExpectKind(w, k.connection, k.objectId, Shortcuts);
      if e.None? {
        WithoutClaimsHolds(w, k.connection, shortcut);
        NamesOnward(w, WithoutClaims(w, k.connection, shortcut));
        w := WithoutClaims(w, k.connection, shortcut);
      }
    }

    // ----- globals -----

    /** `bind_global`. Taking the input method comes before the identifier is asked for, and is not
        undone when that is refused. */
    method BindGlobal(c: ConnectionId, name: nat, version: nat, id: ObjectId) returns (e: Option<StateError>)
      requires Holds(w, None) && c in w.clients
      modifies `w
      ensures Holds(w, None) && Onward(old(w), w)
      ensures var r := Bind(name, version, id);
              && (Refusal(old(w), c, r).Some? ==> RefusedTo(old(w), c, r, w))
              && (Refusal(old(w), c, r).None? ==> GlobalBound(old(w), SurfaceKey(c, id), name, w))
              && e == if TakesMethod(old(w), c, r) && c !in w.clients then Some(ConnectionClosed) else Refusal(old(w), c, r)
      ensures BindRefused(old(w), c, name, version, id).Some? ==> w == old(w)
      ensures TakesMethod(old(w), c, Bind(name, version, id)) && c in w.clients ==> w.inputMethod == Some(SurfaceKey(c, id))
      ensures e.None? && c in w.clients ==> Lookup(w.clients, c, id) == Some(Bound(old(w).globals[name].kind))
    {
      ghost var before := w;
      OnwardRefl(w);
      e := BindRefused(w, c, name, version, id);
      if e.Some? {
        return;
      }
      GlobalsKnown(w);
      var kind := w.globals[name].kind;
      if kind.InputMethod? {
        e := BindMethod(SurfaceKey(c, id), name, version);
        return;
      }
      e := AllocateObject(c, id, Bound(kind));
      ghost var born := w;
      if e.None? {
        BornLookup(before, SurfaceKey(c, id), Bound(kind), c, id);
        if kind.ShellControlKind? {
          SnapshotForShell(SurfaceKey(c, id));
          CascadedOnward(born, w);
          CascadedLookups(born, w);
          OnwardTrans(before, born, w);
        }
      }
    }

    /** The input method's place is taken, whatever becomes of its identifier. */
    method BindMethod(k: ObjectKey, ghost name: nat, ghost version: nat) returns (e: Option<StateError>)
      requires Holds(w, None) && k.connection in w.clients
      requires TakesMethod(w, k.connection, Bind(name, version, k.objectId))
      modifies `w
      ensures Holds(w, None) && Onward(old(w), w)
      ensures var refused := AllocationRefused(old(w), k.connection, k.objectId);
              && (if refused.Some? then Recomposed(WithMethod(old(w), k), w) else MethodBound(old(w), k, w))
              && e == if k.connection !in w.clients then Some(ConnectionClosed) else refused
      ensures k.connection in w.clients ==> w.inputMethod == Some(k)
      ensures e.None? && k.connection in w.clients ==> Lookup(w.clients, k.connection, k.objectId) == Some(Plain(InputMethod))
    {
      ghost var before := w;
      TakeMethod(k);
      ghost var taken := w;
      CascadedRegistries(WithMethod(before, k), taken);
      AllocationDepends(before, taken, k.connection, k.objectId);
      e := AllocateObject(k.connection, k.objectId, Plain(InputMethod));
      OnwardTrans(before, taken, w);
      if e.None? {
        BornLookup(taken, k, Plain(InputMethod), k.connection, k.objectId);
      }
      if AllocationRefused(before, k.connection, k.objectId).None? {
        MethodBoundBy(before, k, taken, w);
      }
    }

    /** The one input method there may be; the field that was waiting for one is told. */
    method TakeMethod(k: ObjectKey)
      requires Holds(w, None) && k.connection in w.clients
      modifies `w
      ensures Holds(w, None) && Onward(old(w), w) && Recomposed(WithMethod(old(w), k), w)
    {
      ghost var before := w;
      MethodHolds(w, k);
      NamesOnward(w, WithMethod(w, k));
      w := WithMethod(w, k);
      ghost var named := w;
      Recompose();
      CascadedOnward(named, w);
      OnwardTrans(before, named, w);
    }

    /** `snapshot_for_shell`: every window by ascending handle, the focused one, and the boundary,
        exactly, unless the shell's queue fills up. */
    method SnapshotForShell(k: ObjectKey)
      requires Holds(w, None)
      modifies `w
      ensures Holds(w, None) && Cascaded(old(w), w)
      ensures k.connection in w.clients ==> w.log == old(w).log + SnapshotLog(old(w), k)
    {
      ghost var before := w;
      var records := ShellToplevels();
      TellWindows(k, records);
      ghost var listed := w;
      if k.connection in w.clients {
        ListedFocus(before, w, k, records);
      }
      Tell(k.connection, k.objectId, ShellFocusChanged(FocusedWindow(w)), None);
      CascadedTrans(before, listed, w);
      ghost var focused := w;
      Tell(k.connection, k.objectId, ShellSnapshotDone, None);
      CascadedTrans(before, focused, w);
    }

    method TellWindows(k: ObjectKey, records: seq<WindowRecord>)
      requires Holds(w, None)
      modifies `w
      ensures Holds(w, None) && Cascaded(old(w), w)
      ensures k.connection in w.clients ==> Listed(old(w), w, k, records)
    {
      ghost var before := w;
      CascadedRefl(w);
      var i := 0;
      while i < |records|
        invariant 0 <= i <= |records| && Holds(w, None) && Cascaded(before, w)
        invariant k.connection in w.clients ==> Listed(before, w, k, records[..i])
      {
        ghost var last := w;
        Tell(k.connection, k.objectId, ShellToplevel(records[i].handle), None);
        CascadedTrans(before, last, w);
        if k.connection in w.clients {
          ListedNext(before, last, k, records[..i], records[i]);
        }
        assert records[..i + 1] == records[..i] + [records[i]];
        i := i + 1;
      }
      assert records[..i] == records;
    }

    // ----- shells -----

    /** `shell_toplevels`: every window there is, exactly once, by ascending handle. */
    method ShellToplevels() returns (records: seq<WindowRecord>)
      requires Holds(w, None)
      ensures forall i, j | 0 <= i < j < |records| :: records[i].handle < records[j].handle
      ensures forall i | 0 <= i < |records| :: IsToplevel(w.clients, records[i].key)
                                               && HandleOf(w.clients, records[i].key) == records[i].handle
      ensures forall k | IsToplevel(w.clients, k) :: WindowRecord(HandleOf(w.clients, k), k) in records
      ensures forall i, j | 0 <= i < |records| && 0 <= j < |records| && records[i].key == records[j].key :: i == j
      ensures records == WindowsBelow(w.toplevels, w.nextHandle)
    {
      WindowsKnown(w);
      var windows := map h | h in w.toplevels && IsToplevel(w.clients, w.toplevels[h]) :: w.toplevels[h];
      assert windows == w.toplevels;
      records := ListWindows(windows, w.nextHandle);
      forall k | IsToplevel(w.clients, k) ensures WindowRecord(HandleOf(w.clients, k), k) in records {
        assert HandleOf(w.clients, k) in windows;
      }
    }

    method ShellPlaceWindow(c: ConnectionId, control: ObjectId, handle: nat, p: Point) returns (e: Option<StateError>)
      requires Holds(w, None)
      modifies `w
      ensures Holds(w, None) && Onward(old(w), w)
      ensures e == ArrangeRefused(old(w), c, control, handle)
      ensures w == if e.None? then Placed(old(w), ShellSurface(old(w), c, handle).value, p) else old(w)
    {
      OnwardRefl(w);
      var r := ShellSurface(w, c, handle);
      if r.Err? {
        return Some(ShellRefusal(r.error, control));
      }
      e := PlaceSurface(r.value, p);
      if e.Some? {
        e := Some(ShellRefusal(UnknownHandle, control));
      }
    }

    /** A raised window's surface is on top, if it shows anything; the same surfaces are stacked. */
    method ShellRaiseWindow(c: ConnectionId, control: ObjectId, handle: nat) returns (e: Option<StateError>)
      requires Holds(w, None)
      modifies `w
      ensures Holds(w, None) && Onward(old(w), w)
      ensures e == ArrangeRefused(old(w), c, control, handle)
      ensures w == if e.None? then RaiseAccepted(old(w), ShellSurface(old(w), c, handle).value) else old(w)
      ensures forall l :: l in w.stack <==> l in old(w).stack
      ensures e.None? && HasContent(w.clients, ShellSurface(old(w), c, handle).value) ==>
                |w.stack| > 0 && w.stack[|w.stack| - 1] == ShellSurface(old(w), c, handle).value
    {
      OnwardRefl(w);
      var r := ShellSurface(w, c, handle);
      if r.Err? {
        return Some(ShellRefusal(r.error, control));
      }
      e := RaiseSurface(r.value);
      if e.Some? {
        e := Some(ShellRefusal(UnknownHandle, control));
      }
    }

    /** A focused window's surface has the keyboard, or its connection went while it was told. */
    method ShellFocusWindow(c: ConnectionId, control: ObjectId, seat: nat, handle: nat) returns (e: Option<StateError>)
      requires Holds(w, None)
      modifies `w
      ensures Holds(w, None) && Onward(old(w), w)
      ensures e == ShellFocusRefused(old(w), c, control, seat, handle)
      ensures e.Some? ==> w == old(w)
      ensures e.None? ==> var k := ShellSurface(old(w), c, handle).value;
                          FocusGiven(old(w), Some(k), w) && (w.keyboardFocus == Some(k) || k.connection !in w.clients)
    {
      OnwardRefl(w);
      if seat != THE_SEAT {
        return Some(ShellRefusal(UnknownSeat, control));
      }
      var r := ShellSurface(w, c, handle);
      if r.Err? {
        return Some(ShellRefusal(r.error, control));
      }
      var changes;
      e, changes := SetKeyboardFocus(Some(r.value));
      if e.Some? {
        e := Some(ShellRefusal(UnknownHandle, control));
      }
    }

    /** A window is asked to close; whether it does is its client's affair. */
    method ShellCloseWindow(c: ConnectionId, control: ObjectId, handle: nat) returns (e: Option<StateError>)
      requires Holds(w, None)
      modifies `w
      ensures Holds(w, None) && Onward(old(w), w)
      ensures e == ShellCloseRefused(old(w), c, control, handle)
      ensures e.Some? ==> w == old(w)
      ensures e.None? ==> handle in old(w).toplevels && Sent(old(w), Notice(old(w).toplevels[handle], Close), w)
    {
      ghost var before := w;
      OnwardRefl(w);
      var r := ShellSurface(w, c, handle);
      if r.Err? {
        return Some(ShellRefusal(r.error, control));
      }
      var k := w.toplevels[handle];
      Tell(k.connection, k.objectId, Close, None);
      CascadedOnward(before, w);
      return None;
    }

    /** A title is announced to every shell, as the window now stands. */
    method SetTitle(k: ObjectKey) returns (e: Option<StateError>)
      requires Holds(w, None)
      modifies `w
      ensures Holds(w, None) && Onward(old(w), w)
      ensures e == ExpectKind(old(w), k.connection, k.objectId, Toplevel)
      ensures e.Some? ==> w == old(w)
      ensures e.None? ==> IsToplevel(old(w).clients, k) && ShellsTold(old(w), w, ShellToplevel(HandleOf(old(w).clients, k)))
    {
      ghost var before := w;
      OnwardRefl(w);
      e := ExpectKind(w, k.connection, k.objectId, Toplevel);
      if e.None? {
        TellAllShells(ShellToplevel(HandleOf(w.clients, k)), None);
        CascadedOnward(before, w);
      }
    }

    // ----- connections -----

    constructor (limits: Limits, queueLimit: nat, serverCapabilities: set<Capability>)
      ensures Holds(w, None) && w == Empty(queueLimit, limits)
      ensures this.serverCapabilities == serverCapabilities + DEFAULT_GRANTS
    {
      this.serverCapabilities := serverCapabilities + DEFAULT_GRANTS;
      w := Empty(queueLimit, limits);
      new;
      EmptyHolds(queueLimit, limits);
    }

    /** `connect`: what both sides have, unless it is not enough, there are too many connections or
        the numbers ran out. */
    method Connect(client: set<Capability>, required: set<Capability>) returns (r: Option<ConnectionId>)
      requires Holds(w, None)
      modifies `w
      ensures Holds(w, None) && Onward(old(w), w)
      ensures r.None? ==> w == old(w)
      ensures r.Some? <==> && required <= (serverCapabilities * client) + DEFAULT_GRANTS
                           && |old(w).clients| < old(w).limits.maxConnections && old(w).nextConnection != U64_MAX
      ensures r.Some? ==> && r.value == old(w).nextConnection && r.value !in old(w).clients
                          && w == Connected(old(w), (serverCapabilities * client) + DEFAULT_GRANTS,
                                            ((serverCapabilities * client) + DEFAULT_GRANTS) * (DEFAULT_GRANTS + BACKEND_FACTS))
    {
      var available := (serverCapabilities * client) + DEFAULT_GRANTS;
      OnwardRefl(w);
      if !(required <= available) || |w.clients| >= w.limits.maxConnections || w.nextConnection == U64_MAX {
        return None;
      }
      var granted := available * (DEFAULT_GRANTS + BACKEND_FACTS);
      FreshConnection(w);
      ConnectedHolds(w, available, granted);
      ConnectedOnward(w, available, granted);
      r := Some(w.nextConnection);
      w := Connected(w, available, granted);
    }

    /** `close_connection`, as a step: every object of the connection is listed once, newest
        first, and nothing names the connection any more. */
    method CloseStep(c: ConnectionId) returns (destroyed: seq<ObjectId>)
      requires Holds(w, None)
      modifies `w
      ensures Holds(w, None) && Moved(old(w), w, {}, {c}) && c !in w.clients
      ensures c !in old(w).clients ==> w == old(w) && destroyed == []
      ensures c in old(w).clients ==>
                && ClosedFrom(old(w), c, w)
                && NoDuplicates(destroyed) && NewestFirst(old(w).clients[c].registry.order, destroyed)
                && forall id :: id in destroyed <==> id in old(w).clients[c].registry.live
    {
      ghost var before := w;
      OnwardRefl(w);
      OnwardMoved(w, w, {}, {c});
      HoldsReady(w, None);
      if c in w.clients {
        ClosedReady(w, c);
        AllListed(w, c);
      }
      destroyed := CloseConnection(c);
      if c in before.clients {
        CloseHolds(before, c, w);
      }
    }

    method Grant(c: ConnectionId, given: Capability) returns (e: Option<StateError>)
      requires Holds(w, None)
      modifies `w
      ensures Holds(w, None) && Onward(old(w), w)
      ensures e.None? <==> c in old(w).clients && given in old(w).clients[c].available
      ensures w == if e.None? then WithGrants(old(w), c, old(w).clients[c].capabilities + {given}, old(w).clients[c].session)
                   else old(w)
    {
      OnwardRefl(w);
      if c !in w.clients {
        return Some(ConnectionClosed);
      }
      if given !in w.clients[c].available {
        return Some(UnsupportedCapability(DISPLAY_ID));
      }
      GrantsHold(w, c, w.clients[c].capabilities + {given}, w.clients[c].session);
      GrantsView(w, c, w.clients[c].capabilities + {given}, w.clients[c].session);
      w := WithGrants(w, c, w.clients[c].capabilities + {given}, w.clients[c].session);
      return None;
    }

    /** `revoke_capability`: the grant gone, the revocation queued, and then every object that needs
        the grant destroyed, newest first, with what each takes with it. None is left. */
    method Revoke(c: ConnectionId, taken: Capability) returns (e: Option<StateError>)
      requires Holds(w, None)
      modifies `w
      ensures Holds(w, None) && Moved(old(w), w, DoomedGrants(old(w), c, taken), {})
      ensures e.None? <==> c in old(w).clients
      ensures if e.None? then Revoked(old(w), c, taken, w) else w == old(w)
      ensures c in w.clients ==> c in old(w).clients && w.clients[c].capabilities == old(w).clients[c].capabilities - {taken}
      ensures forall id :: !NeedsGrant(w.clients, c, id, taken)
      ensures e.None? && taken.BufferImport? ==> forall k | k in w.stack && k.connection == c :: Hollow(w, k)
    {
      ghost var before := w;
      ghost var doomed := DoomedGrants(w, c, taken);
      OnwardRefl(w);
      OnwardMoved(w, w, doomed, {});
      if c !in w.clients {
        return Some(ConnectionClosed);
      }
      GrantsHold(w, c, w.clients[c].capabilities - {taken}, w.clients[c].session);
      GrantsView(w, c, w.clients[c].capabilities - {taken}, w.clients[c].session);
      w := WithoutGrant(w, c, taken);
      ghost var revoked := w;
      Tell(c, DISPLAY_ID, CapabilityRevoked(taken), None);
      ghost var told := w;
      CascadedOnward(revoked, told);
      OnwardTrans(before, revoked, told);
      ghost var f := DestroyGranted(c, taken);
      RevokedBy(before, c, taken, told, f, w);
      RevocationMoved(before, c, taken, told, f, w);
      NoneNeeds(told, w, c, taken, f);
      if taken.BufferImport? {
        NothingToShow(w, c);
      }
      return None;
    }

    method DestroyGranted(c: ConnectionId, taken: Capability) returns (ghost f: Fate)
      requires Holds(w, None)
      modifies `w
      ensures Holds(w, None) && Reduced(old(w), w, f) && Takes(old(w).clients, c, taken, f)
    {
      ghost var before := w;
      ReducedRefl(w);
      f := Nothing();
      if c !in w.clients {
        return;
      }
      var order := w.clients[c].registry.order;
      AllListed(w, c);
      var n := |order|;
      while n > 0
        invariant 0 <= n <= |order| && Holds(w, None) && Reduced(before, w, f)
        invariant TakesOnly(before.clients, c, taken, f)
        invariant forall id | id in order[n..] && NeedsGrant(before.clients, c, id, taken) ::
                    SurfaceKey(c, id) in f.falls + f.dropped
      {
        n := n - 1;
        ghost var last, was := w, f;
        var k := SurfaceKey(c, order[n]);
        ghost var g := DestroyIfGranted(k, taken);
        ReducedTrans(before, last, w, f, g);
        TakesMore(before, last, c, taken, f, k);
        f := Both(f, g);
        if NeedsGrant(before.clients, c, k.objectId, taken) && k !in f.falls + f.dropped {
          StayingNeeds(before, last, was, k, taken);
          ReducedClients(last, w, g);
          GoneFalls(before, w, f, {k});
          TakesGone(before.clients, c, taken, f, k);
          f := Both(f, Falling({k}));
        }
        assert order[n..] == [order[n]] + order[n + 1..];
      }
      assert order[n..] == order;
    }

    method DestroyIfGranted(k: ObjectKey, taken: Capability) returns (ghost g: Fate)
      requires Holds(w, None)
      modifies `w
      ensures Holds(w, None) && Reduced(old(w), w, g)
      ensures g == if NeedsGrant(old(w).clients, k.connection, k.objectId, taken) then FateOf(old(w).clients, k) else Nothing()
    {
      g := if NeedsGrant(w.clients, k.connection, k.objectId, taken) then FateOf(w.clients, k) else Nothing();
      ReducedRefl(w);
      if NeedsGrant(w.clients, k.connection, k.objectId, taken) {
        DestroyObject(k);
      }
    }

    // ----- objects created by the platform -----

    method CreateSeat(k: ObjectKey, active: bool) returns (e: Option<StateError>)
      requires Holds(w, None)
      modifies `w
      ensures Holds(w, None) && Onward(old(w), w)
      ensures e == AllocationRefused(old(w), k.connection, k.objectId)
      ensures e.Some? ==> w == old(w)
      ensures e.None? ==> w == Born(old(w), k, SeatObject(active))
    {
      e := AllocateObject(k.connection, k.objectId, SeatObject(active));
    }

    /** `create_session`: one for each connection. */
    method CreateSession(k: ObjectKey, seat: Option<ObjectId>, active: bool) returns (e: Option<StateError>)
      requires Holds(w, None)
      modifies `w
      ensures Holds(w, None) && Onward(old(w), w)
      ensures e == SessionRefused(old(w), k.connection, k.objectId, seat)
      ensures e.Some? ==> w == old(w)
      ensures e.None? ==> && k.connection in old(w).clients
                          && w == WithGrants(Born(old(w), k, SessionObject(seat, active)), k.connection,
                                             old(w).clients[k.connection].capabilities, Some(k.objectId))
      ensures e.None? ==> && k.connection in old(w).clients && old(w).clients[k.connection].session.None?
                          && k.connection in w.clients && w.clients[k.connection].session == Some(k.objectId)
                          && Lookup(w.clients, k.connection, k.objectId) == Some(SessionObject(seat, active))
    {
      ghost var before := w;
      OnwardRefl(w);
      if seat.Some? {
        e := ExpectKind(w, k.connection, seat.value, Seat);
        if e.Some? {
          return;
        }
      }
      if k.connection !in w.clients {
        return Some(ConnectionClosed);
      }
      if w.clients[k.connection].session.Some? {
        return Some(InvalidState(k.objectId));
      }
      e := AllocateObject(k.connection, k.objectId, SessionObject(seat, active));
      if e.None? {
        ghost var born := w;
        GrantsHold(w, k.connection, w.clients[k.connection].capabilities, Some(k.objectId));
        GrantsView(w, k.connection, w.clients[k.connection].capabilities, Some(k.objectId));
        w := WithGrants(w, k.connection, w.clients[k.connection].capabilities, Some(k.objectId));
        OnwardTrans(before, born, w);
      }
    }

    method CreateFence(k: ObjectKey) returns (e: Option<StateError>)
      requires Holds(w, None)
      modifies `w
      ensures Holds(w, None) && Onward(old(w), w)
      ensures e == FenceRefused(old(w), k.connection, k.objectId)
      ensures e.Some? ==> w == old(w)
      ensures e.None? ==> && k.connection in old(w).clients && ExplicitGpuFence in old(w).clients[k.connection].capabilities
                          && w == Born(old(w), k, FenceObject(false))
    {
      OnwardRefl(w);
      e := RequireCapability(w, k.connection, k.objectId, ExplicitGpuFence);
      if e.None? {
        e := AllocateObject(k.connection, k.objectId, FenceObject(false));
      }
    }

    /** `set_session_active`: a session put to sleep loses the focus. */
    method SetSessionActive(k: ObjectKey, active: bool) returns (e: Option<StateError>)
      requires Holds(w, None)
      modifies `w
      ensures Holds(w, None) && Onward(old(w), w)
      ensures e == ExpectKind(old(w), k.connection, k.objectId, Session)
      ensures if e.Some? then w == old(w) else Woken(old(w), k, active, w)
      ensures e.None? && !active ==> !FocusedIn(w, w.keyboardFocus, k) && !FocusedIn(w, w.pointerTarget, k)
    {
      ghost var before := w;
      OnwardRefl(w);
      e := ExpectKind(w, k.connection, k.objectId, Session);
      if e.Some? {
        return;
      }
      var o := Lookup(w.clients, k.connection, k.objectId).value.(sessionActive := active);
      StatusHolds(w, k, o);
      PutOnward(w, k, o);
      w := Put(w, k, o);
      ghost var told := w;
      if !active {
        ghost var put := w;
        told := LoseFocus(k);
        OnwardTrans(before, put, w);
      }
      WokenBy(before, k, active, told, w);
    }

    method LoseFocus(k: ObjectKey) returns (ghost told: World)
      requires Holds(w, None)
      modifies `w
      ensures Holds(w, None) && Onward(old(w), w) && Dozes(old(w), k, told, w)
      ensures !FocusedIn(w, w.keyboardFocus, k) && !FocusedIn(w, w.pointerTarget, k)
    {
      ghost var before := w;
      var held := FocusedIn(w, w.keyboardFocus, k);
      CascadedRefl(w);
      if held {
        Tell(w.keyboardFocus.value.connection, w.keyboardFocus.value.objectId, KeyboardLeave, None);
      }
      told := w;
      CascadedScene(before, told);
      CascadedLookups(before, told);
      CascadedOnward(before, told);
      var keyboard := if held then None else w.keyboardFocus;
      var pointer := if FocusedIn(w, w.pointerTarget, k) then None else w.pointerTarget;
      FocusHolds(w, keyboard, pointer, None);
      w := w.(keyboardFocus := keyboard, pointerTarget := pointer);
      FocusOnward(told, w);
      OnwardTrans(before, told, w);
    }

    // ----- draining -----

    /** `take_events_for`: one connection's events, in the order they were queued; everyone else's
        stay, in theirs. */
    method TakeEventsFor(c: ConnectionId) returns (mine: seq<Event>)
      requires Holds(w, None)
      modifies `w
      ensures Holds(w, None) && Onward(old(w), w) && w == TakenFor(old(w), c)
      ensures mine == EventsFor(old(w).events, c)
    {
      mine := [];
      var theirs: seq<Event> := [];
      var i := 0;
      while i < |w.events|
        invariant 0 <= i <= |w.events|
        invariant mine == EventsFor(w.events[..i], c) && theirs == Others(w.events[..i], c)
      {
        assert w.events[..i + 1][..i] == w.events[..i];
        if w.events[i].connection == c {
          mine := mine + [w.events[i]];
        } else {
          theirs := theirs + [w.events[i]];
        }
        i := i + 1;
      }
      assert w.events[..i] == w.events;
      TakenForHolds(w, c);
      TakenForView(w, c);
      w := w.(events := theirs, drained := w.drained + mine,
              clients := if c in w.clients then w.clients[c := w.clients[c].(pendingEvents := 0)] else w.clients);
    }

    /** `take_events`. */
    method TakeEvents() returns (all: seq<Event>)
      requires Holds(w, None)
      modifies `w
      ensures Holds(w, None) && Onward(old(w), w) && w == TakenAll(old(w))
      ensures all == old(w).events
    {
      all := w.events;
      TakenAllHolds(w);
      TakenAllView(w);
      w := TakenAll(w);
    }

    // ----- what is offered -----

    /** `advertise_global`: a name nothing has had before. Kinds no interface has are not offered. */
    method Advertise(kind: Kind, version: nat) returns (name: Option<nat>)
      requires Holds(w, None) && BindableKind(kind)
      modifies `w
      ensures Holds(w, None) && Onward(old(w), w)
      ensures name.None? <==> kind.InputStream? || old(w).nextGlobal >= U32_MAX
      ensures name.None? ==> w == old(w)
      ensures name.Some? ==> name.value !in old(w).globals && name.value == old(w).nextGlobal < w.nextGlobal
                             && w == Offered(old(w), kind, version)
    {
      OnwardRefl(w);
      if kind.InputStream? || w.nextGlobal >= U32_MAX {
        return None;
      }
      OfferedHolds(w, kind, version);
      name := Some(w.nextGlobal);
      w := Offered(w, kind, version);
    }

    /** `withdraw_global`: every registry is told, and what was bound from it stays. */
    method Withdraw(name: nat) returns (withdrawn: bool)
      requires Holds(w, None)
      modifies `w
      ensures Holds(w, None) && Onward(old(w), w)
      ensures withdrawn <==> name in old(w).globals
      ensures if withdrawn then Cascaded(NoLongerOffered(old(w), name), w) else w == old(w)
      ensures withdrawn ==> AllTold(old(w), w, Registries(old(w).clients), GlobalWithdrawn(name))
    {
      ghost var before := w;
      OnwardRefl(w);
      if name !in w.globals {
        return false;
      }
      NoLongerOfferedHolds(w, name);
      w := NoLongerOffered(w, name);
      ghost var offered := w;
      TellRegistries(GlobalWithdrawn(name));
      CascadedOnward(offered, w);
      OnwardTrans(before, offered, w);
      AllToldSince(before, offered, w, Registries(before.clients), GlobalWithdrawn(name));
      return true;
    }

    method TellRegistries(kind: EventKind)
      requires Holds(w, None) && !Lifecycle(kind)
      modifies `w
      ensures Holds(w, None) && Cascaded(old(w), w) && AllTold(old(w), w, Registries(old(w).clients), kind)
    {
      ghost var before := w;
      var all := Registries(w.clients);
      var left := all;
      CascadedRefl(before);
      NobodyTold(before, kind);
      assert all - left == {};
      while left != {}
        invariant Holds(w, None) && Cascaded(before, w) && left <= all && AllTold(before, w, all - left, kind)
        decreases left
      {
        var k :| k in left;
        ghost var done := all - left;
        left := left - {k};
        ghost var last := w;
        Tell(k.connection, k.objectId, kind, None);
        CascadedTrans(before, last, w);
        AllToldNext(before, last, w, done, k, kind);
        assert all - left == done + {k};
      }
      assert all - left == all;
    }

    /** A registry, and then every global announced to it. */
    method CreateRegistry(c: ConnectionId, id: ObjectId) returns (e: Option<StateError>)
      requires Holds(w, None)
      modifies `w
      ensures Holds(w, None) && Onward(old(w), w)
      ensures e == AllocationRefused(old(w), c, id)
      ensures if e.Some? then w == old(w) else RegistryBorn(old(w), SurfaceKey(c, id), w)
    {
      ghost var before := w;
      e := AllocateObject(c, id, Plain(Kind.Registry));
      if e.None? {
        ghost var born := w;
        AnnounceGlobals(SurfaceKey(c, id));
        CascadedOnward(born, w);
        OnwardTrans(before, born, w);
      }
    }

    /** `announce_globals`: every name on offer, to one registry. */
    method AnnounceGlobals(k: ObjectKey)
      requires Holds(w, None)
      modifies `w
      ensures Holds(w, None) && Cascaded(old(w), w) && GlobalsTold(old(w), w, k, old(w).globals.Keys)
    {
      ghost var before := w;
      var all := w.globals.Keys;
      var left := all;
      CascadedRefl(before);
      while left != {}
        invariant Holds(w, None) && Cascaded(before, w) && left <= all && GlobalsTold(before, w, k, all - left)
        decreases left
      {
        var name :| name in left;
        ghost var done := all - left;
        left := left - {name};
        ghost var last := w;
        Tell(k.connection, k.objectId, GlobalOffered(name), None);
        CascadedTrans(before, last, w);
        GlobalsNext(before, last, w, k, done, name);
        assert all - left == done + {name};
      }
      assert all - left == all;
    }

    // ----- dispatch -----

    method Creates(c: ConnectionId, r: Request) returns (e: Option<StateError>)
      requires Holds(w, None) && c in w.clients
      requires r.GetPointer? || r.GetKeyboard? || r.CreateRegistry? || r.Bind? || r.CreatePool? || r.CreateSurface?
               || r.CreateBuffer? || r.ImportBuffer? || r.GetToplevel?
      modifies `w
      ensures Holds(w, None) && Onward(old(w), w) && Answered(old(w), c, r, e, w)
    {
      ghost var before := w;
      match r {
        case GetPointer(seat, id) =>
          e := CreatePlain(c, id, Pointer, ExpectKind(w, c, seat, Seat));
          SeatAnswered(before, c, r, e, w);
        case GetKeyboard(seat, id) =>
          e := CreatePlain(c, id, Keyboard, ExpectKind(w, c, seat, Seat));
          SeatAnswered(before, c, r, e, w);
        case CreateRegistry(id) =>
          e := CreateRegistry(c, id);
          RegistryAnswered(before, c, id, e, w);
        case Bind(name, version, id) =>
          e := BindGlobal(c, name, version, id);
          BindAnswered(before, c, r, e, w);
        case CreatePool(id) =>
          e := CreatePlain(c, id, ShmPool, PoolRefused(w, c, id));
          PoolAnswered(before, c, id, e, w);
        case CreateSurface(id) =>
          e := CreateSurface(c, id);
          SurfaceAnswered(before, c, id, e, w);
        case CreateBuffer(id, pool, fits) =>
          e := CreateAvailable(c, id, SoftwareShm, CarveRefused(w, c, id, pool, fits));
          BufferAnswered(before, c, r, SoftwareShm, e, w);
        case ImportBuffer(id, transport, wellFormed) =>
          e := CreateAvailable(c, id, transport, ImportRefused(w, c, id, transport, wellFormed));
          BufferAnswered(before, c, r, transport, e, w);
        case GetToplevel(surface, id) =>
          e := GetToplevel(c, surface, id);
          ToplevelAnswered(before, c, surface, id, e, w);
      }
    }

    method Draws(c: ConnectionId, r: Request) returns (e: Option<StateError>)
      requires Holds(w, None) && c in w.clients
      requires r.Attach? || r.Commit? || r.RequestFrame? || r.SetTitle? || r.EnableText? || r.DisableText? || r.SendText?
               || r.RegisterShortcut? || r.UnregisterShortcut?
      modifies `w
      ensures Holds(w, None) && Onward(old(w), w) && Answered(old(w), c, r, e, w)
    {
      ghost var before := w;
      match r {
        case Attach(surface, buffer, offset, fence) =>
          e := AttachBuffer(SurfaceKey(c, surface), buffer, offset, fence);
          AttachAnswered(before, c, r, e, w);
        case Commit(surface) =>
          e := CommitSurface(SurfaceKey(c, surface));
          CommitAnswered(before, c, surface, e, w);
        case RequestFrame(surface) =>
          e := AskForFrame(SurfaceKey(c, surface));
          FrameAnswered(before, c, surface, e, w);
        case SetTitle(toplevel) =>
          e := SetTitle(SurfaceKey(c, toplevel));
          TitleAnswered(before, c, toplevel, e, w);
        case EnableText(input, composes) =>
          e := EnableField(SurfaceKey(c, input), composes);
          TextAnswered(before, c, r, e, w);
        case DisableText(input) =>
          e := DisableField(SurfaceKey(c, input));
          TextAnswered(before, c, r, e, w);
        case SendText(composer, number) =>
          e := SendToField(SurfaceKey(c, composer), number);
          TextAnswered(before, c, r, e, w);
        case RegisterShortcut(manager, shortcut, chord) =>
          e := RegisterShortcut(SurfaceKey(c, manager), shortcut, chord);
          ShortcutAnswered(before, c, r, e, w);
        case UnregisterShortcut(manager, shortcut) =>
          e := UnregisterShortcut(SurfaceKey(c, manager), shortcut);
          ShortcutAnswered(before, c, r, e, w);
      }
    }

    method Arranges(c: ConnectionId, r: Request) returns (e: Option<StateError>)
      requires Holds(w, None) && c in w.clients
      requires r.ShellPlace? || r.ShellRaise? || r.ShellFocus? || r.ShellClose?
      modifies `w
      ensures Holds(w, None) && Onward(old(w), w) && Answered(old(w), c, r, e, w)
    {
      ghost var before := w;
      match r {
        case ShellPlace(control, handle, p) =>
          e := ShellPlaceWindow(c, control, handle, p);
          ArrangeAnswered(before, c, r, e, w);
        case ShellRaise(control, handle) =>
          e := ShellRaiseWindow(c, control, handle);
          ArrangeAnswered(before, c, r, e, w);
        case ShellFocus(control, seat, handle) =>
          e := ShellFocusWindow(c, control, seat, handle);
          FocusAnswered(before, c, r, e, w);
        case ShellClose(control, handle) =>
          e := ShellCloseWindow(c, control, handle);
          CloseAnswered(before, c, r, e, w);
      }
    }

    /** The destroy request: not the display, and not a buffer somebody has. */
    method DestroyRequest(k: ObjectKey) returns (e: Option<StateError>)
      requires Holds(w, None)
      modifies `w
      ensures Holds(w, None)
      ensures e == DestroyRefused(old(w), k.connection, k.objectId)
      ensures if e.Some? then w == old(w) else DestroyedBy(old(w), k, w)
      ensures (e.None? && Lone(old(w).clients, k)
               && old(w).clients[k.connection].pendingEvents + 2 <= old(w).limit) ==>
                k.connection in w.clients
    {
      if k.objectId == DISPLAY_ID {
        return Some(InvalidState(k.objectId));
      }
      e := ExpectAny(w, k.connection, k.objectId);
      if e.Some? {
        return;
      }
      if LiveBuffer(w.clients, k.connection, k.objectId)
         && !Lookup(w.clients, k.connection, k.objectId).value.held.Available? {
        return Some(InvalidState(k.objectId));
      }
      DestroyObject(k);
    }

    /** `dispatch_checked`: refused exactly as the state it finds says, unless the client's own queue
        overflows on the way; what it does is what `Answered` says, and only a destroy request takes
        content away. */
    method DispatchChecked(c: ConnectionId, r: Request) returns (e: Option<StateError>)
      requires Holds(w, None) && c in w.clients
      modifies `w
      ensures Holds(w, None) && Answered(old(w), c, r, e, w)
      ensures if r.Destroy? && e.None? then Moved(old(w), w, {SurfaceKey(c, r.target)}, {}) else Onward(old(w), w)
      ensures (r.Destroy? && e.None? && Lone(old(w).clients, SurfaceKey(c, r.target))
               && old(w).clients[c].pendingEvents + 2 <= old(w).limit) ==>
                c in w.clients
    {
      ghost var before := w;
      OnwardRefl(w);
      if r.Destroy? {
        e := DestroyRequest(SurfaceKey(c, r.target));
        DestroyAnswered(before, c, r, e, w);
        if e.None? {
          DestroyedMoved(before, SurfaceKey(c, r.target), w);
        }
      } else if r.Unknown? {
        e := ExpectAny(w, c, r.target);
        e := if e.Some? then e else Some(UnknownOpcode(r.target));
        DestroyAnswered(before, c, r, e, w);
      } else if r.ShellPlace? || r.ShellRaise? || r.ShellFocus? || r.ShellClose? {
        e := Arranges(c, r);
      } else if r.Attach? || r.Commit? || r.RequestFrame? || r.SetTitle? || r.EnableText? || r.DisableText? || r.SendText?
                || r.RegisterShortcut? || r.UnregisterShortcut? {
        e := Draws(c, r);
      } else {
        e := Creates(c, r);
      }
    }

    /** `dispatch`: an accepted request has its effect; a failed one is reported, where a protocol error
        takes the connection, an object error the object, and a refused resource neither. What stacked
        surfaces lose is decided by the state before: what they show is destroyed by the request or by
        its refusal. Whoever else goes had a full queue. */
    method Dispatch(c: ConnectionId, r: Request) returns (e: Option<StateError>)
      requires Holds(w, None)
      modifies `w
      ensures Holds(w, None) && Moved(old(w), w, DoomedBy(old(w), c, r), ClosedBy(old(w), c, r))
      ensures AskDid(old(w), c, r, w)
      ensures c !in old(w).clients ==> e == Some(ConnectionClosed) && w == old(w)
      ensures c in old(w).clients ==>
                e == Refusal(old(w), c, r) || (MayClose(old(w), c, r) && e == Some(ConnectionClosed) && c !in w.clients)
      ensures c in old(w).clients && Quiet(r) && Refusal(old(w), c, r).None? && Accepted(old(w), c, r).Some? ==>
                e.None? && w == Accepted(old(w), c, r).value
      ensures r.Destroy? && e.None? ==> DestroyedBy(old(w), SurfaceKey(c, r.target), w)
      ensures c in old(w).clients && e.Some? ==> Told(old(w), w, ErrorNotice(c, e.value))
      ensures e.Some? && CategoryOf(e.value) == Protocol ==> c !in w.clients
      ensures c in old(w).clients && e.Some? && CategoryOf(e.value) == ObjectError ==>
                DestroyedBy(old(w), SurfaceKey(c, ErrorObject(e.value)), w)
      ensures (e.Some? && CategoryOf(e.value) == ObjectError && Lone(old(w).clients, SurfaceKey(c, ErrorObject(e.value)))
               && old(w).clients[c].pendingEvents + 3 <= old(w).limit) ==>
                c in w.clients
      ensures (r.Destroy? && e.None? && Lone(old(w).clients, SurfaceKey(c, r.target))
               && old(w).clients[c].pendingEvents + 2 <= old(w).limit) ==>
                c in w.clients
    {
      ghost var before := w;
      OnwardRefl(w);
      OnwardMoved(w, w, DoomedBy(w, c, r), ClosedBy(w, c, r));
      if c !in w.clients {
        return Some(ConnectionClosed);
      }
      e := DispatchChecked(c, r);
      if e.Some? {
        ReportRefused(before, c, r, e.value);
      } else {
        AnsweredOpen(before, c, r, e, w);
        AcceptedDid(before, c, r, w);
        if !r.Destroy? {
          OnwardMoved(before, w, DoomedBy(before, c, r), ClosedBy(before, c, r));
        }
      }
    }

    /** The failed request, reported. */
    method ReportRefused(ghost before: World, c: ConnectionId, r: Request, e: StateError)
      requires Holds(before, None) && Holds(w, None) && Answered(before, c, r, Some(e), w) && Onward(before, w)
      modifies `w
      ensures Holds(w, None) && Moved(before, w, DoomedBy(before, c, r), ClosedBy(before, c, r))
      ensures c in before.clients && AskDid(before, c, r, w) && Told(before, w, ErrorNotice(c, e))
      ensures Some(e) == Refusal(before, c, r) || (MayClose(before, c, r) && e == ConnectionClosed && c !in w.clients)
      ensures !(Quiet(r) && Refusal(before, c, r).None? && Accepted(before, c, r).Some?)
      ensures CategoryOf(e) == Protocol ==> c !in w.clients
      ensures CategoryOf(e) == ObjectError ==> DestroyedBy(before, SurfaceKey(c, ErrorObject(e)), w)
      ensures (CategoryOf(e) == ObjectError && Lone(before.clients, SurfaceKey(c, ErrorObject(e)))
               && before.clients[c].pendingEvents + 3 <= before.limit) ==>
                c in w.clients
    {
      ghost var refused := w;
      AnsweredOpen(before, c, r, Some(e), w);
      OnwardLog(before, w);
      Report(c, e);
      RefusedMoved(before, c, r, e, refused, w);
      RefusedDid(before, c, r, e, refused, w);
      ToldSince(before, refused, w, ErrorNotice(c, e));
      if CategoryOf(e) == ObjectError {
        ObjectErrorRefused(before, c, r, e, refused);
      }
    }

    /** What a failed request costs. */
    method Report(c: ConnectionId, e: StateError)
      requires Holds(w, None)
      modifies `w
      ensures Holds(w, None) && Reported(old(w), c, e, w) && Told(old(w), w, ErrorNotice(c, e))
      ensures old(w).log <= w.log
      ensures CategoryOf(e) == Protocol ==> Moved(old(w), w, {}, {c}) && c !in w.clients
      ensures CategoryOf(e) == ObjectError ==> DestroyedBy(old(w), SurfaceKey(c, ErrorObject(e)), w) || c !in old(w).clients
      ensures CategoryOf(e) == ObjectError ==> Moved(old(w), w, {SurfaceKey(c, ErrorObject(e))}, {})
      ensures CategoryOf(e) == Resource ==> Sent(old(w), ErrorNotice(c, e), w)
      ensures (CategoryOf(e) == ObjectError && Lone(old(w).clients, SurfaceKey(c, ErrorObject(e)))
               && old(w).clients[c].pendingEvents + 3 <= old(w).limit) ==>
                c in w.clients
    {
      ghost var before := w;
      Tell(c, ErrorObject(e), ErrorEvent(e), None);
      ghost var told := w;
      match CategoryOf(e) {
        case Protocol =>
          var destroyed := CloseStep(c);
          ReportedBy(before, c, e, told, w);
          ProtocolMoved(before, c, told, w);
          ToldGone(before, w, ErrorNotice(c, e));
        case ObjectError =>
          DestroyObject(SurfaceKey(c, ErrorObject(e)));
          ReportedBy(before, c, e, told, w);
          ReducedClients(told, w, FateOf(told.clients, SurfaceKey(c, ErrorObject(e))));
          ToldKept(before, told, w, ErrorNotice(c, e));
          DestroyedMoved(told, SurfaceKey(c, ErrorObject(e)), w);
          ObjectMoved(before, told, w, SurfaceKey(c, ErrorObject(e)));
          if c in before.clients {
            ToldThenDestroyed(before, ErrorNotice(c, e), SurfaceKey(c, ErrorObject(e)), told, w);
          }
        case Resource =>
          ReportedBy(before, c, e, told, w);
      }
    }

    /** A shown buffer nobody has is destroyed at its client's request, and its surface is left stacked
        with nothing to show. */
    method DestroyShown(k: SurfaceKey, b: ObjectId) returns (e: Option<StateError>)
      requires Holds(w, None) && b != DISPLAY_ID && LiveBuffer(w.clients, k.connection, b)
      requires Lookup(w.clients, k.connection, b).value.held.Available?
      requires ShowsBuffer(w.clients, k, SurfaceKey(k.connection, b))
      requires w.clients[k.connection].pendingEvents + 2 <= w.limit
      modifies `w
      ensures e.None? && Refusal(old(w), k.connection, Destroy(b)).None?
      ensures Holds(w, None) && DestroyedBy(old(w), SurfaceKey(k.connection, b), w) && Hollow(w, k)
    {
      ghost var before := w;
      AllStacked(before);
      assert Refusal(w, k.connection, Destroy(b)).None?;
      e := Dispatch(k.connection, Destroy(b));
      assert e.None?;
      DestroyedShown(before, SurfaceKey(k.connection, b), w);
    }

    /** A way into a scene fault with every request accepted: what a surface shows is released by the
        compositor and then destroyed by its client. */
    method ReleasedThenDestroyed(k: SurfaceKey) returns (released: Option<StateError>, destroyed: Option<StateError>)
      requires Holds(w, None) && HasContent(w.clients, k)
      requires var b := SurfaceOf(w.clients, k).value.current.value.buffer;
               && b != DISPLAY_ID && LiveBuffer(w.clients, k.connection, b)
               && Lookup(w.clients, k.connection, b).value.held.CompositorHeld?
      requires w.clients[k.connection].pendingEvents + 3 <= w.limit
      modifies `w
      ensures released.None? && destroyed.None?
      ensures Holds(w, None) && Hollow(w, k)
    {
      var b := SurfaceOf(w.clients, k).value.current.value.buffer;
      ReleasedStillShown(w, k, SurfaceKey(k.connection, b));
      released := ReleaseBuffer(SurfaceKey(k.connection, b));
      destroyed := DestroyShown(k, b);
    }

    // ----- runs -----

    /** One step of the compositor. Operations that only queue an event are the step `Tells`. Its
        effect is what `Did` says; a stacked surface has nothing to show afterwards only if it had
        nothing before, or showed a buffer this step destroys; and a connection goes only if this step
        closes it or its queue was full. */
    method Perform(step: Step)
      requires Holds(w, None)
      modifies `w
      ensures Holds(w, None) && Stepped(old(w), step, w) && Did(serverCapabilities, old(w), step, w)
    {
      ghost var before := w;
      if step.Asks? {
        var e := Dispatch(step.client, step.request);
        AskStepped(before, step, w);
        AskDone(serverCapabilities, before, step, w);
      } else if step.Revokes? {
        var e := Revoke(step.client, step.capability);
        RevokeStepped(before, step, w);
        RevokeDone(serverCapabilities, before, step, w);
      } else if step.Leaves? {
        var destroyed := CloseStep(step.client);
        LeaveStepped(before, step, w);
        AttendDone(serverCapabilities, before, step, w);
      } else {
        Proceeds(step);
        OtherStepped(before, step, w);
      }
    }

    /** Steps that destroy no buffer and close nobody. */
    method Proceeds(step: Step)
      requires Holds(w, None) && !step.Asks? && !step.Revokes? && !step.Leaves?
      modifies `w
      ensures Holds(w, None) && Onward(old(w), w) && Did(serverCapabilities, old(w), step, w)
    {
      ghost var before := w;
      if step.Arrive? || step.Grants? || step.Drains? || step.DrainsFor? || step.Advertises? || step.Withdraws? {
        Attends(step);
        AttendDone(serverCapabilities, before, step, w);
      } else if step.Seats? || step.Sessions? || step.Fences? || step.Signals? || step.Wakes? {
        Provides(step);
        ProvideDone(serverCapabilities, before, step, w);
      } else {
        Shows(step);
        ShowDone(serverCapabilities, before, step, w);
      }
    }

    /** Connections, grants, draining, and what is offered. */
    method Attends(step: Step)
      requires Holds(w, None)
      requires step.Arrive? || step.Grants? || step.Drains? || step.DrainsFor? || step.Advertises? || step.Withdraws?
      modifies `w
      ensures Holds(w, None) && Onward(old(w), w) && AttendDid(serverCapabilities, old(w), step, w)
    {
      if step.Arrive? || step.Grants? {
        Admits(step);
      } else {
        Serves(step);
      }
    }

    method Admits(step: Step)
      requires Holds(w, None) && (step.Arrive? || step.Grants?)
      modifies `w
      ensures Holds(w, None) && Onward(old(w), w) && AttendDid(serverCapabilities, old(w), step, w)
    {
      match step {
        case Arrive(client, required) => var r := Connect(client, required);
        case Grants(c, given) => var e := Grant(c, given);
      }
    }

    method Serves(step: Step)
      requires Holds(w, None) && (step.Drains? || step.DrainsFor? || step.Advertises? || step.Withdraws?)
      modifies `w
      ensures Holds(w, None) && Onward(old(w), w) && AttendDid(serverCapabilities, old(w), step, w)
    {
      OnwardRefl(w);
      match step {
        case Drains => var all := TakeEvents();
        case DrainsFor(c) => var mine := TakeEventsFor(c);
        case Withdraws(name) => var withdrawn := Withdraw(name);
        case Advertises(offered, version) =>
          if BindableKind(offered) {
            var name := Advertise(offered, version);
          }
      }
    }

    /** The scene, the focus and presentation. */
    method Shows(step: Step)
      requires Holds(w, None)
      requires step.Presents? || step.Releases? || step.Places? || step.Raises? || step.Focuses? || step.Points? || step.Tells?
      modifies `w
      ensures Holds(w, None) && Onward(old(w), w) && ShowDid(old(w), step, w)
    {
      if step.Presents? || step.Releases? || step.Tells? {
        Returns(step);
      } else if step.Places? || step.Raises? {
        Stacks(step);
      } else {
        Aims(step);
      }
    }

    method Returns(step: Step)
      requires Holds(w, None) && (step.Presents? || step.Releases? || step.Tells?)
      modifies `w
      ensures Holds(w, None) && Onward(old(w), w) && ShowDid(old(w), step, w)
    {
      ghost var before := w;
      match step {
        case Presents(k) => var r := Present(k);
        case Releases(b) => var e := ReleaseBuffer(b);
        case Tells(c, id) => Tell(c, id, Announcement, None); CascadedOnward(before, w);
      }
    }

    method Stacks(step: Step)
      requires Holds(w, None) && (step.Places? || step.Raises?)
      modifies `w
      ensures Holds(w, None) && Onward(old(w), w) && ShowDid(old(w), step, w)
    {
      ghost var before := w;
      match step {
        case Places(k, p) =>
          var e := PlaceSurface(k, p);
          PlaceDid(before, step, e, w);
        case Raises(k) =>
          var e := RaiseSurface(k);
          RaiseDid(before, step, e, w);
      }
    }

    method Aims(step: Step)
      requires Holds(w, None) && (step.Focuses? || step.Points?)
      modifies `w
      ensures Holds(w, None) && Onward(old(w), w) && ShowDid(old(w), step, w)
    {
      match step {
        case Focuses(now) => var e, changes := SetKeyboardFocus(now);
        case Points(sizes, at) => UpdatePointerTarget(sizes, at);
      }
    }

    /** What the platform creates and changes. */
    method Provides(step: Step)
      requires Holds(w, None)
      requires step.Seats? || step.Sessions? || step.Fences? || step.Signals? || step.Wakes?
      modifies `w
      ensures Holds(w, None) && Onward(old(w), w) && ProvideDid(old(w), step, w)
    {
      if step.Seats? || step.Sessions? || step.Fences? {
        Equips(step);
      } else {
        Changes(step);
      }
    }

    method Equips(step: Step)
      requires Holds(w, None) && (step.Seats? || step.Sessions? || step.Fences?)
      modifies `w
      ensures Holds(w, None) && Onward(old(w), w) && ProvideDid(old(w), step, w)
    {
      match step {
        case Seats(k, active) => var e := CreateSeat(k, active);
        case Sessions(k, seat, active) => var e := CreateSession(k, seat, active);
        case Fences(k) => var e := CreateFence(k);
      }
    }

    method Changes(step: Step)
      requires Holds(w, None) && (step.Signals? || step.Wakes?)
      modifies `w
      ensures Holds(w, None) && Onward(old(w), w) && ProvideDid(old(w), step, w)
    {
      ghost var before := w;
      match step {
        case Signals(k) =>
          var e := SignalFence(k);
          assert e.None? <==> LiveFence(before.clients, k.connection, k.objectId);
        case Wakes(k, active) =>
          var e := SetSessionActive(k, active);
          assert e.None? <==> IsSession(before.clients, k.connection, k.objectId);
      }
    }

    /** Whatever steps are taken, in whatever order, everything still holds after each, and the scene
        has no fault at the end exactly when every stacked surface shows something. One that shows
        nothing had nothing at the start or lost it at a step that destroyed the buffer it showed,
        and has shown nothing since. */
    method Run(steps: seq<Step>) returns (faultless: bool, ghost worlds: seq<World>)
      requires Holds(w, None)
      modifies `w
      ensures AllSound(w, None) && Grown(old(w), w)
      ensures Passed(serverCapabilities, worlds, steps) && worlds[0] == old(w) && worlds[|steps|] == w
      ensures faultless <==> forall k :: !Hollow(w, k)
      ensures forall k | Hollow(w, k) :: exists i :: EmptySince(worlds, steps, k, i)
    {
      ghost var before := w;
      worlds := Proceed(steps);
      HoldsIffAllSound(w, None);
      PassedGrown(serverCapabilities, worlds, steps, 0, |steps|);
      LostOnTheWay(serverCapabilities, worlds, steps);
      faultless := SceneFaults();
    }

    /** The steps, one after another. */
    method Proceed(steps: seq<Step>) returns (ghost worlds: seq<World>)
      requires Holds(w, None)
      modifies `w
      ensures Holds(w, None) && Passed(serverCapabilities, worlds, steps) && worlds[0] == old(w) && worlds[|steps|] == w
    {
      worlds := [w];
      var i := 0;
      while i < |steps|
        invariant 0 <= i <= |steps| && Passed(serverCapabilities, worlds, steps[..i]) && worlds[i] == w && worlds[0] == old(w)
        invariant Holds(w, None)
      {
        Perform(steps[i]);
        WentIff(serverCapabilities, worlds[i], steps[i], w);
        PassedOne(serverCapabilities, worlds, steps[..i], w, steps[i]);
        assert steps[..i + 1] == steps[..i] + [steps[i]];
        worlds := worlds + [w];
        i := i + 1;
      }
      assert steps[..i] == steps;
    }
  }

  /** The error that says why, first among what was queued. */
  ghost predicate OverflowTold(w: World, v: World, c: ConnectionId)
    requires c in w.clients
  {
    |w.log| < |v.log| && v.log[|w.log|] == Queued(Event(c, DISPLAY_ID, QueueOverflow(w.clients[c].pendingEvents)))
  }
}
