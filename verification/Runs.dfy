/** Runs of the compositor: what every step does, and what holds over any number of them. */
module Runs {
  import opened Basics
  import opened Model
  import opened World
  import opened Cascade
  import opened Destruction
  import opened Requests
  import opened Effects

  // ----- one step -----

  lemma AskDone(server: set<Capability>, w: World, step: Step, v: World)
    requires step.Asks? && AskDid(w, step.client, step.request, v)
    ensures Did(server, w, step, v)
  {
  }

  lemma RevokeDone(server: set<Capability>, w: World, step: Step, v: World)
    requires step.Revokes?
    requires if step.client in w.clients then Revoked(w, step.client, step.capability, v) else v == w
    ensures Did(server, w, step, v)
  {
  }

  lemma AttendDone(server: set<Capability>, w: World, step: Step, v: World)
    requires step.Arrive? || step.Leaves? || step.Grants? || step.Drains? || step.DrainsFor? || step.Advertises?
             || step.Withdraws?
    requires AttendDid(server, w, step, v)
    ensures Did(server, w, step, v)
  {
  }

  lemma ShowDone(server: set<Capability>, w: World, step: Step, v: World)
    requires step.Presents? || step.Releases? || step.Places? || step.Raises? || step.Focuses? || step.Points? || step.Tells?
    requires ShowDid(w, step, v)
    ensures Did(server, w, step, v)
  {
  }

  lemma ProvideDone(server: set<Capability>, w: World, step: Step, v: World)
    requires (step.Seats? || step.Sessions? || step.Fences? || step.Signals? || step.Wakes?) && ProvideDid(w, step, v)
    ensures Did(server, w, step, v)
  {
  }

  /** What a step may take: a stacked surface has nothing to show afterwards only if it had nothing
      before, or showed a buffer the step destroys; and a connection goes only if the step closes it or
      its queue was full. Folded in the same way as `Holds`. */
  ghost predicate Stepped(w: World, step: Step, v: World) {
    forall key: Key | Opened(key) :: Moved(w, v, Doomed(w, step), Closing(w, step))
  }

  lemma AskStepped(w: World, step: Step, v: World)
    requires step.Asks? && Moved(w, v, DoomedBy(w, step.client, step.request), ClosedBy(w, step.client, step.request))
    ensures Stepped(w, step, v)
  {
  }

  lemma RevokeStepped(w: World, step: Step, v: World)
    requires step.Revokes? && Moved(w, v, DoomedGrants(w, step.client, step.capability), {})
    ensures Stepped(w, step, v)
  {
  }

  lemma LeaveStepped(w: World, step: Step, v: World)
    requires step.Leaves? && Moved(w, v, {}, {step.client})
    ensures Stepped(w, step, v)
  {
  }

  lemma OtherStepped(w: World, step: Step, v: World)
    requires Onward(w, v)
    ensures Stepped(w, step, v)
  {
    OnwardMoved(w, v, Doomed(w, step), Closing(w, step));
  }

  // ----- runs -----

  /** One step of a run: what it did, and what it took. Folded. */
  ghost predicate Went(server: set<Capability>, w: World, step: Step, v: World) {
    forall key: Key | Opened(key) :: Stepped(w, step, v) && Did(server, w, step, v)
  }

  lemma WentIff(server: set<Capability>, w: World, step: Step, v: World)
    ensures Went(server, w, step, v) <==> Stepped(w, step, v) && Did(server, w, step, v)
  {
    Unlock();
  }

  ghost function SoundWorlds(): (sound: World -> bool) {
    w => Holds(w, None)
  }

  ghost function Goings(server: set<Capability>): (goes: (World, Step, World) -> bool) {
    (w, step, v) => Went(server, w, step, v)
  }

  /** A run as the states between its steps: all hold between steps, and every step did what it does.
      Folded, but for its length. */
  ghost predicate Passed(server: set<Capability>, worlds: seq<World>, steps: seq<Step>) {
    && |worlds| == |steps| + 1
    && forall key: Key | Opened(key) :: Chain(worlds, steps, SoundWorlds(), Goings(server))
  }

  lemma PassedOpen(server: set<Capability>, worlds: seq<World>, steps: seq<Step>, i: nat)
    requires Passed(server, worlds, steps) && i <= |steps|
    ensures Holds(worlds[i], None)
    ensures i < |steps| ==> Went(server, worlds[i], steps[i], worlds[i + 1])
  {
    Unlock();
    assert SoundWorlds()(worlds[i]);
    if i < |steps| {
      assert Goings(server)(worlds[i], steps[i], worlds[i + 1]);
    }
  }

  lemma StepOpen(w: World, step: Step, v: World)
    requires Stepped(w, step, v)
    ensures Grown(w, v) && LostOnly(w, v, Doomed(w, step)) && OnlyFull(w, v, Closing(w, step))
  {
    Unlock();
  }

  lemma PassedStep(server: set<Capability>, worlds: seq<World>, steps: seq<Step>, i: nat)
    requires Passed(server, worlds, steps) && i <= |steps|
    ensures Holds(worlds[i], None)
    ensures i < |steps| ==>
              && Grown(worlds[i], worlds[i + 1]) && LostOnly(worlds[i], worlds[i + 1], Doomed(worlds[i], steps[i]))
              && OnlyFull(worlds[i], worlds[i + 1], Closing(worlds[i], steps[i]))
  {
    PassedOpen(server, worlds, steps, i);
    if i < |steps| {
      WentIff(server, worlds[i], steps[i], worlds[i + 1]);
      StepOpen(worlds[i], steps[i], worlds[i + 1]);
    }
  }

  lemma PassedOne(server: set<Capability>, worlds: seq<World>, steps: seq<Step>, w: World, step: Step)
    requires Passed(server, worlds, steps) && Holds(w, None) && Went(server, worlds[|steps|], step, w)
    ensures Passed(server, worlds + [w], steps + [step])
  {
    Unlock();
    ChainOne(worlds, steps, SoundWorlds(), Goings(server), w, step);
  }

  /** Over any stretch of a run the counters and histories only grow, and a connection, a window's
      handle or a global's name that was issued and is gone is never there again. */
  lemma {:induction false} PassedGrown(server: set<Capability>, worlds: seq<World>, steps: seq<Step>, i: nat, j: nat)
    requires Passed(server, worlds, steps) && i <= j <= |steps|
    ensures Grown(worlds[i], worlds[j])
    decreases j
  {
    if i < j {
      PassedGrown(server, worlds, steps, i, j - 1);
      PassedStep(server, worlds, steps, j - 1);
      GrownTrans(worlds[i], worlds[j - 1], worlds[j]);
    }
  }

  /** What is gone stays gone: no number is issued twice. */
  lemma NeverReissued(server: set<Capability>, worlds: seq<World>, steps: seq<Step>, h: nat, i: nat, j: nat, k: nat)
    requires Passed(server, worlds, steps) && i <= j <= k <= |steps|
    ensures h in worlds[i].clients && h !in worlds[j].clients ==> h !in worlds[k].clients
    ensures h in worlds[i].toplevels && h !in worlds[j].toplevels ==> h !in worlds[k].toplevels
    ensures h in worlds[i].globals && h !in worlds[j].globals ==> h !in worlds[k].globals
    ensures h in worlds[i].toplevels && h in worlds[k].toplevels ==> worlds[k].toplevels[h] == worlds[i].toplevels[h]
  {
    PassedGrown(server, worlds, steps, i, j);
    PassedGrown(server, worlds, steps, j, k);
    PassedGrown(server, worlds, steps, i, k);
    PassedStep(server, worlds, steps, i);
    IssuedBefore(worlds[i], h);
  }

  /** A stacked surface has had nothing to show since a point of the run: its start, or a step that
      destroyed the buffer it showed. */
  ghost predicate EmptySince(worlds: seq<World>, steps: seq<Step>, k: SurfaceKey, i: nat) {
    && i <= |steps| < |worlds|
    && (forall j | i <= j <= |steps| :: Hollow(worlds[j], k))
    && (i > 0 ==> !Hollow(worlds[i - 1], k) && Loses(worlds[i - 1], steps[i - 1], k))
  }

  lemma Empties(server: set<Capability>, w: World, step: Step, v: World, k: SurfaceKey)
    requires Went(server, w, step, v) && Hollow(v, k) && !Hollow(w, k)
    ensures Loses(w, step, k)
  {
    WentIff(server, w, step, v);
    StepOpen(w, step, v);
  }

  lemma {:induction false} EmptyFrom(server: set<Capability>, worlds: seq<World>, steps: seq<Step>, k: SurfaceKey, n: nat)
    requires Passed(server, worlds, steps) && n <= |steps| && forall j | n <= j <= |steps| :: Hollow(worlds[j], k)
    ensures exists i :: EmptySince(worlds, steps, k, i)
  {
    if n == 0 {
      assert EmptySince(worlds, steps, k, 0);
    } else if Hollow(worlds[n - 1], k) {
      EmptyFrom(server, worlds, steps, k, n - 1);
    } else {
      PassedOpen(server, worlds, steps, n - 1);
      assert Hollow(worlds[n], k);
      Empties(server, worlds[n - 1], steps[n - 1], worlds[n], k);
      assert EmptySince(worlds, steps, k, n);
    }
  }

  lemma LostOnTheWay(server: set<Capability>, worlds: seq<World>, steps: seq<Step>)
    requires Passed(server, worlds, steps)
    ensures forall k | Hollow(worlds[|steps|], k) :: exists i :: EmptySince(worlds, steps, k, i)
  {
    forall k | Hollow(worlds[|steps|], k) ensures exists i :: EmptySince(worlds, steps, k, i) {
      EmptyFrom(server, worlds, steps, k, |steps|);
    }
  }

  /** At this step a connection went: the step closes it, or its queue was found full. */
  ghost predicate WentAt(worlds: seq<World>, steps: seq<Step>, c: ConnectionId, i: nat) {
    && i < |steps| < |worlds| && c in worlds[i].clients && c !in worlds[i + 1].clients
    && (c in Closing(worlds[i], steps[i]) || Overran(worlds[i], worlds[i + 1], c))
  }

  lemma Departs(server: set<Capability>, w: World, step: Step, v: World, c: ConnectionId)
    requires Went(server, w, step, v) && c in w.clients && c !in v.clients
    ensures c in Closing(w, step) || Overran(w, v, c)
  {
    WentIff(server, w, step, v);
    StepOpen(w, step, v);
  }

  /** Whoever was there and is gone left of its own accord, broke the protocol, or had stopped reading. */
  lemma {:induction false} DepartureExplained(server: set<Capability>, worlds: seq<World>, steps: seq<Step>, c: ConnectionId,
                                              i: nat, j: nat)
    requires Passed(server, worlds, steps) && i <= j <= |steps| && c in worlds[i].clients && c !in worlds[j].clients
    ensures exists n :: i <= n < j && WentAt(worlds, steps, c, n)
    decreases j
  {
    if c in worlds[j - 1].clients {
      PassedOpen(server, worlds, steps, j - 1);
      Departs(server, worlds[j - 1], steps[j - 1], worlds[j], c);
      assert WentAt(worlds, steps, c, j - 1);
    } else {
      DepartureExplained(server, worlds, steps, c, i, j - 1);
    }
  }
}
