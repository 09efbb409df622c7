/** One seat's routing: which keys are down and which a shortcut swallowed, where the pointer is,
    what holds it, and who is told. What the rest of the compositor decides (claimed chords, the
    focus, the surface under a point) comes in as arguments, because queueing an event can change
    those and never changes the seat. */
module Input {
  import opened Basics
  import opened Geometry
  import opened Model
  import opened World

  const MAX_HELD_KEYS := 32

  const LEFT_CONTROL := 0xE0
  const LEFT_SHIFT := 0xE1
  const LEFT_ALT := 0xE2
  const LEFT_META := 0xE3
  const RIGHT_CONTROL := 0xE4
  const RIGHT_SHIFT := 0xE5
  const RIGHT_ALT := 0xE6
  const RIGHT_META := 0xE7

  function ModifierOf(key: u32): Option<Modifier> {
    if key == LEFT_CONTROL || key == RIGHT_CONTROL then Some(Control)
    else if key == LEFT_SHIFT || key == RIGHT_SHIFT then Some(Shift)
    else if key == LEFT_ALT || key == RIGHT_ALT then Some(Alt)
    else if key == LEFT_META || key == RIGHT_META then Some(Meta)
    else None
  }

  /** The modifier a key is, if it is one. */
  function BitsOf(key: u32): set<Modifier> {
    if ModifierOf(key).Some? then {ModifierOf(key).value} else {}
  }

  predicate Accepts(chord: Chord, held: set<Modifier>) {
    if chord.exact then held == chord.modifiers else chord.modifiers <= held
  }

  predicate Completes(chord: Chord, key: u32, held: set<Modifier>) {
    chord.seat == THE_SEAT && chord.trigger == key && Accepts(chord, held)
  }

  /** A key completes a claimed chord. Folded: a proof that needs what is inside says `Unlock`. */
  ghost predicate IsClaimed(shortcuts: map<Chord, Claim>, key: u32, held: set<Modifier>) {
    forall lock: Key | Opened(lock) :: exists chord :: chord in shortcuts && Completes(chord, key, held)
  }

  /** Somebody claimed a chord on this key whose every modifier is held. */
  ghost predicate HeldFor(shortcuts: map<Chord, Claim>, key: u32, held: set<Modifier>) {
    exists chord :: chord in shortcuts && chord.seat == 1 && chord.trigger == key && forall m | m in chord.modifiers :: m in held
  }

  /** Somebody claimed an exact chord on this key whose modifiers are those held and no others. */
  ghost predicate HeldExactly(shortcuts: map<Chord, Claim>, key: u32, held: set<Modifier>) {
    exists chord :: && chord in shortcuts && chord.seat == 1 && chord.trigger == key && chord.exact
                    && forall m :: m in chord.modifiers <==> m in held
  }

  /** A claim on a chord on this key, which has its modifiers held, and just those if it is exact. */
  ghost predicate ClaimBy(shortcuts: map<Chord, Claim>, key: u32, held: set<Modifier>, claim: Claim) {
    exists chord :: && chord in shortcuts && chord.seat == 1 && chord.trigger == key && shortcuts[chord] == claim
                    && (forall m | m in chord.modifiers :: m in held)
                    && (chord.exact ==> forall m | m in held :: m in chord.modifiers)
  }

  /** No chord on this key that somebody claimed is exact, or none is not. */
  predicate NoneExact(shortcuts: map<Chord, Claim>, key: u32) {
    forall chord | chord in shortcuts && chord.trigger == key :: !chord.exact
  }

  predicate AllExact(shortcuts: map<Chord, Claim>, key: u32) {
    forall chord | chord in shortcuts && chord.trigger == key :: chord.exact
  }

  /** Where no claim on a key is exact, a press is claimed exactly when some claim has all its modifiers
      held; where all are, exactly when one has just the modifiers held; and never unless some claim has
      all its modifiers held. */
  lemma ClaimedIff(shortcuts: map<Chord, Claim>, key: u32, held: set<Modifier>)
    ensures NoneExact(shortcuts, key) ==> (IsClaimed(shortcuts, key, held) <==> HeldFor(shortcuts, key, held))
    ensures AllExact(shortcuts, key) ==> (IsClaimed(shortcuts, key, held) <==> HeldExactly(shortcuts, key, held))
    ensures IsClaimed(shortcuts, key, held) ==> HeldFor(shortcuts, key, held)
    ensures HeldExactly(shortcuts, key, held) ==> IsClaimed(shortcuts, key, held)
  {
    Unlock();
  }

  /** Holding more never stops a chord that is not exact, and stops an exact one. */
  lemma HoldingMore(shortcuts: map<Chord, Claim>, key: u32, fewer: set<Modifier>, more: set<Modifier>)
    requires IsClaimed(shortcuts, key, fewer) && fewer < more
    ensures NoneExact(shortcuts, key) ==> IsClaimed(shortcuts, key, more)
    ensures forall chord | shortcuts.Keys == {chord} && chord.exact :: !IsClaimed(shortcuts, key, more)
  {
    ClaimedIff(shortcuts, key, fewer);
    ClaimedIff(shortcuts, key, more);
  }

  /** The keys that are modifiers, by their positions in the keyboard page of the HID usage tables. */
  lemma ModifierPositions(key: u32)
    ensures ModifierOf(key) == Some(Control) <==> key == 0xE0 || key == 0xE4
    ensures ModifierOf(key) == Some(Shift) <==> key == 0xE1 || key == 0xE5
    ensures ModifierOf(key) == Some(Alt) <==> key == 0xE2 || key == 0xE6
    ensures ModifierOf(key) == Some(Meta) <==> key == 0xE3 || key == 0xE7
  {
  }

  // ----- what happened to keys -----

  datatype KeyNote = Down(key: u32, swallowed: bool) | Up(key: u32, swallowed: bool) | Reset

  /** Whether a key is down, and if so whether a shortcut swallowed its press. */
  function DownAs(log: seq<KeyNote>, key: u32): Option<bool> {
    if log == [] then None
    else
      match log[|log| - 1]
      case Down(k, swallowed) => if k == key then Some(swallowed) else DownAs(log[..|log| - 1], key)
      case Up(k, _) => if k == key then None else DownAs(log[..|log| - 1], key)
      case Reset => None
  }

  /** A press of a key that is up, or a release swallowed exactly when the press it ends was. */
  predicate Matches(log: seq<KeyNote>, n: KeyNote) {
    match n
    case Down(k, _) => DownAs(log, k) == None
    case Up(k, swallowed) => DownAs(log, k) == Some(swallowed)
    case Reset => true
  }

  /** Presses and releases alternate for each key, and a release is swallowed exactly when the
      press it ends was. */
  ghost predicate Paired(log: seq<KeyNote>) {
    forall i | 0 <= i < |log| :: Matches(log[..i], log[i])
  }

  function DownNext(was: Option<bool>, n: KeyNote, key: u32): Option<bool> {
    match n
    case Down(k, swallowed) => if k == key then Some(swallowed) else was
    case Up(k, _) => if k == key then None else was
    case Reset => None
  }

  lemma PairedOne(log: seq<KeyNote>, n: KeyNote)
    requires Paired(log) && Matches(log, n)
    ensures Paired(log + [n])
    ensures forall key: u32 :: DownAs(log + [n], key) == DownNext(DownAs(log, key), n, key)
  {
    var more := log + [n];
    assert more[..|log|] == log;
    forall i | 0 <= i < |more| ensures Matches(more[..i], more[i]) {
      if i < |log| {
        assert more[..i] == log[..i] && more[i] == log[i];
      }
    }
  }

  /** Presses and releases pair up, and by them these keys are down and these swallowed. Folded. */
  ghost predicate Keyed(log: seq<KeyNote>, held: set<u32>, consumed: set<u32>) {
    forall key: Key | Opened(key) ::
      Paired(log) && forall k: u32 :: DownAs(log, k) == if k in held then Some(k in consumed) else None
  }

  lemma KeyedOne(log: seq<KeyNote>, held: set<u32>, consumed: set<u32>, n: KeyNote)
    requires Keyed(log, held, consumed)
    ensures n.Down? && n.key !in held && n.key !in consumed ==>
              Keyed(log + [n], held + {n.key}, if n.swallowed then consumed + {n.key} else consumed)
    ensures n.Up? && n.key in held && n.swallowed == (n.key in consumed) ==>
              Keyed(log + [n], held - {n.key}, consumed - {n.key})
    ensures n.Reset? ==> Keyed(log + [n], {}, {})
  {
    Unlock();
    if Matches(log, n) {
      PairedOne(log, n);
    }
  }

  /** Every modifier set is backed by a key that is down. Folded. */
  ghost predicate Backed(modifiers: set<Modifier>, held: set<u32>) {
    forall key: Key | Opened(key) :: forall m | m in modifiers :: exists k: u32 :: k in held && ModifierOf(k) == Some(m)
  }

  lemma BackedIff(modifiers: set<Modifier>, held: set<u32>)
    ensures Backed(modifiers, held) <==> forall m | m in modifiers :: exists k: u32 :: k in held && ModifierOf(k) == Some(m)
  {
    Unlock();
  }

  // ----- what happened to the pointer -----

  datatype PointerNote =
    | EnterNote(surface: SurfaceKey)
    | LeaveNote(surface: SurfaceKey)
    | MotionNote(surface: SurfaceKey)
    | ButtonNote(surface: SurfaceKey, pressed: bool)
    | InteractionNote(surface: SurfaceKey)
    | GrabStart(shell: ObjectKey)
    | GrabMotion(shell: ObjectKey)
    | GrabEnd(shell: ObjectKey)

  predicate ToClient(n: PointerNote) {
    n.EnterNote? || n.LeaveNote? || n.MotionNote? || n.ButtonNote?
  }

  /** The shell holding the pointer, going by what was sent. */
  function GrabAt(log: seq<PointerNote>): Option<ObjectKey> {
    if log == [] then None
    else
      match log[|log| - 1]
      case GrabStart(s) => Some(s)
      case GrabEnd(_) => None
      case _ => GrabAt(log[..|log| - 1])
  }

  /** How many presses a surface was told of and not yet of their release, going by what was sent.
      A surface the pointer left has none. The count saturates, as the seat's does. */
  function Outstanding(log: seq<PointerNote>, k: SurfaceKey): nat {
    if log == [] then 0 else OutstandingNext(Outstanding(log[..|log| - 1], k), log[|log| - 1], k)
  }

  function OutstandingNext(was: nat, n: PointerNote, k: SurfaceKey): nat {
    if n == ButtonNote(k, true) then OneMore(was)
    else if n == ButtonNote(k, false) then OneLess(was)
    else if n == LeaveNote(k) then 0
    else was
  }

  function OneMore(n: nat): nat {
    if n < U32_MAX then n + 1 else n
  }

  function OneLess(n: nat): nat {
    if n > 0 then n - 1 else 0
  }

  /** A release told to a surface that has no press left to end. */
  predicate UnpairedAt(log: seq<PointerNote>, i: nat)
    requires i < |log|
  {
    log[i].ButtonNote? && !log[i].pressed && Outstanding(log[..i], log[i].surface) == 0
  }

  ghost predicate UnpairedBetween(log: seq<PointerNote>, first: nat, last: nat)
    requires last <= |log|
  {
    exists i :: first <= i < last && UnpairedAt(log, i)
  }

  /** What was told before does not depend on what is told after. */
  lemma UnpairedLater(log: seq<PointerNote>, more: seq<PointerNote>, first: nat, last: nat)
    requires log <= more && last <= |log|
    ensures UnpairedBetween(log, first, last) <==> UnpairedBetween(more, first, last)
  {
    forall i | 0 <= i < |log| ensures UnpairedAt(log, i) <==> UnpairedAt(more, i) {
      assert more[..i] == log[..i];
    }
  }

  /** Notes that tell of no release leave none unpaired; one release is unpaired when nothing is
      outstanding. */
  lemma QuietTail(log: seq<PointerNote>, more: seq<PointerNote>)
    requires log <= more && forall i | |log| <= i < |more| :: !(more[i].ButtonNote? && !more[i].pressed)
    ensures !UnpairedBetween(more, |log|, |more|)
  {
  }

  lemma ReleaseTail(log: seq<PointerNote>, k: SurfaceKey, rest: seq<PointerNote>)
    requires forall i | 0 <= i < |rest| :: !rest[i].ButtonNote?
    ensures var more := log + [ButtonNote(k, false)] + rest;
            UnpairedBetween(more, |log|, |more|) <==> Outstanding(log, k) == 0
  {
    var more := log + [ButtonNote(k, false)] + rest;
    assert more[|log|] == ButtonNote(k, false) && more[..|log|] == log;
    assert UnpairedAt(more, |log|) <==> Outstanding(log, k) == 0;
    forall i | |log| < i < |more| ensures !UnpairedAt(more, i) {
      assert more[i] == rest[i - |log| - 1];
    }
  }

  /** The outstanding presses are this many, all of one surface. Folded: a proof that needs what is
      inside says `Unlock`. */
  ghost predicate Tallied(log: seq<PointerNote>, on: Option<SurfaceKey>, held: nat) {
    forall key: Key | Opened(key) :: forall k :: Outstanding(log, k) == if on == Some(k) then held else 0
  }

  lemma TalliedOne(log: seq<PointerNote>, on: Option<SurfaceKey>, held: nat, n: PointerNote)
    requires Tallied(log, on, held)
    ensures !n.ButtonNote? && !n.LeaveNote? ==> Tallied(log + [n], on, held)
    ensures n.ButtonNote? && on == Some(n.surface) ==> Tallied(log + [n], on, if n.pressed then OneMore(held) else OneLess(held))
    ensures n.LeaveNote? && on == Some(n.surface) ==> Tallied(log + [n], None, held)
  {
    Unlock();
    assert (log + [n])[..|log|] == log;
    forall k ensures Outstanding(log + [n], k) == OutstandingNext(Outstanding(log, k), n, k) {
    }
  }

  /** Without outstanding presses it does not matter whose they would be. */
  lemma TalliedNone(log: seq<PointerNote>, on: Option<SurfaceKey>, held: nat, other: Option<SurfaceKey>, count: nat)
    requires Tallied(log, on, held) && (on.None? || held == 0) && (other.None? || count == 0)
    ensures Tallied(log, other, count)
  {
    Unlock();
  }

  lemma TalliedIs(log: seq<PointerNote>, k: SurfaceKey, held: nat)
    requires Tallied(log, Some(k), held)
    ensures Outstanding(log, k) == held
  {
    Unlock();
  }

  /** No client hears of the pointer while a shell holds it, and only that shell hears of the drag. */
  ghost predicate Discreet(log: seq<PointerNote>) {
    forall i | 0 <= i < |log| :: MayFollow(GrabAt(log[..i]), log[i])
  }

  predicate MayFollow(grab: Option<ObjectKey>, n: PointerNote) {
    && (ToClient(n) ==> grab == None)
    && (n.GrabMotion? || n.GrabEnd? ==> grab == Some(n.shell))
  }

  function GrabNext(was: Option<ObjectKey>, n: PointerNote): Option<ObjectKey> {
    if n.GrabStart? then Some(n.shell) else if n.GrabEnd? then None else was
  }

  lemma NoteOne(log: seq<PointerNote>, n: PointerNote)
    requires Discreet(log) && MayFollow(GrabAt(log), n)
    ensures Discreet(log + [n]) && GrabAt(log + [n]) == GrabNext(GrabAt(log), n)
  {
    var more := log + [n];
    assert more[..|log|] == log;
    forall i | 0 <= i < |more| ensures MayFollow(GrabAt(more[..i]), more[i]) {
      if i < |log| {
        assert more[..i] == log[..i] && more[i] == log[i];
      }
    }
  }

  /** What was told is discreet, and by it this shell holds the pointer. Folded. */
  ghost predicate Guarded(log: seq<PointerNote>, grab: Option<ObjectKey>) {
    forall key: Key | Opened(key) :: Discreet(log) && GrabAt(log) == grab
  }

  lemma GuardedOne(log: seq<PointerNote>, grab: Option<ObjectKey>, n: PointerNote)
    requires Guarded(log, grab) && MayFollow(grab, n)
    ensures Guarded(log + [n], GrabNext(grab, n))
  {
    Unlock();
    NoteOne(log, n);
  }

  /** Where a key goes. */
  datatype Route = Ignored | Swallowed | ToHolder(claim: Claim) | ToMethod | ToFocus(focus: SurfaceKey) | Nowhere

  class Seat {
    var position: Point
    var target: Option<SurfaceKey>
    var buttonsHeld: u32
    var shellGrab: Option<ObjectKey>
    var modifiers: set<Modifier>
    var held: set<u32>
    var consumed: set<u32>
    var epoch: u32
    /** The histories of what was told to whom. */
    var keys: seq<KeyNote>
    var pointer: seq<PointerNote>

    ghost predicate ValidKeys()
      reads this
    {
      && consumed <= held && |held| <= MAX_HELD_KEYS
      && Backed(modifiers, held) && Keyed(keys, held, consumed)
    }

    ghost predicate ValidPointer()
      reads this
    {
      && (shellGrab.Some? ==> buttonsHeld > 0 && target.None?)
      && (buttonsHeld > 0 && shellGrab.None? ==> target.Some?)
      && Guarded(pointer, shellGrab)
      && Tallied(pointer, if shellGrab.None? then target else None, buttonsHeld)
    }

    ghost predicate Valid()
      reads this
    {
      ValidKeys() && ValidPointer()
    }

    ghost function AsValue(): SeatValue
      reads this
    {
      SeatValue(position, target, buttonsHeld, shellGrab, modifiers, held, consumed, epoch, keys, pointer)
    }

    constructor ()
      ensures Valid() && keys == [] && pointer == [] && held == {} && target == None && buttonsHeld == 0
    {
      position, target, buttonsHeld, shellGrab := Point(0, 0), None, 0, None;
      modifiers, held, consumed, epoch := {}, {}, {}, 0;
      keys, pointer := [], [];
    }

    // ----- keys -----

    /** `claimed`: a chord this key completes with the modifiers held, if somebody claimed one. */
    method Claimed(key: u32, shortcuts: map<Chord, Claim>) returns (claim: Option<Claim>)
      ensures claim.Some? <==> IsClaimed(shortcuts, key, modifiers)
      ensures claim.Some? ==> ClaimBy(shortcuts, key, modifiers, claim.value)
    {
      Unlock();
      var matching := set chord | chord in shortcuts && Completes(chord, key, modifiers);
      if matching == {} {
        assert forall chord | chord in shortcuts && Completes(chord, key, modifiers) :: chord in matching;
        return None;
      }
      var chord :| chord in matching;
      return Some(shortcuts[chord]);
    }

    /** `key`. A press is swallowed exactly when it completes a claimed chord; a release exactly when
        its press was. */
    method Key(key: u32, pressed: bool, shortcuts: map<Chord, Claim>, composing: bool, focus: Option<SurfaceKey>)
      returns (route: Route)
      requires ValidKeys()
      modifies `held, `modifiers, `consumed, `keys
      ensures ValidKeys()
      ensures route.Ignored? <==> if pressed then key in old(held) || |old(held)| >= MAX_HELD_KEYS else key !in old(held)
      ensures AsValue() == KeyNext(old(AsValue()), key, pressed, shortcuts)
      ensures !route.Ignored? ==>
                if pressed then held == old(held) + {key} && modifiers == old(modifiers) + BitsOf(key)
                else held == old(held) - {key} && modifiers == old(modifiers) - BitsOf(key)
      ensures !route.Ignored? && pressed ==>
                && (route.ToHolder? <==> IsClaimed(shortcuts, key, modifiers))
                && keys == old(keys) + [Down(key, route.ToHolder?)]
      ensures !route.Ignored? && pressed && NoneExact(shortcuts, key) ==>
                (route.ToHolder? <==> HeldFor(shortcuts, key, modifiers))
      ensures !route.Ignored? && pressed && AllExact(shortcuts, key) ==>
                (route.ToHolder? <==> HeldExactly(shortcuts, key, modifiers))
      ensures route.ToHolder? ==> pressed && ClaimBy(shortcuts, key, modifiers, route.claim)
      ensures pressed && |old(held)| < 32 && key !in old(held) ==> !route.Ignored?
      ensures pressed && |old(held)| >= 32 ==> route.Ignored?
      ensures !route.Ignored? && !pressed ==>
                (route.Swallowed? <==> key in old(consumed)) && keys == old(keys) + [Up(key, route.Swallowed?)]
      ensures !route.Ignored? && !route.ToHolder? && !route.Swallowed? ==>
                route == if composing then ToMethod else if focus.Some? then ToFocus(focus.value) else Nowhere
    {
      if (if pressed then key in held || |held| >= MAX_HELD_KEYS else key !in held) {
        return Ignored;
      }
      if pressed {
        ClaimedIff(shortcuts, key, modifiers + BitsOf(key));
        var claim := PressKey(key, shortcuts);
        if claim.Some? {
          return ToHolder(claim.value);
        }
      } else {
        var swallowed := ReleaseKey(key);
        if swallowed {
          return Swallowed;
        }
      }
      return if composing then ToMethod else if focus.Some? then ToFocus(focus.value) else Nowhere;
    }

    method PressKey(key: u32, shortcuts: map<Chord, Claim>) returns (claim: Option<Claim>)
      requires ValidKeys() && key !in held && |held| < MAX_HELD_KEYS
      modifies `held, `modifiers, `consumed, `keys
      ensures ValidKeys() && held == old(held) + {key} && modifiers == old(modifiers) + BitsOf(key)
      ensures claim.Some? <==> IsClaimed(shortcuts, key, modifiers)
      ensures claim.Some? ==> ClaimBy(shortcuts, key, modifiers, claim.value)
      ensures consumed == if claim.Some? then old(consumed) + {key} else old(consumed)
      ensures keys == old(keys) + [Down(key, claim.Some?)]
    {
      var modifier := ModifierOf(key);
      BackedByPress(modifiers, held, key);
      held := held + {key};
      modifiers := if modifier.Some? then modifiers + {modifier.value} else modifiers;
      assert modifiers == old(modifiers) + BitsOf(key);
      claim := Claimed(key, shortcuts);
      KeyedOne(keys, old(held), consumed, Down(key, claim.Some?));
      keys := keys + [Down(key, claim.Some?)];
      consumed := if claim.Some? then consumed + {key} else consumed;
    }

    method ReleaseKey(key: u32) returns (swallowed: bool)
      requires ValidKeys() && key in held
      modifies `held, `modifiers, `consumed, `keys
      ensures ValidKeys() && held == old(held) - {key} && modifiers == old(modifiers) - BitsOf(key)
      ensures swallowed == (key in old(consumed)) && consumed == old(consumed) - {key}
      ensures keys == old(keys) + [Up(key, swallowed)]
    {
      var modifier := ModifierOf(key);
      BackedAfterRelease(modifiers, held, key);
      FewerElements(held, held - {key});
      held := held - {key};
      modifiers := if modifier.Some? then modifiers - {modifier.value} else modifiers;
      assert modifiers == old(modifiers) - BitsOf(key);
      swallowed := key in consumed;
      KeyedOne(keys, old(held), consumed, Up(key, swallowed));
      keys := keys + [Up(key, swallowed)];
      consumed := consumed - {key};
    }

    // ----- the pointer -----

    method Note(n: PointerNote, ghost grab: Option<ObjectKey>)
      requires Guarded(pointer, grab) && MayFollow(grab, n)
      modifies `pointer
      ensures pointer == old(pointer) + [n] && Guarded(pointer, GrabNext(grab, n))
    {
      GuardedOne(pointer, grab, n);
      pointer := pointer + [n];
    }

    /** `move_pointer`: a shell's drag goes to the shell; a held button keeps its target wherever
        the pointer goes; otherwise the surface under the pointer is entered. */
    method MovePointer(to: Point, under: Option<SurfaceKey>)
      requires ValidPointer()
      modifies `position, `target, `pointer
      ensures ValidPointer() && position == to && AsValue() == MoveNext(old(AsValue()), to, under)
      ensures buttonsHeld > 0 ==> target == old(target)
      ensures buttonsHeld == 0 ==> target == under
      ensures pointer == old(pointer) +
                if shellGrab.Some? then [GrabMotion(shellGrab.value)]
                else if buttonsHeld > 0 then Moved(old(target))
                else Crossed(old(target), under) + Moved(under)
    {
      position := to;
      if shellGrab.Some? {
        TalliedOne(pointer, None, buttonsHeld, GrabMotion(shellGrab.value));
        Note(GrabMotion(shellGrab.value), shellGrab);
        return;
      }
      if buttonsHeld != 0 {
        if target.Some? {
          TalliedOne(pointer, target, buttonsHeld, MotionNote(target.value));
          Note(MotionNote(target.value), shellGrab);
        }
        return;
      }
      CrossInto(under);
      if target.Some? {
        TalliedOne(pointer, target, buttonsHeld, MotionNote(target.value));
        Note(MotionNote(target.value), shellGrab);
      }
    }

    /** With no button held, the pointer leaves what it was over and enters what it is over now. */
    method CrossInto(under: Option<SurfaceKey>)
      requires ValidPointer() && shellGrab == None && buttonsHeld == 0
      modifies `target, `pointer
      ensures ValidPointer() && target == under && pointer == old(pointer) + Crossed(old(target), under)
    {
      if under == target {
        return;
      }
      ghost var was := target;
      LeaveTarget();
      EnterSurface(under);
      Associated(old(pointer), Left(was), Entered(under));
    }

    method LeaveTarget()
      requires ValidPointer() && shellGrab == None && buttonsHeld == 0
      modifies `target, `pointer
      ensures ValidPointer() && target == None && pointer == old(pointer) + Left(old(target))
    {
      if target.Some? {
        TalliedOne(pointer, target, buttonsHeld, LeaveNote(target.value));
        Note(LeaveNote(target.value), shellGrab);
        target := None;
      }
    }

    /** The pointer is over another surface, which is told; what it was over is not told here. */
    method EnterSurface(k: Option<SurfaceKey>)
      requires ValidPointer() && shellGrab == None && buttonsHeld == 0
      modifies `target, `pointer
      ensures ValidPointer() && target == k && pointer == old(pointer) + Entered(k)
    {
      TalliedNone(pointer, target, 0, k, 0);
      if k.Some? {
        TalliedOne(pointer, k, 0, EnterNote(k.value));
        Note(EnterNote(k.value), shellGrab);
      } else {
        assert pointer + [] == pointer;
      }
      target := k;
    }

    /** `pointer_button`. A press takes the implicit grab for the surface under the pointer, and the
        last release gives it back. `under` is the surface there when the call starts, `after` once
        events were sent. */
    method PointerButton(pressed: bool, under: Option<SurfaceKey>, after: Option<SurfaceKey>, window: bool)
      requires ValidPointer()
      modifies `target, `buttonsHeld, `shellGrab, `pointer
      ensures ValidPointer()
      ensures old(shellGrab).Some? && (pressed || old(buttonsHeld) > 1) ==>
                && shellGrab == old(shellGrab) && pointer == old(pointer) && target == None
                && buttonsHeld as int == if pressed then OneMore(old(buttonsHeld)) else old(buttonsHeld) - 1
      ensures old(shellGrab).Some? && !pressed && old(buttonsHeld) == 1 ==>
                && shellGrab == None && target == after && buttonsHeld == 0
                && pointer == old(pointer) + [GrabEnd(old(shellGrab).value)] + Entered(after)
      ensures old(shellGrab).None? ==> shellGrab == None
      ensures old(shellGrab).None? && pressed && old(buttonsHeld) == 0 ==>
                && target == under && buttonsHeld == (if under.Some? then 1 else 0)
                && pointer == old(pointer) + Entered(under) + Clicked(under, window)
      ensures old(shellGrab).None? && pressed && old(buttonsHeld) > 0 ==>
                && target == old(target) && target.Some? && buttonsHeld as int == OneMore(old(buttonsHeld))
                && pointer == old(pointer) + Clicked(target, window)
      ensures old(shellGrab).None? && !pressed && old(target).Some? ==>
                && pointer == old(pointer) + [ButtonNote(old(target).value, false)]
                              + (if old(buttonsHeld) <= 1 then Crossed(old(target), after) else [])
                && target == (if old(buttonsHeld) <= 1 then after else old(target))
                && buttonsHeld as int == OneLess(old(buttonsHeld))
      ensures old(shellGrab).None? && !pressed && old(target).None? ==>
                pointer == old(pointer) && target == None && buttonsHeld == old(buttonsHeld)
      ensures AsValue() == ButtonNext(old(AsValue()), pressed, under, after, window) && old(pointer) <= pointer
      ensures UnpairedBetween(pointer, |old(pointer)|, |pointer|)
              <==> !pressed && old(shellGrab).None? && old(target).Some? && old(buttonsHeld) == 0
    {
      ghost var told := pointer;
      if pressed && buttonsHeld == 0 {
        EnterSurface(under);
      }
      if shellGrab.Some? {
        GrabButton(pressed, after);
        QuietTail(told, pointer);
      } else if target.Some? {
        if pressed {
          ClientPress(target.value, window);
          QuietTail(told, pointer);
        } else {
          TalliedIs(told, target.value, buttonsHeld);
          ReleaseTail(told, target.value, if buttonsHeld <= 1 then Crossed(target, after) else []);
          ClientRelease(target.value, after);
        }
      } else {
        QuietTail(told, pointer);
      }
    }

    /** A button while a shell holds the pointer: the last release ends the grab. */
    method GrabButton(pressed: bool, after: Option<SurfaceKey>)
      requires ValidPointer() && shellGrab.Some?
      modifies `target, `buttonsHeld, `shellGrab, `pointer
      ensures ValidPointer()
      ensures pressed || old(buttonsHeld) > 1 ==>
                && shellGrab == old(shellGrab) && pointer == old(pointer) && target == None
                && buttonsHeld as int == if pressed then OneMore(old(buttonsHeld)) else old(buttonsHeld) - 1
      ensures !pressed && old(buttonsHeld) == 1 ==>
                && shellGrab == None && target == after && buttonsHeld == 0
                && pointer == old(pointer) + [GrabEnd(old(shellGrab).value)] + Entered(after)
    {
      TalliedNone(pointer, None, buttonsHeld, None, if pressed then OneMore(buttonsHeld) else buttonsHeld - 1);
      if pressed {
        buttonsHeld := if buttonsHeld < U32_MAX then buttonsHeld + 1 else buttonsHeld;
        return;
      }
      buttonsHeld := buttonsHeld - 1;
      if buttonsHeld == 0 {
        TalliedOne(pointer, None, 0, GrabEnd(shellGrab.value));
        Note(GrabEnd(shellGrab.value), shellGrab);
        shellGrab := None;
        EnterSurface(after);
      }
    }

    method ClientPress(taken: SurfaceKey, window: bool)
      requires ValidPointer() && shellGrab == None && target == Some(taken)
      modifies `buttonsHeld, `pointer
      ensures ValidPointer() && pointer == old(pointer) + Clicked(Some(taken), window)
      ensures buttonsHeld as int == OneMore(old(buttonsHeld))
    {
      TalliedOne(pointer, target, buttonsHeld, ButtonNote(taken, true));
      Note(ButtonNote(taken, true), shellGrab);
      buttonsHeld := if buttonsHeld < U32_MAX then buttonsHeld + 1 else buttonsHeld;
      if window {
        TalliedOne(pointer, target, buttonsHeld, InteractionNote(taken));
        Note(InteractionNote(taken), shellGrab);
      }
    }

    method ClientRelease(taken: SurfaceKey, after: Option<SurfaceKey>)
      requires ValidPointer() && shellGrab == None && target == Some(taken)
      modifies `target, `buttonsHeld, `pointer
      ensures ValidPointer()
      ensures pointer == old(pointer) + [ButtonNote(taken, false)]
                         + (if old(buttonsHeld) <= 1 then Crossed(Some(taken), after) else [])
      ensures target == if old(buttonsHeld) <= 1 then after else Some(taken)
      ensures buttonsHeld as int == OneLess(old(buttonsHeld))
    {
      TalliedOne(pointer, target, buttonsHeld, ButtonNote(taken, false));
      Note(ButtonNote(taken, false), shellGrab);
      buttonsHeld := if buttonsHeld > 0 then buttonsHeld - 1 else 0;
      if buttonsHeld == 0 {
        CrossInto(after);
      }
    }

    /** `shell_grab`, once the seat and the handle are known: refused when nothing is pressed, and
        the client stops seeing the pointer first. */
    method ShellGrab(shell: ObjectKey) returns (granted: bool)
      requires ValidPointer()
      modifies `target, `shellGrab, `pointer
      ensures ValidPointer() && granted == (buttonsHeld > 0) && AsValue() == GrabbedNext(old(AsValue()), shell)
      ensures !granted ==> pointer == old(pointer) && target == old(target) && shellGrab == old(shellGrab)
      ensures granted ==> shellGrab == Some(shell) && target == None
                          && pointer == old(pointer) + Left(old(target)) + [GrabStart(shell)]
    {
      if buttonsHeld == 0 {
        return false;
      }
      if target.Some? {
        TalliedOne(pointer, target, buttonsHeld, LeaveNote(target.value));
        Note(LeaveNote(target.value), shellGrab);
        target := None;
      }
      TalliedOne(pointer, None, buttonsHeld, GrabStart(shell));
      Note(GrabStart(shell), shellGrab);
      shellGrab := Some(shell);
      return true;
    }

    /** `reset_input`: everything the seat was holding is let go of, and a new epoch begins. */
    method ResetInput()
      requires Valid()
      modifies this
      ensures Valid() && held == {} && consumed == {} && modifiers == {} && buttonsHeld == 0
      ensures target == None && shellGrab == None && epoch == (old(epoch) as int + 1) % 0x1_0000_0000
      ensures AsValue() == ResetNext(old(AsValue())) && keys == old(keys) + [Reset]
      ensures pointer == old(pointer) + Left(old(target))
                         + (if old(shellGrab).Some? then [GrabEnd(old(shellGrab).value)] else [])
    {
      ResetPointer();
      ResetKeys();
      epoch := (epoch as int + 1) % 0x1_0000_0000;
    }

    method ResetPointer()
      requires ValidPointer()
      modifies `target, `shellGrab, `buttonsHeld, `pointer
      ensures ValidPointer() && target == None && shellGrab == None && buttonsHeld == 0
      ensures pointer == old(pointer) + Left(old(target))
                         + (if old(shellGrab).Some? then [GrabEnd(old(shellGrab).value)] else [])
    {
      if target.Some? {
        TalliedOne(pointer, target, buttonsHeld, LeaveNote(target.value));
        Note(LeaveNote(target.value), shellGrab);
      }
      target := None;
      if shellGrab.Some? {
        TalliedOne(pointer, None, buttonsHeld, GrabEnd(shellGrab.value));
        Note(GrabEnd(shellGrab.value), shellGrab);
      }
      TalliedNone(pointer, None, buttonsHeld, None, 0);
      shellGrab, buttonsHeld := None, 0;
    }

    method ResetKeys()
      requires ValidKeys()
      modifies `held, `consumed, `modifiers, `keys
      ensures ValidKeys() && held == {} && consumed == {} && modifiers == {} && keys == old(keys) + [Reset]
    {
      KeyedOne(keys, held, consumed, Reset);
      BackedIff({}, {});
      keys := keys + [Reset];
      held, consumed, modifiers := {}, {}, {};
    }
  }

  function Entered(k: Option<SurfaceKey>): seq<PointerNote> {
    if k.Some? then [EnterNote(k.value)] else []
  }

  function Left(k: Option<SurfaceKey>): seq<PointerNote> {
    if k.Some? then [LeaveNote(k.value)] else []
  }

  function Moved(k: Option<SurfaceKey>): seq<PointerNote> {
    if k.Some? then [MotionNote(k.value)] else []
  }

  function Clicked(k: Option<SurfaceKey>, window: bool): seq<PointerNote> {
    if k.None? then [] else if window then [ButtonNote(k.value, true), InteractionNote(k.value)] else [ButtonNote(k.value, true)]
  }

  lemma Associated(a: seq<PointerNote>, b: seq<PointerNote>, c: seq<PointerNote>)
    ensures a + b + c == a + (b + c)
  {
  }

  /** Nothing, or leaving one surface and then entering the other. */
  function Crossed(was: Option<SurfaceKey>, now: Option<SurfaceKey>): seq<PointerNote> {
    if was == now then [] else Left(was) + Entered(now)
  }

  /** In which order a surface left and one entered are told, and what a press is told with. */
  lemma ToldInOrder(a: SurfaceKey, b: SurfaceKey)
    requires a != b
    ensures Crossed(Some(a), Some(b)) == [LeaveNote(a), EnterNote(b)] && Crossed(Some(a), Some(a)) == []
    ensures Crossed(None, Some(b)) == [EnterNote(b)] && Crossed(Some(a), None) == [LeaveNote(a)] && Crossed(None, None) == []
    ensures Clicked(Some(a), true) == [ButtonNote(a, true), InteractionNote(a)] && Clicked(Some(a), false) == [ButtonNote(a, true)]
    ensures Clicked(None, true) == Clicked(None, false) == Moved(None) == [] && Moved(Some(a)) == [MotionNote(a)]
  {
  }

  lemma BackedByPress(modifiers: set<Modifier>, held: set<u32>, key: u32)
    requires Backed(modifiers, held)
    ensures Backed(modifiers + BitsOf(key), held + {key})
  {
    Unlock();
    forall m | m in modifiers + BitsOf(key) ensures exists k: u32 :: k in held + {key} && ModifierOf(k) == Some(m) {
      if m in modifiers {
        var k: u32 :| k in held && ModifierOf(k) == Some(m);
        assert k in held + {key};
      } else {
        assert key in held + {key};
      }
    }
  }

  /** Letting go of a modifier clears its bit, so every bit still set is backed by another key. */
  lemma BackedAfterRelease(modifiers: set<Modifier>, held: set<u32>, key: u32)
    requires Backed(modifiers, held)
    ensures Backed(modifiers - BitsOf(key), held - {key})
  {
    Unlock();
    forall m | m in modifiers - BitsOf(key) ensures exists k: u32 :: k in held - {key} && ModifierOf(k) == Some(m) {
      var k: u32 :| k in held && ModifierOf(k) == Some(m);
      assert k in held - {key};
    }
  }

  // ----- runs -----

  datatype InputStep =
    | KeyStep(key: u32, down: bool, shortcuts: map<Chord, Claim>, composing: bool, focus: Option<SurfaceKey>)
    | MoveStep(to: Point, over: Option<SurfaceKey>)
    | ButtonStep(down: bool, over: Option<SurfaceKey>, after: Option<SurfaceKey>, window: bool)
    | GrabStep(shell: ObjectKey)
    | ResetStep

  /** A seat between two steps, with all that was told. */
  datatype SeatValue = SeatValue(position: Point, target: Option<SurfaceKey>, buttonsHeld: nat, shellGrab: Option<ObjectKey>,
                                 modifiers: set<Modifier>, held: set<u32>, consumed: set<u32>, epoch: nat,
                                 keys: seq<KeyNote>, pointer: seq<PointerNote>)

  ghost function KeyNext(a: SeatValue, key: u32, down: bool, shortcuts: map<Chord, Claim>): SeatValue {
    if (if down then key in a.held || |a.held| >= MAX_HELD_KEYS else key !in a.held) then a
    else if down then
      var swallowed := IsClaimed(shortcuts, key, a.modifiers + BitsOf(key));
      a.(held := a.held + {key}, modifiers := a.modifiers + BitsOf(key), keys := a.keys + [Down(key, swallowed)],
         consumed := if swallowed then a.consumed + {key} else a.consumed)
    else
      a.(held := a.held - {key}, modifiers := a.modifiers - BitsOf(key), keys := a.keys + [Up(key, key in a.consumed)],
         consumed := a.consumed - {key})
  }

  function MoveNext(a: SeatValue, to: Point, under: Option<SurfaceKey>): SeatValue {
    a.(position := to, target := if a.buttonsHeld > 0 then a.target else under,
       pointer := a.pointer + if a.shellGrab.Some? then [GrabMotion(a.shellGrab.value)]
                              else if a.buttonsHeld > 0 then Moved(a.target)
                              else Crossed(a.target, under) + Moved(under))
  }

  function ButtonNext(a: SeatValue, down: bool, under: Option<SurfaceKey>, over: Option<SurfaceKey>, window: bool): SeatValue {
    if a.shellGrab.Some? then
      if down then a.(buttonsHeld := OneMore(a.buttonsHeld))
      else if a.buttonsHeld > 1 then a.(buttonsHeld := a.buttonsHeld - 1)
      else a.(buttonsHeld := 0, shellGrab := None, target := over,
              pointer := a.pointer + [GrabEnd(a.shellGrab.value)] + Entered(over))
    else if down then
      if a.buttonsHeld > 0 then
        a.(buttonsHeld := OneMore(a.buttonsHeld), pointer := a.pointer + Clicked(a.target, window))
      else
        a.(buttonsHeld := if under.Some? then 1 else 0, target := under,
           pointer := a.pointer + Entered(under) + Clicked(under, window))
    else if a.target.Some? then
      a.(buttonsHeld := OneLess(a.buttonsHeld), target := if a.buttonsHeld <= 1 then over else a.target,
         pointer := a.pointer + [ButtonNote(a.target.value, false)]
                    + if a.buttonsHeld <= 1 then Crossed(a.target, over) else [])
    else a
  }

  function GrabbedNext(a: SeatValue, shell: ObjectKey): SeatValue {
    if a.buttonsHeld == 0 then a
    else a.(target := None, shellGrab := Some(shell), pointer := a.pointer + Left(a.target) + [GrabStart(shell)])
  }

  function ResetNext(a: SeatValue): SeatValue {
    a.(target := None, buttonsHeld := 0, shellGrab := None, modifiers := {}, held := {}, consumed := {},
       epoch := (a.epoch + 1) % 0x1_0000_0000, keys := a.keys + [Reset],
       pointer := a.pointer + Left(a.target) + if a.shellGrab.Some? then [GrabEnd(a.shellGrab.value)] else [])
  }

  ghost function SeatNext(a: SeatValue, step: InputStep): SeatValue {
    match step
    case KeyStep(key, down, shortcuts, _, _) => KeyNext(a, key, down, shortcuts)
    case MoveStep(to, over) => MoveNext(a, to, over)
    case ButtonStep(down, over, after, window) => ButtonNext(a, down, over, after, window)
    case GrabStep(shell) => GrabbedNext(a, shell)
    case ResetStep => ResetNext(a)
  }

  ghost function SeatAfter(a: SeatValue, steps: seq<InputStep>): SeatValue {
    if steps == [] then a else SeatNext(SeatAfter(a, steps[..|steps| - 1]), steps[|steps| - 1])
  }

  /** A release the seat tells a client of, though it counts no button as held. */
  predicate Stray(a: SeatValue, step: InputStep) {
    step.ButtonStep? && !step.down && a.shellGrab.None? && a.target.Some? && a.buttonsHeld == 0
  }

  /** What a step told: an unpaired release exactly when it is stray. Folded. */
  ghost predicate StepTold(log: seq<PointerNote>, a: SeatValue, step: InputStep, b: SeatValue) {
    forall key: Key | Opened(key) ::
      && |a.pointer| <= |b.pointer| <= |log|
      && (UnpairedBetween(log, |a.pointer|, |b.pointer|) <==> Stray(a, step))
  }

  lemma ToldLater(log: seq<PointerNote>, more: seq<PointerNote>, a: SeatValue, step: InputStep, b: SeatValue)
    requires StepTold(log, a, step, b) && log <= more
    ensures StepTold(more, a, step, b)
  {
    Unlock();
    UnpairedLater(log, more, |a.pointer|, |b.pointer|);
  }

  /** The seat before each step of a run. */
  ghost function SeatAt(a: SeatValue, steps: seq<InputStep>, i: nat): SeatValue
    requires i <= |steps|
  {
    SeatAfter(a, steps[..i])
  }

  lemma SeatStep(a: SeatValue, steps: seq<InputStep>, i: nat)
    requires i < |steps|
    ensures SeatAt(a, steps, i + 1) == SeatNext(SeatAt(a, steps, i), steps[i])
  {
    assert steps[..i + 1][..i] == steps[..i] && steps[..i + 1][i] == steps[i];
  }

  /** Over every run of keys, motion, buttons, grabs and resets the seat does what `SeatNext` says step
      by step, the histories only grow, and the releases told with no press are exactly those of the
      stray steps. */
  method RunInput(seat: Seat, steps: seq<InputStep>)
    requires seat.Valid()
    modifies seat
    ensures seat.Valid() && seat.AsValue() == SeatAfter(old(seat.AsValue()), steps)
    ensures old(seat.keys) <= seat.keys && old(seat.pointer) <= seat.pointer
    ensures ToldUpTo(seat.pointer, old(seat.AsValue()), steps, |steps|)
  {
    ghost var start := seat.AsValue();
    var i := 0;
    assert steps[..0] == [];
    while i < |steps|
      invariant 0 <= i <= |steps| && seat.Valid() && seat.AsValue() == SeatAfter(start, steps[..i])
      invariant old(seat.keys) <= seat.keys && old(seat.pointer) <= seat.pointer
      invariant ToldUpTo(seat.pointer, start, steps, i)
    {
      ghost var told := seat.pointer;
      PerformInput(seat, steps[i]);
      SeatStep(start, steps, i);
      ToldFurther(told, seat.pointer, start, steps, i);
      i := i + 1;
    }
    assert steps[..i] == steps;
  }

  /** The first steps of a run each told an unpaired release exactly when stray. Folded. */
  ghost predicate ToldUpTo(log: seq<PointerNote>, a: SeatValue, steps: seq<InputStep>, n: nat) {
    forall key: Key | Opened(key) :: n <= |steps| && forall i | 0 <= i < n :: ToldAt(log, a, steps, i)
  }

  lemma ToldFurther(log: seq<PointerNote>, more: seq<PointerNote>, a: SeatValue, steps: seq<InputStep>, n: nat)
    requires ToldUpTo(log, a, steps, n) && log <= more && n < |steps| && ToldAt(more, a, steps, n)
    ensures ToldUpTo(more, a, steps, n + 1)
  {
    Unlock();
    forall i | 0 <= i < n + 1 ensures ToldAt(more, a, steps, i) {
      if i < n {
        assert ToldAt(log, a, steps, i);
        ToldLater(log, more, SeatAt(a, steps, i), steps[i], SeatAt(a, steps, i + 1));
      }
    }
  }

  ghost predicate ToldAt(log: seq<PointerNote>, a: SeatValue, steps: seq<InputStep>, i: nat)
    requires i < |steps|
  {
    StepTold(log, SeatAt(a, steps, i), steps[i], SeatAt(a, steps, i + 1))
  }

  method PerformInput(seat: Seat, step: InputStep)
    requires seat.Valid()
    modifies seat
    ensures seat.Valid() && seat.AsValue() == SeatNext(old(seat.AsValue()), step)
    ensures old(seat.keys) <= seat.keys && old(seat.pointer) <= seat.pointer
    ensures StepTold(seat.pointer, old(seat.AsValue()), step, seat.AsValue())
  {
    ghost var told := seat.pointer;
    match step {
      case KeyStep(key, down, shortcuts, composing, focus) =>
        var route := seat.Key(key, down, shortcuts, composing, focus);
      case MoveStep(to, over) =>
        seat.MovePointer(to, over);
        QuietTail(told, seat.pointer);
      case ButtonStep(down, over, after, window) => seat.PointerButton(down, over, after, window);
      case GrabStep(shell) =>
        var granted := seat.ShellGrab(shell);
        QuietTail(told, seat.pointer);
      case ResetStep =>
        seat.ResetInput();
        QuietTail(told, seat.pointer);
    }
  }

  /** A press where nothing is, a drag onto a surface and the release there: the surface hears of a
      release and never of a press. */
  method StrayRelease(k: SurfaceKey) returns (seat: Seat)
    ensures seat.Valid() && seat.pointer == [EnterNote(k), MotionNote(k), ButtonNote(k, false)]
    ensures UnpairedAt(seat.pointer, 2)
  {
    seat := DraggedOnto(k);
    ghost var told := seat.pointer;
    seat.PointerButton(false, Some(k), Some(k), false);
    assert seat.pointer == told + [ButtonNote(k, false)];
    assert told[..0] == [] && told[..1] == [EnterNote(k)] && seat.pointer[..2] == told;
  }

  method DraggedOnto(k: SurfaceKey) returns (seat: Seat)
    ensures fresh(seat) && seat.Valid() && seat.pointer == [EnterNote(k), MotionNote(k)]
    ensures seat.target == Some(k) && seat.buttonsHeld == 0 && seat.shellGrab == None
  {
    seat := new Seat();
    seat.PointerButton(true, None, None, false);
    seat.MovePointer(Point(1, 1), Some(k));
  }
}
