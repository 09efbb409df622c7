/** The compositor's state as one value, what must be true of it between steps, and what a cascade
    of closing connections may do to it. */
module World {
  import opened Basics
  import opened Geometry
  import opened Model
  import opened Registry

  datatype Capability =
    | SurfaceCreate | BufferImport | SoftwareShm | GpuPrime | ExplicitGpuFence | RevocableSeat
    | ShellControl | ShortcutControl | InputMethodControl | ExtendedInput | PrivilegedSession

  datatype Kind =
    | Display | Registry | Factory | ShmPool | InputStream | ShellControlKind | Pointer | Keyboard
    | Shortcuts | TextInput | InputMethod | OutputKind
    | Toplevel | Seat | Session | Surface | Buffer | Fence

  /** Kinds whose objects hold nothing the compositor changes. */
  predicate PlainOf(k: Kind) {
    !k.Toplevel? && !k.Seat? && !k.Session? && !k.Surface? && !k.Buffer? && !k.Fence?
  }

  type PlainKind = k: Kind | PlainOf(k) witness Display

  datatype Attachment = Unchanged | Set(buffer: ObjectId, offset: Point) | Detach

  datatype Current = Current(buffer: ObjectId, offset: Point, commit: CommitId, acquireFence: Option<ObjectId>,
                             frameCallback: bool)

  datatype SurfaceState = SurfaceState(session: ObjectId, attachment: Attachment, acquireFence: Option<ObjectId>,
                                       current: Option<Current>, frameRequested: bool)

  datatype Object =
    | Plain(plain: PlainKind)
    | ToplevelObject(surface: ObjectId, handle: nat)
    | SeatObject(seatActive: bool)
    | SessionObject(seat: Option<ObjectId>, sessionActive: bool)
    | SurfaceObject(state: SurfaceState)
    | BufferObject(transport: Capability, held: BufferState)
    | FenceObject(signaled: bool)

  function KindOf(o: Object): Kind {
    match o
    case Plain(k) => k
    case ToplevelObject(_, _) => Toplevel
    case SeatObject(_) => Seat
    case SessionObject(_, _) => Session
    case SurfaceObject(_) => Surface
    case BufferObject(_, _) => Buffer
    case FenceObject(_) => Fence
  }

  datatype StateError =
    | InvalidObject(id: ObjectId)
    | InvalidObjectId(id: ObjectId)
    | ObjectIdAlreadyUsed(id: ObjectId)
    | WrongObjectType(id: ObjectId)
    | UnknownOpcode(id: ObjectId)
    | ConnectionClosed
    | InvalidState(id: ObjectId)
    | UnsupportedCapability(id: ObjectId)
    | QuotaExceeded(id: ObjectId)

  datatype EventKind =
    | ErrorEvent(error: StateError)
    | QueueOverflow(queued: nat)
    | CapabilityRevoked(capability: Capability)
    | ObjectDestroyed(kind: Kind)
    | IdRetired
    | BufferRelease
    | FrameDone
    | KeyboardLeave | KeyboardEnter | KeyFocusLost | KeyFocusGained
    | TextPreedit | TextLeave | TextEnter | MethodActivated | MethodDeactivated
    | ShellToplevel(handle: nat)
    | ShellToplevelGone(handle: nat)
    | ShellFocusChanged(focus: nat)
    | ShellSnapshotDone
    | Configure | Close
    | GlobalOffered(name: nat)
    | GlobalWithdrawn(name: nat)
    | Announcement

  datatype Event = Event(connection: ConnectionId, objectId: ObjectId, kind: EventKind)

  /** What happened, in order: objects created, and events queued. */
  datatype Entry = Created(connection: ConnectionId, id: ObjectId) | Queued(event: Event)

  datatype Connection = Connection(pendingEvents: nat, session: Option<ObjectId>, available: set<Capability>,
                                   capabilities: set<Capability>, registry: Registry<Object>)

  type Clients = map<ConnectionId, Connection>

  datatype TextField = TextField(connection: ConnectionId, input: ObjectId, composes: bool)

  datatype Modifier = Control | Shift | Alt | Meta

  datatype Chord = Chord(seat: nat, trigger: nat, modifiers: set<Modifier>, exact: bool)

  datatype Claim = Claim(holder: ConnectionId, manager: ObjectId, shortcut: nat)

  datatype Limits = Limits(maxConnections: nat, maxObjects: nat, maxSurfaces: nat, maxBuffers: nat,
                           maxImportedHandles: nat)

  /** What the registry offers under a name. */
  datatype Global = Global(kind: Kind, version: nat)

  datatype World = World(
    limit: nat,
    limits: Limits,
    globals: map<nat, Global>,
    nextGlobal: nat,
    clients: Clients,
    nextConnection: nat,
    nextCommit: CommitId,
    nextHandle: nat,
    positions: map<SurfaceKey, Point>,
    stack: seq<SurfaceKey>,
    toplevels: map<nat, SurfaceKey>,
    keyboardFocus: Option<SurfaceKey>,
    pointerTarget: Option<SurfaceKey>,
    shortcuts: map<Chord, Claim>,
    fields: map<SurfaceKey, TextField>,
    inputMethod: Option<SurfaceKey>,
    composing: Option<TextField>,
    composition: nat,
    events: seq<Event>,
    log: seq<Entry>,
    drained: seq<Event>)

  // ----- lookup -----

  function Lookup(cs: Clients, c: ConnectionId, id: ObjectId): Option<Object> {
    if c in cs && id in cs[c].registry.live then Some(cs[c].registry.live[id]) else None
  }

  function SurfaceOf(cs: Clients, k: SurfaceKey): Option<SurfaceState> {
    match Lookup(cs, k.connection, k.objectId)
    case Some(SurfaceObject(s)) => Some(s)
    case _ => None
  }

  predicate HasContent(cs: Clients, k: SurfaceKey) {
    SurfaceOf(cs, k).Some? && SurfaceOf(cs, k).value.current.Some?
  }

  // ----- the scene -----

  /** The object a step is part way through destroying, exempt from what it no longer has. */
  type Dying = Option<SurfaceKey>

  /** The stack lists each live surface with content once, and every stacked surface has a
      position; every position is of a live surface. That a stacked surface has content is not
      among these: it is what the source can be brought out of, and `Hollow` says of which. */
  ghost predicate SceneSound(w: World, x: Dying) {
    && NoDuplicates(w.stack)
    && (forall k | k in w.stack :: SurfaceOf(w.clients, k).Some? && k in w.positions)
    && (forall k | k in w.positions :: SurfaceOf(w.clients, k).Some?)
    && (forall k | HasContent(w.clients, k) && x != Some(k) :: k in w.stack)
    && FocusSound(w)
  }

  /** The pointer is over a live surface or none. The keyboard may be left with a surface whose
      connection went while it was being told; otherwise its surface is live too. */
  ghost predicate FocusSound(w: World) {
    && (w.pointerTarget.Some? ==> SurfaceOf(w.clients, w.pointerTarget.value).Some?)
    && (w.keyboardFocus.Some? ==> w.keyboardFocus.value.connection < w.nextConnection
                                  && FocusLive(w.clients, w.keyboardFocus.value))
  }

  predicate FocusLive(cs: Clients, k: SurfaceKey) {
    k.connection in cs ==> SurfaceOf(cs, k).Some?
  }

  /** Stacked, with nothing to show. */
  predicate Hollow(w: World, k: SurfaceKey) {
    k in w.stack && !HasContent(w.clients, k)
  }

  // ----- buffers -----

  /** Where a buffer may be, given the surface its state names. */
  ghost predicate BufferSound(w: World, c: ConnectionId, b: ObjectId, held: BufferState) {
    match held
    case Available => true
    case Pending(s) =>
      && s.connection == c && SurfaceOf(w.clients, s).Some?
      && SurfaceOf(w.clients, s).value.attachment.Set?
      && SurfaceOf(w.clients, s).value.attachment.buffer == b
    case CompositorHeld(s, m) =>
      && s.connection == c && SurfaceOf(w.clients, s).Some? && m < w.nextCommit
      && var current := SurfaceOf(w.clients, s).value.current;
         current.Some? ==> m <= current.value.commit && (m == current.value.commit ==> current.value.buffer == b)
  }

  predicate LiveBuffer(cs: Clients, c: ConnectionId, b: ObjectId) {
    Lookup(cs, c, b).Some? && Lookup(cs, c, b).value.BufferObject?
  }

  predicate LiveFence(cs: Clients, c: ConnectionId, f: ObjectId) {
    Lookup(cs, c, f).Some? && Lookup(cs, c, f).value.FenceObject?
  }

  /** The buffers and fences a surface names are live objects of its connection. */
  ghost predicate SurfaceNamesLive(w: World, c: ConnectionId, s: SurfaceState) {
    && (s.attachment.Set? ==> LiveBuffer(w.clients, c, s.attachment.buffer))
    && (s.acquireFence.Some? ==> LiveFence(w.clients, c, s.acquireFence.value))
    && (s.current.Some? ==> && LiveBuffer(w.clients, c, s.current.value.buffer)
                            && s.current.value.commit < w.nextCommit
                            && (s.current.value.acquireFence.Some? ==>
                                  LiveFence(w.clients, c, s.current.value.acquireFence.value)))
  }

  ghost predicate BuffersSound(w: World) {
    && (forall c, id | LiveBuffer(w.clients, c, id) :: BufferSound(w, c, id, Lookup(w.clients, c, id).value.held))
    && (forall k | SurfaceOf(w.clients, k).Some? :: SurfaceNamesLive(w, k.connection, SurfaceOf(w.clients, k).value))
  }

  // ----- windows -----

  predicate IsToplevel(cs: Clients, k: SurfaceKey) {
    Lookup(cs, k.connection, k.objectId).Some? && Lookup(cs, k.connection, k.objectId).value.ToplevelObject?
  }

  function HandleOf(cs: Clients, k: SurfaceKey): nat
    requires IsToplevel(cs, k)
  {
    Lookup(cs, k.connection, k.objectId).value.handle
  }

  function WindowSurface(cs: Clients, k: SurfaceKey): ObjectId
    requires IsToplevel(cs, k)
  {
    Lookup(cs, k.connection, k.objectId).value.surface
  }

  /** Handles and live windows name each other, handles are positive and already issued, and no
      two windows of a connection are over the same surface. */
  ghost predicate WindowsSound(w: World, x: Dying) {
    && 1 <= w.nextHandle
    && (forall h | h in w.toplevels ::
          1 <= h < w.nextHandle && IsToplevel(w.clients, w.toplevels[h]) && HandleOf(w.clients, w.toplevels[h]) == h)
    && (forall k | IsToplevel(w.clients, k) ::
          && 1 <= HandleOf(w.clients, k) < w.nextHandle
          && (x != Some(k) ==> HandleOf(w.clients, k) in w.toplevels && w.toplevels[HandleOf(w.clients, k)] == k))
    && (forall k, l | IsToplevel(w.clients, k) && IsToplevel(w.clients, l) && k.connection == l.connection
                      && WindowSurface(w.clients, k) == WindowSurface(w.clients, l) :: k == l)
  }

  // ----- names held outside connections -----

  /** Every name outside a connection is of a live one, and every global's name was issued, for a
      kind that binds to a plain object or a seat. */
  ghost predicate NamesSound(w: World) {
    && (forall chord | chord in w.shortcuts :: w.shortcuts[chord].holder in w.clients)
    && (forall f | f in w.fields :: f.connection in w.clients && w.fields[f].connection == f.connection)
    && (w.inputMethod.Some? ==> w.inputMethod.value.connection in w.clients)
    && (forall n | n in w.globals :: n < w.nextGlobal && (w.globals[n].kind.Seat? || PlainOf(w.globals[n].kind)))
  }

  // ----- identifiers -----

  datatype IdStatus = Unused | Taken | Gone

  /** What the history says about an identifier: created makes it taken, the destruction event
      makes a taken one gone, and the retirement event makes a gone one unused again. */
  function IdHistory(log: seq<Entry>, c: ConnectionId, id: ObjectId): IdStatus {
    if log == [] then Unused
    else
      var before := IdHistory(log[..|log| - 1], c, id);
      match log[|log| - 1]
      case Created(d, n) => if d == c && n == id then Taken else before
      case Queued(e) =>
        if e.connection != c || e.objectId != id then before
        else if e.kind.ObjectDestroyed? && before == Taken then Gone
        else if e.kind.IdRetired? && before == Gone then Unused
        else before
  }

  /** No identifier was created while the history still had it: reuse always came after the
      destruction and then the retirement had been queued. */
  ghost predicate ReuseOrdered(log: seq<Entry>) {
    forall i | 0 <= i < |log| && log[i].Created? :: IdHistory(log[..i], log[i].connection, log[i].id) == Unused
  }

  function EntryConnection(e: Entry): ConnectionId {
    match e
    case Created(c, _) => c
    case Queued(event) => event.connection
  }

  ghost predicate IdsSound(w: World, x: Dying) {
    && (forall c | c in w.clients ::
          c < w.nextConnection && Sound(w.clients[c].registry, DyingIn(c, x)))
    && (forall i | 0 <= i < |w.log| :: EntryConnection(w.log[i]) < w.nextConnection)
    && (forall c, id | c in w.clients && (x != Some(SurfaceKey(c, id)) || id in w.clients[c].registry.live) ::
          IdHistory(w.log, c, id) == if id in w.clients[c].registry.used then Taken else Unused)
    && ReuseOrdered(w.log)
  }

  function DyingIn(c: ConnectionId, x: Dying): Option<ObjectId> {
    if x.Some? && x.value.connection == c then Some(x.value.objectId) else None
  }

  // ----- the event queue -----

  /** One connection's events, in order. */
  function EventsFor(es: seq<Event>, c: ConnectionId): seq<Event> {
    if es == [] then []
    else
      var before := EventsFor(es[..|es| - 1], c);
      if es[|es| - 1].connection == c then before + [es[|es| - 1]] else before
  }

  function Pushed(log: seq<Entry>): seq<Event> {
    if log == [] then []
    else
      var before := Pushed(log[..|log| - 1]);
      match log[|log| - 1]
      case Created(_, _) => before
      case Queued(e) => before + [e]
  }

  /** Each live connection's count is the number of its events in the shared queue, never above
      the limit; a departed one left at most one more, the error saying why. For every
      connection, what was pushed is what was drained followed by what still waits. */
  ghost predicate QueueSound(w: World) {
    && (forall c | c in w.clients :: w.clients[c].pendingEvents == |EventsFor(w.events, c)| <= w.limit)
    && (forall c | c !in w.clients :: |EventsFor(w.events, c)| <= w.limit + 1)
    && (forall c :: EventsFor(Pushed(w.log), c) == EventsFor(w.drained, c) + EventsFor(w.events, c))
  }

  /** Everything that holds between two steps, and, with an object named, while it is being
      destroyed. */
  ghost predicate AllSound(w: World, x: Dying) {
    && SceneSound(w, x) && BuffersSound(w) && WindowsSound(w, x) && NamesSound(w) && IdsSound(w, x)
    && QueueSound(w)
  }

  /** `AllSound`, folded so that a step can pass it along without looking inside: the guard is
      always true, and a proof that needs what is inside says `Unlock`. */
  ghost predicate Holds(w: World, x: Dying) {
    forall key: Key | Opened(key) :: AllSound(w, x)
  }

  lemma HoldsIffAllSound(w: World, x: Dying)
    ensures Holds(w, x) <==> AllSound(w, x)
  {
    Unlock();
  }
}
