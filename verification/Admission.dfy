/** When a request is accepted, and what a refusal says: of every request, in terms of the objects, grants
    and limits it finds, whatever the order in which the checks are made. */
module Admission {
  import opened Basics
  import opened Model
  import opened World
  import opened Requests

  // ----- what a request needs -----

  predicate IsLive(w: World, c: ConnectionId, id: ObjectId) {
    c in w.clients && id in w.clients[c].registry.live
  }

  function ObjectOf(w: World, c: ConnectionId, id: ObjectId): Object
    requires IsLive(w, c, id)
  {
    w.clients[c].registry.live[id]
  }

  predicate IsOf(w: World, c: ConnectionId, id: ObjectId, kind: Kind) {
    IsLive(w, c, id) && KindOf(ObjectOf(w, c, id)) == kind
  }

  predicate Granted(w: World, c: ConnectionId, needed: Capability) {
    c in w.clients && needed in w.clients[c].capabilities
  }

  /** There is room for another object, and this identifier is one a client may give and nobody has. */
  predicate HasRoom(w: World, c: ConnectionId, id: ObjectId) {
    && c in w.clients && |w.clients[c].registry.live| < w.limits.maxObjects
    && 2 <= id && id !in w.clients[c].registry.used
  }

  /** How many objects of a kind a client has. */
  function Owned(w: World, c: ConnectionId, kind: Kind): nat
    requires c in w.clients
  {
    |set id | id in w.clients[c].registry.live && KindOf(w.clients[c].registry.live[id]) == kind|
  }

  /** A session that is awake, on a seat that is, if it is on one. */
  predicate Awake(w: World, c: ConnectionId, session: ObjectId) {
    && IsLive(w, c, session) && ObjectOf(w, c, session).SessionObject? && ObjectOf(w, c, session).sessionActive
    && var seat := ObjectOf(w, c, session).seat;
       seat.None? || (IsLive(w, c, seat.value) && ObjectOf(w, c, seat.value) == SeatObject(true))
  }

  predicate MayCreateSurface(w: World, c: ConnectionId, id: ObjectId) {
    && Granted(w, c, SurfaceCreate) && w.clients[c].session.Some? && Awake(w, c, w.clients[c].session.value)
    && Owned(w, c, Surface) < w.limits.maxSurfaces && HasRoom(w, c, id)
  }

  /** A buffer counts against two limits, of buffers and of what clients pass in. */
  predicate MayHaveBuffer(w: World, c: ConnectionId, id: ObjectId) {
    && Granted(w, c, BufferImport) && Owned(w, c, Buffer) < w.limits.maxBuffers
    && Owned(w, c, Buffer) < w.limits.maxImportedHandles && HasRoom(w, c, id)
  }

  predicate MayAttach(w: World, c: ConnectionId, surface: ObjectId, buffer: ObjectId, fence: Option<ObjectId>) {
    && IsLive(w, c, surface) && ObjectOf(w, c, surface).SurfaceObject?
    && ObjectOf(w, c, surface).state.attachment.Unchanged?
    && if buffer == 0 then fence.None?
       else && IsLive(w, c, buffer) && ObjectOf(w, c, buffer).BufferObject? && ObjectOf(w, c, buffer).held.Available?
            && (fence.Some? ==> Granted(w, c, ExplicitGpuFence) && IsOf(w, c, fence.value, Fence))
  }

  /** No window of the client's is over this surface. */
  predicate Roleless(w: World, c: ConnectionId, surface: ObjectId) {
    c in w.clients && forall id | id in w.clients[c].registry.live ::
      w.clients[c].registry.live[id].ToplevelObject? ==> w.clients[c].registry.live[id].surface != surface
  }

  predicate MayBind(w: World, c: ConnectionId, name: nat, version: nat, id: ObjectId) {
    && HasRoom(w, c, id) && name in w.globals && 1 <= version <= w.globals[name].version
    && (w.globals[name].kind.ShellControlKind? ==> Granted(w, c, ShellControl))
    && (w.globals[name].kind.Shortcuts? ==> Granted(w, c, ShortcutControl))
    && (w.globals[name].kind.InputMethod? ==> Granted(w, c, InputMethodControl) && w.inputMethod.None?)
  }

  /** A shell with the grant named a live window over a live surface. */
  predicate Commands(w: World, c: ConnectionId, handle: nat) {
    && Granted(w, c, ShellControl) && handle in w.toplevels
    && var window := w.toplevels[handle];
       IsLive(w, window.connection, window.objectId) && ObjectOf(w, window.connection, window.objectId).ToplevelObject?
  }

  function Commanded(w: World, handle: nat): SurfaceKey
    requires handle in w.toplevels
    requires var window := w.toplevels[handle];
             IsLive(w, window.connection, window.objectId) && ObjectOf(w, window.connection, window.objectId).ToplevelObject?
  {
    var window := w.toplevels[handle];
    SurfaceKey(window.connection, ObjectOf(w, window.connection, window.objectId).surface)
  }

  /** A surface that shows something, has a place and belongs to a session that is awake. */
  predicate TakesKeys(w: World, k: SurfaceKey) {
    && IsLive(w, k.connection, k.objectId) && ObjectOf(w, k.connection, k.objectId).SurfaceObject?
    && ObjectOf(w, k.connection, k.objectId).state.current.Some? && k in w.positions
    && Awake(w, k.connection, ObjectOf(w, k.connection, k.objectId).state.session)
  }

  /** Whether a request is accepted. */
  predicate May(w: World, c: ConnectionId, r: Request) {
    match r
    case GetPointer(seat, id) => IsOf(w, c, seat, Seat) && HasRoom(w, c, id)
    case GetKeyboard(seat, id) => IsOf(w, c, seat, Seat) && HasRoom(w, c, id)
    case CreateRegistry(id) => HasRoom(w, c, id)
    case Bind(name, version, id) => MayBind(w, c, name, version, id)
    case CreatePool(id) =>
      Granted(w, c, BufferImport) && Owned(w, c, ShmPool) < w.limits.maxImportedHandles && HasRoom(w, c, id)
    case CreateSurface(id) => MayCreateSurface(w, c, id)
    case CreateBuffer(id, pool, fits) => MayHaveBuffer(w, c, id) && IsOf(w, c, pool, ShmPool) && fits
    case ImportBuffer(id, transport, wellFormed) => MayHaveBuffer(w, c, id) && Granted(w, c, transport) && wellFormed
    case Attach(surface, buffer, _, fence) => MayAttach(w, c, surface, buffer, fence)
    case Commit(surface) => IsOf(w, c, surface, Surface) && w.nextCommit != 0xFFFF_FFFF_FFFF_FFFF
    case RequestFrame(surface) => IsOf(w, c, surface, Surface) && !ObjectOf(w, c, surface).state.frameRequested
    case GetToplevel(surface, id) =>
      && IsOf(w, c, surface, Surface) && Roleless(w, c, surface) && Owned(w, c, Toplevel) < w.limits.maxSurfaces
      && w.nextHandle != 0xFFFF_FFFF_FFFF_FFFF && HasRoom(w, c, id)
    case SetTitle(toplevel) => IsOf(w, c, toplevel, Toplevel)
    case EnableText(input, _) => IsOf(w, c, input, TextInput) && |w.fields| < 256
    case DisableText(input) => IsOf(w, c, input, TextInput)
    case SendText(composer, _) => IsOf(w, c, composer, InputMethod)
    case RegisterShortcut(manager, _, chord) => IsOf(w, c, manager, Shortcuts) && |w.shortcuts| < 256 && chord !in w.shortcuts
    case UnregisterShortcut(manager, _) => IsOf(w, c, manager, Shortcuts)
    case ShellPlace(_, handle, _) =>
      Commands(w, c, handle) && IsOf(w, Commanded(w, handle).connection, Commanded(w, handle).objectId, Surface)
    case ShellRaise(_, handle) =>
      Commands(w, c, handle) && IsOf(w, Commanded(w, handle).connection, Commanded(w, handle).objectId, Surface)
    case ShellFocus(_, seat, handle) => seat == 1 && Commands(w, c, handle) && TakesKeys(w, Commanded(w, handle))
    case ShellClose(_, handle) => Commands(w, c, handle)
    case Destroy(target) =>
      && IsLive(w, c, target) && target != 1
      && (ObjectOf(w, c, target).BufferObject? ==> ObjectOf(w, c, target).held.Available?)
    case Unknown(_) => false
  }

  // ----- each check -----

  lemma RoomIff(w: World, c: ConnectionId, id: ObjectId)
    ensures AllocationRefused(w, c, id).None? <==> HasRoom(w, c, id)
  {
  }

  lemma QuotaIff(w: World, c: ConnectionId, kind: Kind)
    ensures CheckQuota(w, c, kind).None? <==> c in w.clients && Owned(w, c, kind) < KindLimit(w.limits, kind)
  {
    if c in w.clients {
      assert Counted(w.clients[c].registry.live, kind)
             == set id | id in w.clients[c].registry.live && KindOf(w.clients[c].registry.live[id]) == kind;
    }
  }

  lemma AwakeIff(w: World, c: ConnectionId, session: ObjectId)
    ensures ExpectActiveSession(w, c, session).None? <==> Awake(w, c, session)
  {
  }

  lemma SurfaceIff(w: World, c: ConnectionId, id: ObjectId)
    ensures SurfaceRefused(w, c, id).None? <==> MayCreateSurface(w, c, id)
  {
    RoomIff(w, c, id);
    QuotaIff(w, c, Surface);
    if c in w.clients && w.clients[c].session.Some? {
      AwakeIff(w, c, w.clients[c].session.value);
    }
  }

  lemma BufferIff(w: World, c: ConnectionId, id: ObjectId)
    ensures CheckQuota(w, c, Buffer).None? && Granted(w, c, BufferImport) && AllocationRefused(w, c, id).None?
            <==> MayHaveBuffer(w, c, id)
  {
    RoomIff(w, c, id);
    QuotaIff(w, c, Buffer);
  }

  lemma RoleIff(w: World, c: ConnectionId, surface: ObjectId)
    requires c in w.clients
    ensures HasRole(w, c, surface) <==> !Roleless(w, c, surface)
  {
  }

  lemma WindowIff(w: World, c: ConnectionId, surface: ObjectId, id: ObjectId)
    ensures First(WindowRefused(w, c, surface, id), AllocationRefused(w, c, id)).None? <==> May(w, c, GetToplevel(surface, id))
  {
    RoomIff(w, c, id);
    QuotaIff(w, c, Toplevel);
    if c in w.clients {
      RoleIff(w, c, surface);
    }
  }

  lemma BindIff(w: World, c: ConnectionId, name: nat, version: nat, id: ObjectId)
    ensures First(BindRefused(w, c, name, version, id), AllocationRefused(w, c, id)).None? <==> MayBind(w, c, name, version, id)
  {
    RoomIff(w, c, id);
  }

  lemma KeysIff(w: World, k: SurfaceKey)
    ensures Focusable(w, k).None? <==> TakesKeys(w, k)
  {
    if IsLive(w, k.connection, k.objectId) && ObjectOf(w, k.connection, k.objectId).SurfaceObject? {
      AwakeIff(w, k.connection, ObjectOf(w, k.connection, k.objectId).state.session);
    }
  }

  lemma CommandsIff(w: World, c: ConnectionId, handle: nat)
    ensures ShellSurface(w, c, handle).Ok? <==> Commands(w, c, handle)
    ensures Commands(w, c, handle) ==> ShellSurface(w, c, handle) == Ok(Commanded(w, handle))
  {
  }

  /** The identifier a request gives a new object. */
  function NewId(r: Request): Option<ObjectId> {
    match r
    case GetPointer(_, id) => Some(id)
    case GetKeyboard(_, id) => Some(id)
    case CreateRegistry(id) => Some(id)
    case Bind(_, _, id) => Some(id)
    case CreatePool(id) => Some(id)
    case CreateSurface(id) => Some(id)
    case CreateBuffer(id, _, _) => Some(id)
    case ImportBuffer(id, _, _) => Some(id)
    case GetToplevel(_, id) => Some(id)
    case _ => None
  }

  lemma CreationIff(w: World, c: ConnectionId, r: Request)
    requires NewId(r).Some?
    ensures Refusal(w, c, r).None? <==> May(w, c, r)
  {
    RoomIff(w, c, NewId(r).value);
    match r {
      case Bind(name, version, id) => BindIff(w, c, name, version, id);
      case CreatePool(_) => QuotaIff(w, c, ShmPool);
      case CreateSurface(id) => SurfaceIff(w, c, id);
      case CreateBuffer(id, _, _) => BufferIff(w, c, id);
      case ImportBuffer(id, _, _) => BufferIff(w, c, id);
      case GetToplevel(surface, id) => WindowIff(w, c, surface, id);
      case _ =>
    }
  }

  lemma ShellIff(w: World, c: ConnectionId, r: Request)
    requires r.ShellPlace? || r.ShellRaise? || r.ShellFocus? || r.ShellClose?
    ensures Refusal(w, c, r).None? <==> May(w, c, r)
  {
    CommandsIff(w, c, r.handle);
    if r.ShellFocus? && Commands(w, c, r.handle) {
      KeysIff(w, Commanded(w, r.handle));
    }
  }

  /** A request is accepted exactly when the client may make it. */
  lemma RefusalIff(w: World, c: ConnectionId, r: Request)
    ensures Refusal(w, c, r).None? <==> May(w, c, r)
  {
    if NewId(r).Some? {
      CreationIff(w, c, r);
    } else if r.ShellPlace? || r.ShellRaise? || r.ShellFocus? || r.ShellClose? {
      ShellIff(w, c, r);
    }
  }

  // ----- what a refusal says -----

  /** Some limit is reached: of objects, of objects of one kind, of chords or fields, or of numbers. */
  predicate AtSomeLimit(w: World, c: ConnectionId)
    requires c in w.clients
  {
    || |w.clients[c].registry.live| >= w.limits.maxObjects || Owned(w, c, Surface) >= w.limits.maxSurfaces
    || Owned(w, c, Toplevel) >= w.limits.maxSurfaces || Owned(w, c, Buffer) >= w.limits.maxBuffers
    || Owned(w, c, Buffer) >= w.limits.maxImportedHandles || Owned(w, c, ShmPool) >= w.limits.maxImportedHandles
    || |w.shortcuts| >= 256 || |w.fields| >= 256
    || w.nextCommit == 0xFFFF_FFFF_FFFF_FFFF || w.nextHandle == 0xFFFF_FFFF_FFFF_FFFF
  }

  /** An error tells the truth: an object that is not there is not, one of another kind is there, an
      identifier is reserved or taken, a grant is missing, a limit is reached. */
  predicate Truthful(w: World, c: ConnectionId, r: Request, e: StateError)
    requires c in w.clients
  {
    match e
    case ConnectionClosed => false
    case InvalidObject(id) => !IsLive(w, c, id)
    case WrongObjectType(id) => IsLive(w, c, id)
    case InvalidObjectId(id) => NewId(r) == Some(id) && id < 2
    case ObjectIdAlreadyUsed(id) => NewId(r) == Some(id) && id in w.clients[c].registry.used
    case UnknownOpcode(id) => r == Unknown(id) && IsLive(w, c, id)
    case UnsupportedCapability(_) =>
      || SurfaceCreate !in w.clients[c].capabilities || BufferImport !in w.clients[c].capabilities
      || (r.ImportBuffer? && r.transport !in w.clients[c].capabilities) || ExplicitGpuFence !in w.clients[c].capabilities
      || ShellControl !in w.clients[c].capabilities || ShortcutControl !in w.clients[c].capabilities
      || InputMethodControl !in w.clients[c].capabilities
    case QuotaExceeded(_) => AtSomeLimit(w, c)
    case InvalidState(_) => true
  }

  lemma QuotaTruthful(w: World, c: ConnectionId, r: Request, kind: Kind)
    requires c in w.clients && (kind.Surface? || kind.Toplevel? || kind.Buffer? || kind.ShmPool?)
    ensures CheckQuota(w, c, kind).Some? ==> Truthful(w, c, r, CheckQuota(w, c, kind).value)
  {
    QuotaIff(w, c, kind);
  }

  lemma RoomTruthful(w: World, c: ConnectionId, r: Request)
    requires c in w.clients && NewId(r).Some?
    ensures var e := AllocationRefused(w, c, NewId(r).value); e.Some? ==> Truthful(w, c, r, e.value)
  {
  }

  lemma KindTruthful(w: World, c: ConnectionId, r: Request, id: ObjectId, kind: Kind)
    requires c in w.clients
    ensures ExpectKind(w, c, id, kind).Some? ==> Truthful(w, c, r, ExpectKind(w, c, id, kind).value)
  {
  }

  lemma AwakeTruthful(w: World, c: ConnectionId, r: Request, session: ObjectId)
    requires c in w.clients
    ensures ExpectActiveSession(w, c, session).Some? ==> Truthful(w, c, r, ExpectActiveSession(w, c, session).value)
  {
    KindTruthful(w, c, r, session, Session);
    if ExpectKind(w, c, session, Session).None? && Lookup(w.clients, c, session).value.seat.Some? {
      KindTruthful(w, c, r, Lookup(w.clients, c, session).value.seat.value, Seat);
    }
  }

  lemma SurfaceTruthful(w: World, c: ConnectionId, r: Request)
    requires c in w.clients && r.CreateSurface? && Refusal(w, c, r).Some?
    ensures Truthful(w, c, r, Refusal(w, c, r).value)
  {
    RoomTruthful(w, c, r);
    QuotaTruthful(w, c, r, Surface);
    if w.clients[c].session.Some? {
      AwakeTruthful(w, c, r, w.clients[c].session.value);
    }
  }

  lemma BufferTruthful(w: World, c: ConnectionId, r: Request)
    requires c in w.clients && (r.CreateBuffer? || r.ImportBuffer?) && Refusal(w, c, r).Some?
    ensures Truthful(w, c, r, Refusal(w, c, r).value)
  {
    RoomTruthful(w, c, r);
    QuotaTruthful(w, c, r, Buffer);
    if r.CreateBuffer? {
      KindTruthful(w, c, r, r.pool, ShmPool);
    }
  }

  lemma WindowTruthful(w: World, c: ConnectionId, r: Request)
    requires c in w.clients && r.GetToplevel? && Refusal(w, c, r).Some?
    ensures Truthful(w, c, r, Refusal(w, c, r).value)
  {
    RoomTruthful(w, c, r);
    QuotaTruthful(w, c, r, Toplevel);
    KindTruthful(w, c, r, r.surface, Surface);
  }

  lemma CreationTruthful(w: World, c: ConnectionId, r: Request)
    requires c in w.clients && NewId(r).Some? && Refusal(w, c, r).Some?
    ensures Truthful(w, c, r, Refusal(w, c, r).value)
  {
    RoomTruthful(w, c, r);
    match r {
      case GetPointer(seat, _) => KindTruthful(w, c, r, seat, Seat);
      case GetKeyboard(seat, _) => KindTruthful(w, c, r, seat, Seat);
      case CreatePool(_) => QuotaTruthful(w, c, r, ShmPool);
      case CreateSurface(_) => SurfaceTruthful(w, c, r);
      case CreateBuffer(_, _, _) => BufferTruthful(w, c, r);
      case ImportBuffer(_, _, _) => BufferTruthful(w, c, r);
      case GetToplevel(_, _) => WindowTruthful(w, c, r);
      case _ =>
    }
  }

  lemma AttachTruthful(w: World, c: ConnectionId, r: Request)
    requires c in w.clients && r.Attach? && Refusal(w, c, r).Some?
    ensures Truthful(w, c, r, Refusal(w, c, r).value)
  {
    KindTruthful(w, c, r, r.surface, Surface);
    KindTruthful(w, c, r, r.buffer, Buffer);
    if r.fence.Some? {
      KindTruthful(w, c, r, r.fence.value, Fence);
    }
  }

  /** No refusal of a connected client says what is not so. */
  lemma RefusalTruthful(w: World, c: ConnectionId, r: Request)
    requires c in w.clients && Refusal(w, c, r).Some?
    ensures Truthful(w, c, r, Refusal(w, c, r).value)
  {
    if NewId(r).Some? {
      CreationTruthful(w, c, r);
    } else if r.Attach? {
      AttachTruthful(w, c, r);
    } else {
      match r {
        case Commit(surface) => KindTruthful(w, c, r, surface, Surface);
        case RequestFrame(surface) => KindTruthful(w, c, r, surface, Surface);
        case SetTitle(toplevel) => KindTruthful(w, c, r, toplevel, Toplevel);
        case EnableText(input, _) => KindTruthful(w, c, r, input, TextInput);
        case DisableText(input) => KindTruthful(w, c, r, input, TextInput);
        case SendText(composer, _) => KindTruthful(w, c, r, composer, InputMethod);
        case RegisterShortcut(manager, _, _) => KindTruthful(w, c, r, manager, Shortcuts);
        case UnregisterShortcut(manager, _) => KindTruthful(w, c, r, manager, Shortcuts);
        case _ =>
      }
    }
  }

  /** What a request may destroy, when accepted or when refused: what it asks to be destroyed, or the object
      of which it asked the impossible or for which it lacks a grant. */
  lemma DoomedIff(w: World, c: ConnectionId, r: Request, k: ObjectKey)
    ensures k in DoomedBy(w, c, r)
            <==> && c in w.clients && k.connection == c
                 && if May(w, c, r) then r == Destroy(k.objectId)
                    else Blames(Refusal(w, c, r), k.objectId)
  {
    RefusalIff(w, c, r);
    if Refusal(w, c, r).Some? {
      BlamesIff(Refusal(w, c, r).value, k.objectId);
    }
  }

  /** An error that says an object is not in the state, or its client without the grant, for what was asked. */
  predicate Blames(e: Option<StateError>, id: ObjectId) {
    e == Some(InvalidState(id)) || e == Some(UnsupportedCapability(id))
  }

  lemma BlamesIff(e: StateError, id: ObjectId)
    ensures Blames(Some(e), id) <==> CategoryOf(e) == ObjectError && ErrorObject(e) == id
  {
  }

  /** What an error costs: the connection where the client broke the protocol, the object where it asked
      the impossible of one or lacks a grant, and nothing where there is no room. */
  lemma ErrorCosts(e: StateError)
    ensures CategoryOf(e) == Resource <==> e.QuotaExceeded?
    ensures CategoryOf(e) == ObjectError <==> e.InvalidState? || e.UnsupportedCapability?
    ensures !e.ConnectionClosed? ==> ErrorObject(e) == e.id
  {
  }
}
