/** What clients may ask, and the checks made before anything changes, in the order they are made. */
module Requests {
  import opened Basics
  import opened Geometry
  import opened Model
  import opened Registry
  import opened World
  import opened Steps
  import opened Lifetimes
  import opened Destruction
  import opened Transitions

  datatype Request =
    | GetPointer(seat: ObjectId, id: ObjectId)
    | GetKeyboard(seat: ObjectId, id: ObjectId)
    | CreateRegistry(id: ObjectId)
    | Bind(name: nat, version: nat, id: ObjectId)
    | CreatePool(id: ObjectId)
    | CreateSurface(id: ObjectId)
    | CreateBuffer(id: ObjectId, pool: ObjectId, fits: bool)
    | ImportBuffer(id: ObjectId, transport: Capability, structurallyValid: bool)
    | Attach(surface: ObjectId, buffer: ObjectId, offset: Point, fence: Option<ObjectId>)
    | Commit(surface: ObjectId)
    | RequestFrame(surface: ObjectId)
    | GetToplevel(surface: ObjectId, id: ObjectId)
    | SetTitle(toplevel: ObjectId)
    | EnableText(input: ObjectId, composes: bool)
    | DisableText(input: ObjectId)
    | SendText(composer: ObjectId, composition: nat)
    | RegisterShortcut(manager: ObjectId, shortcut: nat, chord: Chord)
    | UnregisterShortcut(manager: ObjectId, shortcut: nat)
    | ShellPlace(control: ObjectId, handle: nat, position: Point)
    | ShellRaise(control: ObjectId, handle: nat)
    | ShellFocus(control: ObjectId, onSeat: nat, handle: nat)
    | ShellClose(control: ObjectId, handle: nat)
    | Destroy(target: ObjectId)
    | Unknown(target: ObjectId)

  datatype Category = Protocol | ObjectError | Resource

  function CategoryOf(e: StateError): Category {
    match e
    case InvalidState(_) => ObjectError
    case UnsupportedCapability(_) => ObjectError
    case QuotaExceeded(_) => Resource
    case _ => Protocol
  }

  function ErrorObject(e: StateError): ObjectId {
    match e
    case ConnectionClosed => DISPLAY_ID
    case _ => e.id
  }

  // ----- checks -----

  function ExpectAny(w: World, c: ConnectionId, id: ObjectId): (e: Option<StateError>)
    ensures e.None? <==> Lookup(w.clients, c, id).Some?
  {
    if c !in w.clients then Some(ConnectionClosed)
    else if id !in w.clients[c].registry.live then Some(InvalidObject(id))
    else None
  }

  function ExpectKind(w: World, c: ConnectionId, id: ObjectId, kind: Kind): (e: Option<StateError>)
    ensures e.None? <==> Lookup(w.clients, c, id).Some? && KindOf(Lookup(w.clients, c, id).value) == kind
  {
    if ExpectAny(w, c, id).Some? then ExpectAny(w, c, id)
    else if KindOf(Lookup(w.clients, c, id).value) != kind then Some(WrongObjectType(id))
    else None
  }

  function RequireCapability(w: World, c: ConnectionId, id: ObjectId, needed: Capability): (e: Option<StateError>)
    ensures e.None? <==> c in w.clients && needed in w.clients[c].capabilities
  {
    if c !in w.clients then Some(ConnectionClosed)
    else if needed in w.clients[c].capabilities then None
    else Some(UnsupportedCapability(id))
  }

  function KindLimit(limits: Limits, kind: Kind): nat {
    match kind
    case Surface => limits.maxSurfaces
    case Toplevel => limits.maxSurfaces
    case Buffer => if limits.maxBuffers < limits.maxImportedHandles then limits.maxBuffers else limits.maxImportedHandles
    case ShmPool => limits.maxImportedHandles
    case _ => limits.maxObjects
  }

  function Counted(live: map<ObjectId, Object>, kind: Kind): (ids: set<ObjectId>)
    ensures ids <= live.Keys
  {
    set id | id in live && KindOf(live[id]) == kind
  }

  function CheckQuota(w: World, c: ConnectionId, kind: Kind): Option<StateError> {
    if c !in w.clients then Some(ConnectionClosed)
    else if |Counted(w.clients[c].registry.live, kind)| >= KindLimit(w.limits, kind) then Some(QuotaExceeded(DISPLAY_ID))
    else None
  }

  /** Why `allocate_client` refuses, if it does. */
  function AllocationRefused(w: World, c: ConnectionId, id: ObjectId): (e: Option<StateError>)
    ensures e.None? ==> c in w.clients && id !in w.clients[c].registry.used
  {
    if c !in w.clients then Some(ConnectionClosed)
    else if |w.clients[c].registry.live| >= w.limits.maxObjects then Some(QuotaExceeded(id))
    else if id < FIRST_CLIENT_ID then Some(StateError.InvalidObjectId(id))
    else if id in w.clients[c].registry.used then Some(StateError.ObjectIdAlreadyUsed(id))
    else None
  }

  /** `Born` is what the registry's own allocation does. With room for another object it is refused
      exactly when the registry refuses, and with the same error; without room it always is. */
  lemma BornAllocates(w: World, k: ObjectKey, o: Object)
    requires k.connection in w.clients
    ensures var registry := w.clients[k.connection].registry;
            var refused := AllocationRefused(w, k.connection, k.objectId);
            match Allocate(registry, k.objectId, o)
            case Ok(after) => after == Born(w, k, o).clients[k.connection].registry
                              && (refused.None? <==> |registry.live| < w.limits.maxObjects)
            case Err(InvalidObjectId) => |registry.live| < w.limits.maxObjects ==>
                                           refused == Some(StateError.InvalidObjectId(k.objectId))
            case Err(ObjectIdAlreadyUsed) => |registry.live| < w.limits.maxObjects ==>
                                               refused == Some(StateError.ObjectIdAlreadyUsed(k.objectId))
  {
  }

  function ExpectActiveSession(w: World, c: ConnectionId, session: ObjectId): Option<StateError> {
    if ExpectKind(w, c, session, Session).Some? then ExpectKind(w, c, session, Session)
    else
      var state := Lookup(w.clients, c, session).value;
      if !state.sessionActive then Some(InvalidState(session))
      else if state.seat.None? then None
      else if ExpectKind(w, c, state.seat.value, Seat).Some? then ExpectKind(w, c, state.seat.value, Seat)
      else if !Lookup(w.clients, c, state.seat.value).value.seatActive then Some(InvalidState(session))
      else None
  }

  /** Whether an identifier may be taken depends on the connection's own objects and the limits. */
  lemma AllocationDepends(w: World, v: World, c: ConnectionId, id: ObjectId)
    requires v.limits == w.limits
    requires c in v.clients ==> c in w.clients && v.clients[c].registry == w.clients[c].registry
    ensures AllocationRefused(v, c, id) == if c in v.clients then AllocationRefused(w, c, id) else Some(ConnectionClosed)
  {
  }

  /** One session for each connection, on a seat of its own if it names one. */
  function SessionRefused(w: World, c: ConnectionId, id: ObjectId, seat: Option<ObjectId>): (e: Option<StateError>)
    ensures e.None? ==> AllocationRefused(w, c, id).None? && w.clients[c].session.None?
  {
    if seat.Some? && ExpectKind(w, c, seat.value, Seat).Some? then ExpectKind(w, c, seat.value, Seat)
    else if c !in w.clients then Some(ConnectionClosed)
    else if w.clients[c].session.Some? then Some(InvalidState(id))
    else AllocationRefused(w, c, id)
  }

  function FenceRefused(w: World, c: ConnectionId, id: ObjectId): (e: Option<StateError>)
    ensures e.None? ==> AllocationRefused(w, c, id).None?
  {
    if RequireCapability(w, c, id, ExplicitGpuFence).Some? then RequireCapability(w, c, id, ExplicitGpuFence)
    else AllocationRefused(w, c, id)
  }

  /** Whether a surface may hold the keyboard: mapped, and of an active session. */
  function Focusable(w: World, k: SurfaceKey): (e: Option<StateError>)
    ensures e.None? ==> HasContent(w.clients, k) && k in w.positions
  {
    if ExpectKind(w, k.connection, k.objectId, Surface).Some? then ExpectKind(w, k.connection, k.objectId, Surface)
    else if SurfaceOf(w.clients, k).value.current.None? || k !in w.positions then Some(InvalidState(k.objectId))
    else ExpectActiveSession(w, k.connection, SurfaceOf(w.clients, k).value.session)
  }

  /** Why a surface may not be created, if it may not. */
  function SurfaceRefused(w: World, c: ConnectionId, id: ObjectId): (e: Option<StateError>)
    ensures e.None? ==> c in w.clients && w.clients[c].session.Some? && AllocationRefused(w, c, id).None?
  {
    if RequireCapability(w, c, id, SurfaceCreate).Some? then RequireCapability(w, c, id, SurfaceCreate)
    else if w.clients[c].session.None? then Some(InvalidState(id))
    else if ExpectActiveSession(w, c, w.clients[c].session.value).Some? then
      ExpectActiveSession(w, c, w.clients[c].session.value)
    else if CheckQuota(w, c, Surface).Some? then CheckQuota(w, c, Surface)
    else AllocationRefused(w, c, id)
  }

  /** Why a buffer may not be imported, if it may not. */
  function ImportRefused(w: World, c: ConnectionId, id: ObjectId, transport: Capability, wellFormed: bool)
    : (e: Option<StateError>)
    ensures e.None? ==> AllocationRefused(w, c, id).None?
  {
    if RequireCapability(w, c, id, BufferImport).Some? then RequireCapability(w, c, id, BufferImport)
    else if RequireCapability(w, c, id, transport).Some? then RequireCapability(w, c, id, transport)
    else if !wellFormed then Some(InvalidState(id))
    else if CheckQuota(w, c, Buffer).Some? then CheckQuota(w, c, Buffer)
    else AllocationRefused(w, c, id)
  }

  /** Why a buffer may not be carved out of a pool, if it may not. */
  function CarveRefused(w: World, c: ConnectionId, id: ObjectId, pool: ObjectId, fits: bool)
    : (e: Option<StateError>)
    ensures e.None? ==> AllocationRefused(w, c, id).None?
  {
    if RequireCapability(w, c, id, BufferImport).Some? then RequireCapability(w, c, id, BufferImport)
    else if ExpectKind(w, c, pool, ShmPool).Some? then ExpectKind(w, c, pool, ShmPool)
    else if !fits then Some(InvalidState(id))
    else if CheckQuota(w, c, Buffer).Some? then CheckQuota(w, c, Buffer)
    else AllocationRefused(w, c, id)
  }

  function PoolRefused(w: World, c: ConnectionId, id: ObjectId): (e: Option<StateError>)
    ensures e.None? ==> AllocationRefused(w, c, id).None?
  {
    if RequireCapability(w, c, id, BufferImport).Some? then RequireCapability(w, c, id, BufferImport)
    else if CheckQuota(w, c, ShmPool).Some? then CheckQuota(w, c, ShmPool)
    else AllocationRefused(w, c, id)
  }

  /** Why an attach is refused, if it is: a second one before a commit, a fence without a buffer,
      something that is not a buffer or a fence, or a buffer that somebody has. */
  function AttachRefused(w: World, c: ConnectionId, surface: ObjectId, buffer: ObjectId, fence: Option<ObjectId>)
    : (e: Option<StateError>)
    ensures e.None? ==> SurfaceOf(w.clients, SurfaceKey(c, surface)).Some?
    ensures e.None? ==> SurfaceOf(w.clients, SurfaceKey(c, surface)).value.attachment.Unchanged?
    ensures e.None? && buffer != NULL_ID ==> LiveBuffer(w.clients, c, buffer)
                                             && Lookup(w.clients, c, buffer).value.held.Available?
    ensures e.None? && buffer != NULL_ID && fence.Some? ==> LiveFence(w.clients, c, fence.value)
  {
    if ExpectKind(w, c, surface, Surface).Some? then ExpectKind(w, c, surface, Surface)
    else if !SurfaceOf(w.clients, SurfaceKey(c, surface)).value.attachment.Unchanged? then Some(InvalidState(surface))
    else if buffer == NULL_ID then (if fence.Some? then Some(InvalidState(surface)) else None)
    else if ExpectKind(w, c, buffer, Buffer).Some? then ExpectKind(w, c, buffer, Buffer)
    else if fence.Some? && RequireCapability(w, c, surface, ExplicitGpuFence).Some? then
      RequireCapability(w, c, surface, ExplicitGpuFence)
    else if fence.Some? && ExpectKind(w, c, fence.value, Fence).Some? then ExpectKind(w, c, fence.value, Fence)
    else if !Lookup(w.clients, c, buffer).value.held.Available? then Some(InvalidState(buffer))
    else None
  }

  /** The window over a surface, if it has one. */
  predicate HasRole(w: World, c: ConnectionId, surface: ObjectId) {
    c in w.clients && exists id | id in w.clients[c].registry.live ::
      w.clients[c].registry.live[id].ToplevelObject? && w.clients[c].registry.live[id].surface == surface
  }

  lemma NoRole(w: World, c: ConnectionId, surface: ObjectId)
    requires c in w.clients && !HasRole(w, c, surface)
    ensures forall l | IsToplevel(w.clients, l) && l.connection == c :: WindowSurface(w.clients, l) != surface
  {
    forall l | IsToplevel(w.clients, l) && l.connection == c ensures WindowSurface(w.clients, l) != surface {
      assert l.objectId in w.clients[c].registry.live;
    }
  }

  /** Why a surface may not become a window, before a handle is spent on it. */
  function WindowRefused(w: World, c: ConnectionId, surface: ObjectId, id: ObjectId): (e: Option<StateError>)
    ensures e.None? ==> SurfaceOf(w.clients, SurfaceKey(c, surface)).Some? && !HasRole(w, c, surface)
  {
    if ExpectKind(w, c, surface, Surface).Some? then ExpectKind(w, c, surface, Surface)
    else if HasRole(w, c, surface) then Some(InvalidState(surface))
    else if CheckQuota(w, c, Toplevel).Some? then CheckQuota(w, c, Toplevel)
    else if w.nextHandle == U64_MAX then Some(QuotaExceeded(id))
    else None
  }

  const MAX_SHORTCUTS := 256
  const MAX_TEXT_FIELDS := 256

  function ClaimRefused(w: World, c: ConnectionId, manager: ObjectId, chord: Chord): Option<StateError> {
    if ExpectKind(w, c, manager, Shortcuts).Some? then ExpectKind(w, c, manager, Shortcuts)
    else if |w.shortcuts| >= MAX_SHORTCUTS then Some(QuotaExceeded(manager))
    else if chord in w.shortcuts then Some(InvalidState(manager))
    else None
  }

  function FieldRefused(w: World, c: ConnectionId, input: ObjectId): Option<StateError> {
    if ExpectKind(w, c, input, TextInput).Some? then ExpectKind(w, c, input, TextInput)
    else if |w.fields| >= MAX_TEXT_FIELDS then Some(QuotaExceeded(input))
    else None
  }

  // ----- shells -----

  datatype ShellError = NotGranted | UnknownHandle | UnknownSeat

  /** `shell_target`: the grant is asked for before the handle is looked up. */
  function ShellTarget(w: World, shell: ConnectionId, handle: nat): Result<ObjectKey, ShellError> {
    if !(shell in w.clients && ShellControl in w.clients[shell].capabilities) then Err(NotGranted)
    else if handle in w.toplevels then Ok(w.toplevels[handle])
    else Err(UnknownHandle)
  }

  function ShellRefusal(e: ShellError, control: ObjectId): StateError {
    if e.NotGranted? then UnsupportedCapability(control) else InvalidState(control)
  }

  /** The surface of the window a shell named. */
  function ShellSurface(w: World, shell: ConnectionId, handle: nat): (r: Result<SurfaceKey, ShellError>)
    ensures r.Ok? ==> handle in w.toplevels && IsToplevel(w.clients, w.toplevels[handle])
                      && r.value == SurfaceKey(w.toplevels[handle].connection, WindowSurface(w.clients, w.toplevels[handle]))
  {
    var target := ShellTarget(w, shell, handle);
    if target.Err? then Err(target.error)
    else if !IsToplevel(w.clients, target.value) then Err(UnknownHandle)
    else Ok(SurfaceKey(target.value.connection, WindowSurface(w.clients, target.value)))
  }

  /** A program without the grant cannot tell one set of windows from another. */
  lemma UngrantedLearnsNothing(w: World, v: World, shell: ConnectionId, handle: nat, other: nat)
    requires !(shell in w.clients && ShellControl in w.clients[shell].capabilities)
    requires v.clients == w.clients
    ensures ShellTarget(w, shell, handle) == ShellTarget(v, shell, other)
    ensures ShellSurface(w, shell, handle) == ShellSurface(v, shell, other)
  {
  }

  /** What revoking a capability destroys. */
  predicate RequiresGrant(o: Object, revoked: Capability) {
    || (o.SurfaceObject? && revoked.SurfaceCreate?)
    || (o.BufferObject? && (revoked.BufferImport? || o.transport == revoked))
    || (o.FenceObject? && revoked.ExplicitGpuFence?)
    || (o == Plain(InputStream) && revoked.ExtendedInput?)
    || (o.SessionObject? && revoked.PrivilegedSession?)
    || (o.SeatObject? && revoked.RevocableSeat?)
  }

  // ----- what a request comes to -----

  /** `bind_global`: why it is refused before anything changes. */
  function BindRefused(w: World, c: ConnectionId, name: nat, version: nat, id: ObjectId): (e: Option<StateError>)
    ensures e.None? ==> name in w.globals && c in w.clients
  {
    if c !in w.clients then Some(ConnectionClosed)
    else if name !in w.globals || version == 0 || version > w.globals[name].version then Some(InvalidState(id))
    else if w.globals[name].kind.ShellControlKind? && ShellControl !in w.clients[c].capabilities then
      Some(UnsupportedCapability(id))
    else if w.globals[name].kind.Shortcuts? && ShortcutControl !in w.clients[c].capabilities then
      Some(UnsupportedCapability(id))
    else if w.globals[name].kind.InputMethod? && InputMethodControl !in w.clients[c].capabilities then
      Some(UnsupportedCapability(id))
    else if w.globals[name].kind.InputMethod? && w.inputMethod.Some? then Some(InvalidState(id))
    else None
  }

  /** What a bound global becomes: a seat, or an object that holds nothing. */
  predicate BindableKind(kind: Kind) {
    kind.Seat? || PlainOf(kind)
  }

  function Bound(kind: Kind): Object
    requires BindableKind(kind)
  {
    if kind.Seat? then SeatObject(true) else Plain(kind)
  }

  function CommitRefused(w: World, c: ConnectionId, surface: ObjectId): (e: Option<StateError>)
    ensures e.None? ==> SurfaceOf(w.clients, SurfaceKey(c, surface)).Some?
  {
    if w.nextCommit == U64_MAX then Some(QuotaExceeded(surface)) else ExpectKind(w, c, surface, Surface)
  }

  function FrameRefused(w: World, c: ConnectionId, surface: ObjectId): (e: Option<StateError>)
    ensures e.None? ==> SurfaceOf(w.clients, SurfaceKey(c, surface)).Some?
  {
    if ExpectKind(w, c, surface, Surface).Some? then ExpectKind(w, c, surface, Surface)
    else if SurfaceOf(w.clients, SurfaceKey(c, surface)).value.frameRequested then Some(InvalidState(surface))
    else None
  }

  /** Not the display, and not a buffer somebody has. */
  function DestroyRefused(w: World, c: ConnectionId, target: ObjectId): (e: Option<StateError>)
    ensures e.None? <==> && target != DISPLAY_ID && Lookup(w.clients, c, target).Some?
                         && (LiveBuffer(w.clients, c, target) ==> Lookup(w.clients, c, target).value.held.Available?)
  {
    if target == DISPLAY_ID then Some(InvalidState(target))
    else if ExpectAny(w, c, target).Some? then ExpectAny(w, c, target)
    else if LiveBuffer(w.clients, c, target) && !Lookup(w.clients, c, target).value.held.Available? then
      Some(InvalidState(target))
    else None
  }

  /** Why a shell may not place or raise a window. */
  function ArrangeRefused(w: World, c: ConnectionId, control: ObjectId, handle: nat): (e: Option<StateError>)
    ensures e.None? ==> ShellSurface(w, c, handle).Ok? && SurfaceOf(w.clients, ShellSurface(w, c, handle).value).Some?
  {
    var r := ShellSurface(w, c, handle);
    if r.Err? then Some(ShellRefusal(r.error, control))
    else if SurfaceOf(w.clients, r.value).None? then Some(ShellRefusal(UnknownHandle, control))
    else None
  }

  function ShellFocusRefused(w: World, c: ConnectionId, control: ObjectId, seat: nat, handle: nat): (e: Option<StateError>)
    ensures e.None? ==> ShellSurface(w, c, handle).Ok? && Focusable(w, ShellSurface(w, c, handle).value).None?
  {
    if seat != THE_SEAT then Some(ShellRefusal(UnknownSeat, control))
    else
      var r := ShellSurface(w, c, handle);
      if r.Err? then Some(ShellRefusal(r.error, control))
      else if Focusable(w, r.value).Some? then Some(ShellRefusal(UnknownHandle, control))
      else None
  }

  function ShellCloseRefused(w: World, c: ConnectionId, control: ObjectId, handle: nat): (e: Option<StateError>)
    ensures e.None? ==> ShellSurface(w, c, handle).Ok?
  {
    var r := ShellSurface(w, c, handle);
    if r.Err? then Some(ShellRefusal(r.error, control)) else None
  }

  function First(a: Option<StateError>, b: Option<StateError>): Option<StateError> {
    if a.Some? then a else b
  }

  /** Why a request is refused, if it is: decided by the state it finds. */
  function Refusal(w: World, c: ConnectionId, r: Request): Option<StateError> {
    match r
    case GetPointer(seat, id) => First(ExpectKind(w, c, seat, Seat), AllocationRefused(w, c, id))
    case GetKeyboard(seat, id) => First(ExpectKind(w, c, seat, Seat), AllocationRefused(w, c, id))
    case CreateRegistry(id) => AllocationRefused(w, c, id)
    case Bind(name, version, id) => First(BindRefused(w, c, name, version, id), AllocationRefused(w, c, id))
    case CreatePool(id) => PoolRefused(w, c, id)
    case CreateSurface(id) => SurfaceRefused(w, c, id)
    case CreateBuffer(id, pool, fits) => CarveRefused(w, c, id, pool, fits)
    case ImportBuffer(id, transport, wellFormed) => ImportRefused(w, c, id, transport, wellFormed)
    case Attach(surface, buffer, _, fence) => AttachRefused(w, c, surface, buffer, fence)
    case Commit(surface) => CommitRefused(w, c, surface)
    case RequestFrame(surface) => FrameRefused(w, c, surface)
    case GetToplevel(surface, id) => First(WindowRefused(w, c, surface, id), AllocationRefused(w, c, id))
    case SetTitle(toplevel) => ExpectKind(w, c, toplevel, Toplevel)
    case EnableText(input, _) => FieldRefused(w, c, input)
    case DisableText(input) => ExpectKind(w, c, input, TextInput)
    case SendText(composer, _) => ExpectKind(w, c, composer, InputMethod)
    case RegisterShortcut(manager, _, chord) => ClaimRefused(w, c, manager, chord)
    case UnregisterShortcut(manager, _) => ExpectKind(w, c, manager, Shortcuts)
    case ShellPlace(control, handle, _) => ArrangeRefused(w, c, control, handle)
    case ShellRaise(control, handle) => ArrangeRefused(w, c, control, handle)
    case ShellFocus(control, seat, handle) => ShellFocusRefused(w, c, control, seat, handle)
    case ShellClose(control, handle) => ShellCloseRefused(w, c, control, handle)
    case Destroy(target) => DestroyRefused(w, c, target)
    case Unknown(target) => First(ExpectAny(w, c, target), Some(UnknownOpcode(target)))
  }

  /** What a commit carries: what was attached, or what is already shown. */
  function Carried(s: SurfaceState): Option<(ObjectId, Point)> {
    match s.attachment
    case Set(b, offset) => Some((b, offset))
    case Unchanged => if s.current.Some? then Some((s.current.value.buffer, s.current.value.offset)) else None
    case Detach => None
  }

  /** What an accepted commit makes of the state, unless it takes away what is shown: that first
      releases a buffer. */
  function CommitAccepted(w: World, k: SurfaceKey): Option<World>
    requires SurfaceOf(w.clients, k).Some?
  {
    var s := SurfaceOf(w.clients, k).value;
    if Carried(s).Some? then
      if LiveBuffer(w.clients, k.connection, Carried(s).value.0)
      then Some(Committed(w, k, Carried(s).value.0, Carried(s).value.1)) else None
    else if s.current.None? then Some(Put(w, k, SurfaceObject(s.(attachment := Unchanged, acquireFence := None))))
    else None
  }

  function AttachAccepted(w: World, k: SurfaceKey, buffer: ObjectId, offset: Point, fence: Option<ObjectId>): World
    requires SurfaceOf(w.clients, k).Some? && (buffer != NULL_ID ==> LiveBuffer(w.clients, k.connection, buffer))
  {
    if buffer == NULL_ID then Put(w, k, SurfaceObject(SurfaceOf(w.clients, k).value.(attachment := Detach)))
    else Attached(w, k, buffer, offset, fence)
  }

  function RaiseAccepted(w: World, k: SurfaceKey): World {
    if HasContent(w.clients, k) then Raised(w, k) else w
  }

  /** What an accepted request makes of the state before anybody is told of it, where that is one
      change: not a bound input method, a moved focus, content taken away or a destruction. */
  function Accepted(w: World, c: ConnectionId, r: Request): Option<World>
    requires c in w.clients && Refusal(w, c, r).None?
  {
    match r
    case GetPointer(_, id) => Some(Born(w, SurfaceKey(c, id), Plain(Pointer)))
    case GetKeyboard(_, id) => Some(Born(w, SurfaceKey(c, id), Plain(Keyboard)))
    case CreateRegistry(id) => Some(Born(w, SurfaceKey(c, id), Plain(Kind.Registry)))
    case Bind(name, _, id) =>
      var kind := w.globals[name].kind;
      if !kind.InputMethod? && BindableKind(kind) then Some(Born(w, SurfaceKey(c, id), Bound(kind))) else None
    case CreatePool(id) => Some(Born(w, SurfaceKey(c, id), Plain(ShmPool)))
    case CreateSurface(id) =>
      Some(Born(w, SurfaceKey(c, id), SurfaceObject(SurfaceState(w.clients[c].session.value, Unchanged, None, None, false))))
    case CreateBuffer(id, _, _) => Some(Born(w, SurfaceKey(c, id), BufferObject(SoftwareShm, Available)))
    case ImportBuffer(id, transport, _) => Some(Born(w, SurfaceKey(c, id), BufferObject(transport, Available)))
    case Attach(surface, buffer, offset, fence) => Some(AttachAccepted(w, SurfaceKey(c, surface), buffer, offset, fence))
    case Commit(surface) => CommitAccepted(w, SurfaceKey(c, surface))
    case RequestFrame(surface) =>
      var k := SurfaceKey(c, surface);
      Some(Put(w, k, SurfaceObject(SurfaceOf(w.clients, k).value.(frameRequested := true))))
    case GetToplevel(surface, id) => Some(WindowBorn(w, SurfaceKey(c, id), surface))
    case SetTitle(_) => Some(w)
    case EnableText(input, composes) => Some(WithField(w, SurfaceKey(c, input), composes))
    case DisableText(input) => Some(WithoutField(w, SurfaceKey(c, input)))
    case SendText(_, _) => Some(w)
    case RegisterShortcut(manager, shortcut, chord) => Some(WithClaim(w, chord, Claim(c, manager, shortcut)))
    case UnregisterShortcut(_, shortcut) => Some(WithoutClaims(w, c, shortcut))
    case ShellPlace(_, handle, p) => Some(Placed(w, ShellSurface(w, c, handle).value, p))
    case ShellRaise(_, handle) => Some(RaiseAccepted(w, ShellSurface(w, c, handle).value))
    case ShellFocus(_, _, _) => None
    case ShellClose(_, _) => Some(w)
    case Destroy(_) => None
    case Unknown(_) => None
  }

  /** Requests nobody is told of. */
  predicate Quiet(r: Request) {
    || r.GetPointer? || r.GetKeyboard? || r.CreatePool? || r.CreateSurface? || r.CreateBuffer? || r.ImportBuffer?
    || r.Attach? || r.Commit? || r.RequestFrame? || r.RegisterShortcut? || r.UnregisterShortcut? || r.ShellPlace?
    || r.ShellRaise?
  }

  // ----- steps -----

  datatype Step =
    | Arrive(capabilities: set<Capability>, required: set<Capability>)
    | Leaves(client: ConnectionId)
    | Grants(client: ConnectionId, capability: Capability)
    | Revokes(client: ConnectionId, capability: Capability)
    | Drains
    | DrainsFor(client: ConnectionId)
    | Asks(client: ConnectionId, request: Request)
    | Presents(surface: SurfaceKey)
    | Releases(buffer: ObjectKey)
    | Places(surface: SurfaceKey, position: Point)
    | Raises(surface: SurfaceKey)
    | Focuses(focus: Option<SurfaceKey>)
    | Points(sizes: ObjectKey -> Size, at: Point)
    | Tells(client: ConnectionId, id: ObjectId)
    | Advertises(offered: Kind, version: nat)
    | Withdraws(name: nat)
    | Seats(key: ObjectKey, active: bool)
    | Sessions(key: ObjectKey, seat: Option<ObjectId>, active: bool)
    | Fences(key: ObjectKey)
    | Signals(key: ObjectKey)
    | Wakes(key: ObjectKey, active: bool)

  /** The objects a request takes that its client or the compositor may still be using: what it
      destroys when accepted, and what its refusal costs when that is an object. */
  function DoomedBy(w: World, c: ConnectionId, r: Request): set<ObjectKey> {
    if c !in w.clients then {}
    else match Refusal(w, c, r)
      case Some(e) => if CategoryOf(e) == ObjectError then {SurfaceKey(c, ErrorObject(e))} else {}
      case None => if r.Destroy? then {SurfaceKey(c, r.target)} else {}
  }

  /** The connection a refused request costs: that of a client that broke the protocol. */
  function ClosedBy(w: World, c: ConnectionId, r: Request): set<ConnectionId> {
    if c in w.clients && Refusal(w, c, r).Some? && CategoryOf(Refusal(w, c, r).value) == Protocol then {c} else {}
  }

  /** What revoking a capability takes. */
  function DoomedGrants(w: World, c: ConnectionId, taken: Capability): set<ObjectKey> {
    if c !in w.clients then {}
    else set id | id in w.clients[c].registry.live && RequiresGrant(w.clients[c].registry.live[id], taken)
           :: SurfaceKey(c, id)
  }

  /** The objects a step may destroy outright, read off the state before it. */
  function Doomed(w: World, step: Step): set<ObjectKey> {
    match step
    case Asks(c, r) => DoomedBy(w, c, r)
    case Revokes(c, taken) => DoomedGrants(w, c, taken)
    case _ => {}
  }

  /** The connections a step closes of its own accord, read off the state before it. */
  function Closing(w: World, step: Step): set<ConnectionId> {
    match step
    case Asks(c, r) => ClosedBy(w, c, r)
    case Leaves(c) => {c}
    case _ => {}
  }

  /** A stacked surface whose content a step takes: it shows a buffer the step destroys. */
  predicate Loses(w: World, step: Step, k: SurfaceKey) {
    ShowsOneOf(w.clients, k, Doomed(w, step))
  }
}
