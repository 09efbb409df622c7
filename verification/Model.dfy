/** Identifiers shared by the compositor and the output that draws its scene. */
module Model {
  import opened Basics

  type ConnectionId = nat
  type ObjectId = u32
  type CommitId = nat

  const NULL_ID: ObjectId := 0
  const DISPLAY_ID: ObjectId := 1
  /** The one seat there is. */
  const THE_SEAT := 1

  datatype SurfaceKey = SurfaceKey(connection: ConnectionId, objectId: ObjectId)

  /** Any object of any connection, where it need not be a surface. */
  type ObjectKey = SurfaceKey

  datatype BufferState =
    | Available
    | Pending(surface: SurfaceKey)
    | CompositorHeld(surface: SurfaceKey, commit: CommitId)
}
