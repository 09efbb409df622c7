/** Per-connection object allocation, lookup and creation order. */
module Registry {
  import opened Basics
  import opened Model

  const FIRST_CLIENT_ID: ObjectId := 2

  /** `used` outlives `live`: an identifier stays taken until its retirement was queued for the
      client. `order` only ever grows, so a reused identifier is in it more than once. */
  datatype Registry<T> = Registry(live: map<ObjectId, T>, used: set<ObjectId>, order: seq<ObjectId>)

  datatype AllocationError = InvalidObjectId | ObjectIdAlreadyUsed

  function New<T>(display: T): Registry<T> {
    Registry(map[DISPLAY_ID := display], {DISPLAY_ID}, [DISPLAY_ID])
  }

  /** `allocate_client`. */
  function Allocate<T>(r: Registry<T>, id: ObjectId, value: T): Result<Registry<T>, AllocationError> {
    if id < FIRST_CLIENT_ID then Err(InvalidObjectId)
    else if id in r.used then Err(ObjectIdAlreadyUsed)
    else Ok(Registry(r.live[id := value], r.used + {id}, r.order + [id]))
  }

  function Remove<T>(r: Registry<T>, id: ObjectId): Registry<T> {
    r.(live := r.live - {id})
  }

  /** `retire`: an identifier that is no longer live may be allocated again. */
  function Retire<T>(r: Registry<T>, id: ObjectId): Registry<T> {
    if id in r.live then r else r.(used := r.used - {id})
  }

  /** Every live object is taken and in the creation order, and at most one identifier is taken
      without being live: the one being destroyed. */
  ghost predicate Sound<T>(r: Registry<T>, dying: Option<ObjectId>) {
    && r.live.Keys <= r.used
    && (forall id | id in r.used && id !in r.live :: dying == Some(id))
    && (forall id | id in r.live :: id in r.order)
  }

  /** Where an identifier was last created. */
  function LastCreated(order: seq<ObjectId>, id: ObjectId): (i: int)
    ensures -1 <= i < |order|
    ensures i >= 0 ==> order[i] == id
    ensures forall j | i < j < |order| :: order[j] != id
    ensures id in order ==> i >= 0
  {
    if order == [] then -1
    else if order[|order| - 1] == id then |order| - 1
    else LastCreated(order[..|order| - 1], id)
  }

  /** Listed from the newest creation to the oldest. */
  ghost predicate NewestFirst(order: seq<ObjectId>, ids: seq<ObjectId>) {
    forall i, j | 0 <= i < j < |ids| :: LastCreated(order, ids[i]) > LastCreated(order, ids[j])
  }

  lemma ListNext(order: seq<ObjectId>, ids: seq<ObjectId>, id: ObjectId)
    requires NewestFirst(order, ids)
    requires forall k | k in ids :: LastCreated(order, k) > LastCreated(order, id)
    ensures NewestFirst(order, ids + [id])
  {
    var more := ids + [id];
    forall i, j | 0 <= i < j < |more| ensures LastCreated(order, more[i]) > LastCreated(order, more[j]) {
      assert more[i] == ids[i] && ids[i] in ids;
      if j < |ids| {
        assert more[j] == ids[j];
      }
    }
  }

  /** Part of a teardown: what is listed was created at `n` or later, what is left earlier. */
  ghost predicate ListedFrom(order: seq<ObjectId>, live: set<ObjectId>, left: set<ObjectId>, ids: seq<ObjectId>, n: nat) {
    && left <= live && NewestFirst(order, ids)
    && (forall id :: id in ids <==> id in live && id !in left)
    && (forall id | id in left :: LastCreated(order, id) < n)
    && (forall id | id in ids :: LastCreated(order, id) >= n)
  }

  lemma ListStep(order: seq<ObjectId>, live: set<ObjectId>, left: set<ObjectId>, ids: seq<ObjectId>, n: nat)
    requires n < |order| && ListedFrom(order, live, left, ids, n + 1)
    ensures order[n] in left ==> ListedFrom(order, live, left - {order[n]}, ids + [order[n]], n)
    ensures order[n] !in left ==> ListedFrom(order, live, left, ids, n)
  {
    var id := order[n];
    if id in left {
      assert LastCreated(order, id) == n;
      ListNext(order, ids, id);
    }
  }

  /** The teardown of a connection: from the newest creation to the oldest, each object once.
      Every live object is listed exactly once, in strictly decreasing order of its latest
      creation, however often identifiers were reused. */
  method Teardown<T>(r: Registry<T>) returns (destroyed: seq<ObjectId>)
    requires forall id | id in r.live :: id in r.order
    ensures NoDuplicates(destroyed) && NewestFirst(r.order, destroyed)
    ensures forall id :: id in destroyed <==> id in r.live
  {
    destroyed := [];
    var left := r.live.Keys;
    var n := |r.order|;
    while n > 0
      invariant 0 <= n <= |r.order|
      invariant ListedFrom(r.order, r.live.Keys, left, destroyed, n)
    {
      n := n - 1;
      ListStep(r.order, r.live.Keys, left, destroyed, n);
      if r.order[n] in left {
        destroyed := destroyed + [r.order[n]];
        left := left - {r.order[n]};
      }
    }
    assert forall id | id in left :: id in r.order && LastCreated(r.order, id) >= 0;
  }
}
