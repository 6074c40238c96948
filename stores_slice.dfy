/** The client-side list of stores: the `extraReducers` of the `fetchStores`
    and `deleteStore` thunks. A rejected payload is kept as its message. */
module StoresSlice {
  import opened Common

  /** A store document, with the fields of its schema. Coordinates are kept
      as integers (for instance micro-degrees). */
  datatype Store = Store(
    id: string, name: string, address: string,
    latitude: int, longitude: int, hours: seq<string>, phone: string)

  datatype StoresState = StoresState(stores: seq<Store>, loading: bool, error: Option<string>)

  const InitialStores := StoresState([], false, None)

  datatype StoresAction =
    | FetchPending
    | FetchFulfilled(list: seq<Store>)
    | FetchRejected(payload: string)
    | DeletePending
    | DeleteFulfilled(storeId: string)
    | DeleteRejected(payload: string)

  /** `stores.filter(store => store._id !== storeId)`. */
  function RemoveStore(stores: seq<Store>, storeId: string): (r: seq<Store>)
    ensures forall k :: 0 <= k < |r| ==> r[k].id != storeId && r[k] in stores
    ensures forall k :: 0 <= k < |stores| && stores[k].id != storeId ==> stores[k] in r
  {
    Filter(stores, (s: Store) => s.id != storeId)
  }

  /** The removal keeps the other stores in their order: it works on each part
      of a list separately, and leaves a list without that id unchanged. */
  lemma RemoveStoreOrder(a: seq<Store>, b: seq<Store>, storeId: string)
    ensures RemoveStore(a + b, storeId) == RemoveStore(a, storeId) + RemoveStore(b, storeId)
    ensures (forall k :: 0 <= k < |a| ==> a[k].id != storeId) ==> RemoveStore(a, storeId) == a
  {
    FilterAppend(a, b, (s: Store) => s.id != storeId);
    FilterKeepsAll(a, (s: Store) => s.id != storeId);
  }

  /** The reducer. */
  function Reduce(s: StoresState, a: StoresAction): (r: StoresState)
    ensures a.FetchPending? ==> r == StoresState(s.stores, true, None)
    ensures a.DeletePending? ==> r == StoresState(s.stores, true, s.error)
    ensures a.FetchRejected? || a.DeleteRejected? ==> r == StoresState(s.stores, false, Some(a.payload))
    ensures a.FetchFulfilled? ==> r == StoresState(a.list, false, s.error)
    ensures a.DeleteFulfilled? ==> r == StoresState(RemoveStore(s.stores, a.storeId), false, s.error)
  {
    match a
    case FetchPending => s.(loading := true, error := None)
    case FetchFulfilled(list) => s.(loading := false, stores := list)
    case FetchRejected(payload) => s.(loading := false, error := Some(payload))
    case DeletePending => s.(loading := true)
    case DeleteFulfilled(storeId) => s.(loading := false, stores := RemoveStore(s.stores, storeId))
    case DeleteRejected(payload) => s.(loading := false, error := Some(payload))
  }

  /** An error stays on the screen until the next fetch starts: no delete
      action and no fulfilled case clears it, and only a rejection sets it. */
  lemma {:induction false} ErrorClearedOnlyByFetch(s: StoresState, actions: seq<StoresAction>)
    requires forall k :: 0 <= k < |actions| ==> !actions[k].FetchPending?
    requires forall k :: 0 <= k < |actions| ==> !actions[k].FetchRejected? && !actions[k].DeleteRejected?
    ensures RunAll(Reduce, s, actions).error == s.error
    decreases |actions|
  {
    if |actions| > 0 {
      ErrorClearedOnlyByFetch(Reduce(s, actions[0]), actions[1..]);
    }
  }

  /** `loading` tells whether the last action was a pending one. */
  lemma LoadingFollowsLastAction(s: StoresState, actions: seq<StoresAction>)
    requires |actions| > 0
    ensures RunAll(Reduce, s, actions).loading <==> actions[|actions| - 1].FetchPending? || actions[|actions| - 1].DeletePending?
  {
    LastActionDecides(Reduce, s, actions, (t: StoresState) => t.loading, (a: StoresAction) => a.FetchPending? || a.DeletePending?);
  }

  /** The slice's state, changed in place by each case. */
  class StoresStore {
    var stores: seq<Store>
    var loading: bool
    var error: Option<string>

    function State(): StoresState
      reads this
    {
      StoresState(stores, loading, error)
    }

    constructor ()
      ensures State() == InitialStores
    {
      stores, loading, error := [], false, None;
    }

    method Dispatch(a: StoresAction)
      modifies this
      ensures State() == Reduce(old(State()), a)
    {
      match a {
        case FetchPending =>
          loading := true;
          error := None;
        case FetchFulfilled(list) =>
          loading := false;
          stores := list;
        case FetchRejected(payload) =>
          loading := false;
          error := Some(payload);
        case DeletePending =>
          loading := true;
        case DeleteFulfilled(storeId) =>
          loading := false;
          stores := RemoveStore(stores, storeId);
        case DeleteRejected(payload) =>
          loading := false;
          error := Some(payload);
      }
    }
  }
}
