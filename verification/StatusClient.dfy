/** `patchTunnelStatus` and the agent's `patch`: read, mutate, patch, and again on a conflict. */
module StatusClient {
  import opened Wrappers
  import opened TunnelStatus
  import opened StatusPatch
  import opened StatusStore

  /** Attempts of `retry.DefaultRetry`. */
  const ATTEMPTS := 5

  class ApiServer {
    var store: Store

    constructor (store: Store)
      ensures this.store == store
    {
      this.store := store;
    }

    method Patch(snapshot: Store, m: Mutation, wanted: Status) returns (conflict: bool)
      requires wanted == Pending(snapshot, m).Wanted()
      modifies this
      ensures conflict <==> ServePatch(old(store), Pending(snapshot, m)).None?
      ensures store == if conflict then old(store) else ServePatch(old(store), Pending(snapshot, m)).value
    {
      conflict := m.Locked() && snapshot.resourceVersion != store.resourceVersion;
      if !conflict {
        PatchIsMerge(store.status, snapshot.status, wanted);
        var status := PatchStored(store.status, snapshot.status, wanted);
        if status != store.status {
          store := store.(resourceVersion := store.resourceVersion + 1, status := status);
        }
      }
    }
  }

  /** The mutation closures, run on the copy that was read. */
  method Perform(o: TunnelObject, m: Mutation)
    modifies o
    ensures o.Value() == Mutate(m, o.generation, old(o.Value()))
  {
    match m {
      case TunnelBlocked(reason, message) => o.MarkTunnelBlocked(reason, message);
      case TargetBlocked(message) => o.MarkTargetBlocked(message);
      case Reconciled(deployment, target, name, ready) => o.MarkReconciled(deployment, target, name, ready);
      case Finalizing => o.MarkFinalizing();
      case Connecting => o.MarkConnecting();
      case Online(report) => o.MarkOnline(report);
      case Disconnected(message) => o.MarkDisconnected(message);
    }
  }

  /** The object as it was before attempt `i`, when the other writers left `others[i]` during attempt `i`. */
  function Before(first: Store, others: seq<Store>, i: nat): Store
    requires i <= |others|
  {
    if i == 0 then first else others[i - 1]
  }

  /**
   One status write with its retries. `others[i]` is what the other writers have made of the object when
   attempt `i` sends its patch. A locked write that succeeds has been computed from the very object it
   replaces; an unlocked one always succeeds at once, on whatever is stored.
   */
  method PatchStatus(api: ApiServer, m: Mutation, others: seq<Store>) returns (conflict: bool)
    requires |others| == ATTEMPTS
    requires forall i | 0 <= i < ATTEMPTS :: Earlier(Before(api.store, others, i), others[i])
    modifies api
    ensures !m.Locked() ==> !conflict && api.store == ServePatch(others[0], Pending(old(api.store), m)).value
    ensures m.Locked() && !conflict ==>
              exists i | 0 <= i < ATTEMPTS ::
                && Before(old(api.store), others, i) == others[i]
                && api.store.status == Mutate(m, others[i].generation, others[i].status)
    ensures conflict ==>
              && (forall i | 0 <= i < ATTEMPTS :: Before(old(api.store), others, i) != others[i])
              && api.store == others[ATTEMPTS - 1]
  {
    hide Mutate, ServePatch;
    ghost var first := api.store;
    conflict := true;
    var i := 0;
    while i < ATTEMPTS && conflict
      invariant 0 <= i <= ATTEMPTS
      invariant conflict ==> api.store == Before(first, others, i)
      invariant conflict ==> forall j | 0 <= j < i :: Before(first, others, j) != others[j]
      invariant conflict && i > 0 ==> m.Locked()
      invariant !conflict ==>
        && i > 0
        && ServePatch(others[i - 1], Pending(Before(first, others, i - 1), m)) == Some(api.store)
        && (!m.Locked() ==> i == 1)
    {
      var snapshot := api.store;
      var copy := new TunnelObject(snapshot.generation, snapshot.status);
      Perform(copy, m);
      api.store := others[i];
      conflict := api.Patch(snapshot, m, copy.Value());
      if m.Locked() {
        LockedPatchIsExact(others[i], Pending(snapshot, m));
      } else {
        UnlockedIsServed(others[i], Pending(snapshot, m));
      }
      i := i + 1;
    }
    if m.Locked() && !conflict {
      LockedPatchIsExact(others[i - 1], Pending(Before(first, others, i - 1), m));
      assert Before(first, others, i - 1) == others[i - 1];
    }
  }
}
