/** `applyChildren` and the deletions of `finalize`, with a failure possible at any call. */
module Children {
  import opened Wrappers
  import opened Api
  import opened Workload
  import opened Reconcile
  import opened Controller
  import V = Convergence

  function Stored(children: map<Kind, Child>, kind: Kind): Option<Child> {
    if kind in children then Some(children[kind]) else None
  }

  function Applied(children: map<Kind, Child>, kind: Kind, m: Managed): map<Kind, Child> {
    children[kind := Overwrite(Stored(children, kind), m)]
  }

  /** The children after the first `n` writes of a pass. */
  function ApplyFirst(children: map<Kind, Child>, t: Tunnel, plan: Plan, n: nat): map<Kind, Child>
    requires n <= |WRITE_ORDER|
  {
    if n == 0 then children
    else Applied(ApplyFirst(children, t, plan, n - 1), WRITE_ORDER[n - 1], Wanted(t, plan, WRITE_ORDER[n - 1]))
  }

  /** The children after the first `n` deletions. */
  function DeleteFirst(children: map<Kind, Child>, n: nat): map<Kind, Child>
    requires n <= |DELETE_ORDER|
  {
    if n == 0 then children else DeleteFirst(children, n - 1) - {DELETE_ORDER[n - 1]}
  }

  /** The children of one tunnel in the API server; `calls` counts the calls, of which number `failing` fails. */
  class ChildStore {
    var children: map<Kind, Child>
    var calls: nat
    const failing: nat

    constructor (children: map<Kind, Child>, failing: nat)
      ensures this.children == children && this.failing == failing && calls == 0
    {
      this.children := children;
      this.failing := failing;
      calls := 0;
    }

    method CreateOrUpdate(kind: Kind, m: Managed) returns (ok: bool)
      modifies this
      ensures ok <==> old(calls) != failing
      ensures calls == old(calls) + 1
      ensures children == if ok then Applied(old(children), kind, m) else old(children)
    {
      ok := calls != failing;
      calls := calls + 1;
      if ok {
        children := children[kind := Overwrite(Stored(children, kind), m)];
      }
    }

    method Delete(kind: Kind) returns (ok: bool)
      modifies this
      ensures ok <==> old(calls) != failing
      ensures calls == old(calls) + 1
      ensures children == if ok then old(children) - {kind} else old(children)
    {
      ok := calls != failing;
      calls := calls + 1;
      if ok {
        children := children - {kind};
      }
    }

    /** One write after the other, up to the first that fails. */
    method ApplyChildren(t: Tunnel, plan: Plan) returns (ok: bool)
      requires calls == 0
      modifies this
      ensures ok <==> failing >= |WRITE_ORDER|
      ensures children == ApplyFirst(old(children), t, plan, if ok then |WRITE_ORDER| else failing)
    {
      hide ManagedPart, Overwrite;
      ghost var was := children;
      ok := CreateOrUpdate(ConfigMap, Wanted(t, plan, ConfigMap));
      if !ok {
        return;
      }
      assert children == ApplyFirst(was, t, plan, 1);
      ok := CreateOrUpdate(ServiceAccount, Wanted(t, plan, ServiceAccount));
      if !ok {
        return;
      }
      assert children == ApplyFirst(was, t, plan, 2);
      ok := CreateOrUpdate(Role, Wanted(t, plan, Role));
      if !ok {
        return;
      }
      assert children == ApplyFirst(was, t, plan, 3);
      ok := CreateOrUpdate(RoleBinding, Wanted(t, plan, RoleBinding));
      if !ok {
        return;
      }
      assert children == ApplyFirst(was, t, plan, 4);
      ok := CreateOrUpdate(Deployment, Wanted(t, plan, Deployment));
    }

    /** The loop of `finalize`. */
    method DeleteChildren() returns (ok: bool)
      requires calls == 0
      modifies this
      ensures ok <==> failing >= |DELETE_ORDER|
      ensures children == DeleteFirst(old(children), if ok then |DELETE_ORDER| else failing)
    {
      for i := 0 to |DELETE_ORDER|
        invariant calls == i && failing >= i
        invariant children == DeleteFirst(old(children), i)
      {
        ok := Delete(DELETE_ORDER[i]);
        if !ok {
          return;
        }
      }
      ok := true;
    }
  }

  /** A pass cut off after `n` writes has brought exactly the first `n` kinds up to date and left the others alone. */
  lemma {:induction false} ApplyFirstEffect(children: map<Kind, Child>, t: Tunnel, plan: Plan, n: nat, i: nat)
    requires n <= |WRITE_ORDER| && i < |WRITE_ORDER|
    ensures var kind := WRITE_ORDER[i];
            Stored(ApplyFirst(children, t, plan, n), kind)
            == if i < n then Some(Overwrite(Stored(children, kind), Wanted(t, plan, kind))) else Stored(children, kind)
  {
    hide ManagedPart, Overwrite;
    if n > 0 {
      ApplyFirstEffect(children, t, plan, n - 1, i);
      if i < n - 1 {
        OrderIsDistinct(i, n - 1);
      } else if n - 1 < i {
        OrderIsDistinct(n - 1, i);
      }
    }
  }

  /** After a full pass every child is up to date, and what others had added to it is still there. */
  lemma FullPass(children: map<Kind, Child>, t: Tunnel, plan: Plan, kind: Kind)
    ensures var after := ApplyFirst(children, t, plan, |WRITE_ORDER|);
            && kind in after
            && UpToDate(after[kind], Wanted(t, plan, kind))
            && after[kind].foreign == (if kind in children then children[kind].foreign else map[])
  {
    EveryKindIsWritten(kind);
    var i: nat :| IsKind(kind, i);
    ApplyFirstEffect(children, t, plan, |WRITE_ORDER|, i);
  }

  /** A second pass with the same plan changes nothing, wherever it stops. */
  lemma {:induction false} PassIsIdempotent(children: map<Kind, Child>, t: Tunnel, plan: Plan, n: nat)
    requires n <= |WRITE_ORDER|
    ensures var after := ApplyFirst(children, t, plan, |WRITE_ORDER|); ApplyFirst(after, t, plan, n) == after
  {
    hide ManagedPart, Overwrite;
    if n > 0 {
      PassIsIdempotent(children, t, plan, n - 1);
      FullPass(children, t, plan, WRITE_ORDER[n - 1]);
    }
  }

  /** Wherever writing stops, no child is without what it needs. */
  lemma {:induction false} ApplyStaysClosed(children: map<Kind, Child>, t: Tunnel, plan: Plan, n: nat)
    requires n <= |WRITE_ORDER| && Closed(children)
    ensures Closed(ApplyFirst(children, t, plan, n)) && PresentUpTo(ApplyFirst(children, t, plan, n), n)
  {
    hide ManagedPart, Overwrite;
    if n > 0 {
      ApplyStaysClosed(children, t, plan, n - 1);
      var before := ApplyFirst(children, t, plan, n - 1);
      WriteIsOrdered(before, n - 1, Overwrite(Stored(before, WRITE_ORDER[n - 1]), Wanted(t, plan, WRITE_ORDER[n - 1])));
    }
  }

  /** Wherever deleting stops, no child is without what it needs, and in the end none is left. */
  lemma {:induction false} DeleteStaysClosed(children: map<Kind, Child>, n: nat)
    requires n <= |DELETE_ORDER| && Closed(children)
    ensures Closed(DeleteFirst(children, n)) && AbsentUpTo(DeleteFirst(children, n), n)
    ensures n == |DELETE_ORDER| ==> DeleteFirst(children, n) == map[]
  {
    if n > 0 {
      DeleteStaysClosed(children, n - 1);
      DeleteIsOrdered(DeleteFirst(children, n - 1), n - 1);
      if n == |DELETE_ORDER| {
        NoKindLeft(DeleteFirst(children, n));
      }
    }
  }

  /** The calls of the state machine do what the method does: after `n` of them the first `n` kinds are written. */
  lemma {:induction false} CallsApply(env: Env, cl: Cluster, k: Key, v: Slot, t: Tunnel, plan: Plan, n: nat)
    requires n <= |WRITE_ORDER| && v.work == Some(Writing(t, plan, 0))
    ensures var r := V.Drive(env, cl, k, v, n);
            && r.children == ApplyFirst(v.children, t, plan, n)
            && r.work == Some(Writing(t, plan, n)) && r.tunnel == v.tunnel
  {
    hide ManagedPart, Overwrite, Fetched, ConnectionRead, SecretRead, ServiceRead, ChildDeleted, PutChild;
    if n > 0 {
      CallsApply(env, cl, k, v, t, plan, n - 1);
      V.DriveOn(env, cl, k, v, n - 1, 1);
      var before := V.Drive(env, cl, k, v, n - 1);
      assert V.Drive(env, cl, k, before, 1) == V.Drive(env, cl, k, V.Turn(env, cl, k, before), 0);
      var kind := WRITE_ORDER[n - 1];
      PutChildEffect(before, kind, Some(Overwrite(ChildAt(before, kind), Wanted(t, plan, kind))), Partial);
    }
  }

  /** The same for deleting. */
  lemma {:induction false} CallsDelete(env: Env, cl: Cluster, k: Key, v: Slot, n: nat)
    requires n <= |DELETE_ORDER| && v.work == Some(Deleting(0))
    ensures var r := V.Drive(env, cl, k, v, n);
            r.children == DeleteFirst(v.children, n) && r.work == Some(Deleting(n)) && r.tunnel == v.tunnel
  {
    hide Fetched, ConnectionRead, SecretRead, ServiceRead, ChildWritten, PutChild;
    if n > 0 {
      CallsDelete(env, cl, k, v, n - 1);
      V.DriveOn(env, cl, k, v, n - 1, 1);
      var before := V.Drive(env, cl, k, v, n - 1);
      assert V.Drive(env, cl, k, before, 1) == V.Drive(env, cl, k, V.Turn(env, cl, k, before), 0);
      PutChildEffect(before, DELETE_ORDER[n - 1], None, Partial);
    }
  }
}
