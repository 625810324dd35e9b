/**
 The tunnel controller as a state machine. Users change tunnels and the objects they depend on, agents report, third
 parties change or delete children, attempts to reconcile read and write one object at a time and report what they
 found, and any call may fail or the manager may crash between two calls.
 */
module Controller {
  import opened Wrappers
  import opened Api
  import opened AgentConfig
  import opened Ordering
  import opened Services
  import opened SecretRefs
  import opened Workload
  import opened Reconcile
  import T = TunnelStatus
  import N = Names

  /** How far an attempt has come: the call it makes next, and the snapshots it has taken. */
  datatype Work =
    | Fetching
    | AddingFinalizer(t: Tunnel)
    | ReadingConnection(t: Tunnel)
    | ReadingSecrets(t: Tunnel, connection: Connection, refs: seq<SecretRef>, found: Found)
    | ReadingService(t: Tunnel, resolved: Resolved)
    | Blocking(t: Tunnel, block: Block)
    | Writing(t: Tunnel, plan: Plan, next: nat)
    | Reporting(t: Tunnel, plan: Plan, ready: bool)
    | Announcing
    | Deleting(next: nat)

  const WRITE_ORDER := [ConfigMap, ServiceAccount, Role, RoleBinding, Deployment]
  const DELETE_ORDER := [Deployment, ConfigMap, RoleBinding, Role, ServiceAccount]

  /** The status of a tunnel, its generation, and whether its Deployment is available. */
  datatype Report = Report(generation: int, status: T.Status, available: bool)

  const NO_REPORT := Report(1, T.EMPTY_STATUS, false)

  /** A pass that wrote all five children while no third party touched them, and what it left. */
  datatype Pass = Pass(t: Tunnel, plan: Plan, left: map<Kind, Child>)

  /** Whether the children are as the last pass left them; if not, whether a third party had a hand in it. */
  datatype Drift = Clean | Partial | Disturbed

  /** History: a third party has deleted a child since the last pass, that pass, and what has become of its children. */
  datatype Past = Past(tampered: bool, last: Option<Pass>, drift: Drift)

  const NO_PAST := Past(false, None, Clean)

  /** Everything that belongs to one key. */
  datatype Slot = Slot(
    tunnel: Option<Tunnel>, report: Report, children: map<Kind, Child>, queued: bool, work: Option<Work>, past: Past)

  /** What happens to one key: queueing, one call of an attempt, its failure, and what others do. */
  datatype Action =
    | Dequeue
    | Call
    | Fail
    | Resync
    | Create(t: Tunnel)
    | Edit(spec: TunnelSpec, pinned: bool)
    | Delete
    | Tamper(kind: Kind, child: Option<Child>)
    | Availability(available: bool)
    | AgentReport(m: T.Mutation)

  function ChildAt(v: Slot, kind: Kind): Option<Child> {
    if kind in v.children then Some(v.children[kind]) else None
  }

  function Drifted(was: Drift, cause: Drift): Drift {
    if was == Clean || cause == Disturbed then cause else was
  }

  /** Storing or deleting a child; if that changes anything, the owner is queued. */
  function PutChild(v: Slot, kind: Kind, child: Option<Child>, cause: Drift): Slot {
    var was := ChildAt(v, kind);
    if was == child then v
    else v.(children := if child.Some? then v.children[kind := child.value] else v.children - {kind},
            report := if kind == Deployment && child.None? then v.report.(available := false) else v.report,
            queued := v.queued || (was.Some? && was.value.owned) || (child.Some? && child.value.owned),
            past := v.past.(drift := Drifted(v.past.drift, cause)))
  }

  /** A patch of the status, by either writer; if that changes anything, the tunnel is queued. */
  function PatchStatus(v: Slot, m: T.Mutation): Slot {
    var status := T.Mutate(m, v.report.generation, v.report.status);
    v.(report := v.report.(status := status), queued := v.queued || status != v.report.status)
  }

  /** A mutation that has nothing left to change. */
  predicate Reported(v: Slot, m: T.Mutation) {
    T.Mutate(m, v.report.generation, v.report.status) == v.report.status
  }

  /** An object under deletion goes away with its last finalizer. */
  function Kept(t: Tunnel): Option<Tunnel> {
    if t.deleting && !t.finalizer && !t.pinned then None else Some(t)
  }

  function Done(v: Slot): Slot {
    v.(work := None)
  }

  function Retry(v: Slot): Slot {
    v.(work := None, queued := true)
  }

  function Go(v: Slot, w: Work): Slot {
    v.(work := Some(w))
  }

  function Fetched(v: Slot): Slot {
    match v.tunnel
    case None => Done(v)
    case Some(t) =>
      if t.deleting then (if t.finalizer then Go(v, Announcing) else Done(v))
      else if !t.finalizer then Go(v, AddingFinalizer(t))
      else
        match ValidateTunnelSpec(t.spec)
        case Some(e) => Go(v, Blocking(t, InvalidSpec(e)))
        case None => Go(v, ReadingConnection(t))
  }

  /** The update is refused when the object is no longer the one that was read. */
  function FinalizerAdded(v: Slot, t: Tunnel): Slot {
    if v.tunnel != Some(t) then Retry(v)
    else v.(tunnel := Some(t.(finalizer := true)), work := None, queued := true)
  }

  ghost function ConnectionRead(cl: Cluster, v: Slot, t: Tunnel): Slot {
    match Lookup(cl.connections, ConnectionKey(t))
    case None => Go(v, Blocking(t, ConnectionNotFound))
    case Some(c) =>
      if SecretList(c) == [] then Go(v, Blocking(t, NoSecretRefs))
      else Go(v, ReadingSecrets(t, c, SecretList(c), NOTHING))
  }

  /** The next Secret is read, or, after the last one, the Control plane is asked. */
  ghost function SecretRead(env: Env, cl: Cluster, v: Slot, t: Tunnel, c: Connection, refs: seq<SecretRef>,
                            found: Found): Slot {
    if refs == [] then
      match Conclude(env, c, Ok(found))
      case Err(b) => Go(v, Blocking(t, b))
      case Ok(r) => Go(v, ReadingService(t, r))
    else
      match Read(c, cl.secrets, found, refs[0])
      case Err(e) => Go(v, Blocking(t, BadSecret(e)))
      case Ok(more) => Go(v, ReadingSecrets(t, c, refs[1..], more))
  }

  /** From here on the children are written anew, so what has become of them before does not matter any more. */
  function ServiceRead(env: Env, cl: Cluster, v: Slot, t: Tunnel, r: Resolved): Slot {
    match ResolveTarget(t, cl.services)
    case Err(e) => Go(v, Blocking(t, BadTarget(e)))
    case Ok(target) =>
      Go(v, Writing(t, PlanFor(env, t, r, target), 0))
        .(past := if v.past.drift == Disturbed then v.past.(drift := Partial) else v.past)
  }

  /** How the manager reports that a tunnel is blocked. */
  function BlockedReport(env: Env, b: Block): T.Mutation {
    if b.InvalidSpec? then T.TunnelBlocked(T.ByInvalidSpec, env.describe(b))
    else if b.BadTarget? then T.TargetBlocked(env.describe(b))
    else T.TunnelBlocked(T.ByConnectionMissing, if b.Unresolved? then b.error else env.describe(b))
  }

  /** How it reports a full pass; the registered name is taken from the object as it is by then. */
  function PassReport(now: Tunnel, plan: Plan, ready: bool): T.Mutation {
    T.Reconciled(N.NamesFor(IdentityOf(now)).deployment, Address(plan.target),
                 N.RstreamName(IdentityOf(now), now.spec.tunnelName), ready)
  }

  function Wanted(t: Tunnel, plan: Plan, kind: Kind): Managed {
    ManagedPart(kind, t, plan.connection, plan.options)
  }

  /** One `createOrUpdate`; after the last one the Deployment is read. */
  function ChildWritten(v: Slot, t: Tunnel, plan: Plan, next: nat): Slot {
    if next < |WRITE_ORDER| then
      var kind := WRITE_ORDER[next];
      Go(PutChild(v, kind, Some(Overwrite(ChildAt(v, kind), Wanted(t, plan, kind))), Partial),
         Writing(t, plan, next + 1))
    else if Deployment !in v.children then Retry(v)
    else Go(v, Reporting(t, plan, v.report.available)).(past := Passed(v, t, plan))
  }

  /** A pass that nothing disturbed starts the history anew. */
  function Passed(v: Slot, t: Tunnel, plan: Plan): Past {
    if v.past.drift == Disturbed then v.past else Past(false, Some(Pass(t, plan, v.children)), Clean)
  }

  /** One delete, which may find nothing; after the last one the finalizer goes. */
  function ChildDeleted(v: Slot, next: nat): Slot {
    if next < |DELETE_ORDER| then Go(PutChild(v, DELETE_ORDER[next], None, Partial), Deleting(next + 1))
    else
      match v.tunnel
      case None => Done(v)
      case Some(t) => v.(tunnel := Kept(t.(finalizer := false)), work := None, queued := true, past := NO_PAST)
  }

  function PassReported(v: Slot, plan: Plan, ready: bool): Slot {
    match v.tunnel
    case None => Done(v)
    case Some(now) => Done(PatchStatus(v, PassReport(now, plan, ready)))
  }

  ghost function Called(env: Env, cl: Cluster, v: Slot): Slot {
    match v.work
    case None => v
    case Some(Fetching) => Fetched(v)
    case Some(AddingFinalizer(t)) => FinalizerAdded(v, t)
    case Some(ReadingConnection(t)) => ConnectionRead(cl, v, t)
    case Some(ReadingSecrets(t, c, refs, found)) => SecretRead(env, cl, v, t, c, refs, found)
    case Some(ReadingService(t, r)) => ServiceRead(env, cl, v, t, r)
    case Some(Blocking(t, b)) => Done(PatchStatus(v, BlockedReport(env, b)))
    case Some(Writing(t, plan, next)) => ChildWritten(v, t, plan, next)
    case Some(Reporting(t, plan, ready)) => PassReported(v, plan, ready)
    case Some(Announcing) => Go(PatchStatus(v, T.Finalizing), Deleting(0))
    case Some(Deleting(next)) => ChildDeleted(v, next)
  }

  /**
   A failing call: most are retried, but the errors of two status patches are dropped. Reads of inputs do not fail.
   */
  function Failed(v: Slot): Slot {
    match v.work
    case None => v
    case Some(ReadingConnection(_)) => v
    case Some(ReadingSecrets(_, _, _, _)) => v
    case Some(ReadingService(_, _)) => v
    case Some(Blocking(_, _)) => Done(v)
    case Some(Announcing) => Go(v, Deleting(0))
    case Some(_) => Retry(v)
  }

  function Edited(v: Slot, spec: TunnelSpec, pinned: bool): Slot {
    match v.tunnel
    case None => v
    case Some(t) =>
      v.(tunnel := Kept(t.(spec := spec, pinned := pinned)), queued := true,
         report := if spec == t.spec then v.report else v.report.(generation := v.report.generation + 1))
  }

  function Deleted(v: Slot): Slot {
    match v.tunnel
    case None => v
    case Some(t) =>
      v.(tunnel := Kept(t.(deleting := true)), queued := true,
         report := if t.deleting then v.report else v.report.(generation := v.report.generation + 1))
  }

  function Tampered(v: Slot, kind: Kind, child: Option<Child>): Slot {
    var r := PutChild(v, kind, child, Disturbed);
    r.(past := r.past.(tampered := v.past.tampered || child.None?))
  }

  /** The slot of key `k` after an action; an action that is not possible changes nothing. */
  ghost function Act(env: Env, cl: Cluster, k: Key, v: Slot, a: Action): Slot {
    match a
    case Dequeue => if v.queued && v.work.None? then v.(queued := false, work := Some(Fetching)) else v
    case Call => Called(env, cl, v)
    case Fail => Failed(v)
    case Resync => v.(queued := true)
    case Create(t) =>
      if v.tunnel.None? && t.key == k && !t.deleting
      then v.(tunnel := Some(t), report := NO_REPORT, queued := true)
      else v
    case Edit(spec, pinned) => Edited(v, spec, pinned)
    case Delete => Deleted(v)
    case Tamper(kind, child) =>
      if kind !in v.children then v
      else Tampered(v, kind, child)
    case Availability(available) =>
      if Deployment in v.children && available != v.report.available
      then v.(report := v.report.(available := available), queued := v.queued || v.children[Deployment].owned)
      else v
    case AgentReport(m) => if v.tunnel.Some? && m.Locked() then PatchStatus(v, m) else v
  }

  // ---- What holds for one key ----

  predicate PresentUpTo(children: map<Kind, Child>, n: nat) {
    forall i | 0 <= i < n && i < |WRITE_ORDER| :: WRITE_ORDER[i] in children
  }

  predicate AbsentUpTo(children: map<Kind, Child>, n: nat) {
    forall i | 0 <= i < n && i < |DELETE_ORDER| :: DELETE_ORDER[i] !in children
  }

  /** No child is there without the children it needs. */
  predicate Closed(children: map<Kind, Child>) {
    && (Deployment in children ==> ConfigMap in children && RoleBinding in children)
    && (RoleBinding in children ==> Role in children)
    && (Role in children ==> ServiceAccount in children)
  }

  predicate WrittenUpTo(children: map<Kind, Child>, t: Tunnel, plan: Plan, n: nat) {
    forall i | 0 <= i < n && i < |WRITE_ORDER| ::
      WRITE_ORDER[i] in children && UpToDate(children[WRITE_ORDER[i]], Wanted(t, plan, WRITE_ORDER[i]))
  }

  /** Only a tunnel with the finalizer has children, and it keeps it while an attempt may write or delete them. */
  predicate Guarded(v: Slot) {
    && (v.children != map[] ==> v.tunnel.Some? && v.tunnel.value.finalizer)
    && (v.work.Some? && !v.work.value.Fetching? && !v.work.value.AddingFinalizer? ==>
          v.tunnel.Some? && v.tunnel.value.finalizer)
    && (v.work.Some? && (v.work.value.Announcing? || v.work.value.Deleting?) ==> v.tunnel.value.deleting)
    && (v.work.Some? && v.work.value.Deleting? ==> AbsentUpTo(v.children, v.work.value.next))
  }

  /** Unless a third party deletes children, they are complete as far as they go. */
  predicate Ordered(v: Slot) {
    !v.past.tampered ==>
      && Closed(v.children)
      && (v.work.Some? && v.work.value.Writing? ==> PresentUpTo(v.children, v.work.value.next))
  }

  function LeftBy(last: Option<Pass>): map<Kind, Child> {
    if last.Some? then last.value.left else map[]
  }

  /** The history is right: clean children are the last pass's, and a pass under way has written what it has written. */
  predicate Traced(v: Slot) {
    && (v.past.drift == Clean ==> v.children == LeftBy(v.past.last))
    && (v.past.last.Some? ==>
          WrittenUpTo(v.past.last.value.left, v.past.last.value.t, v.past.last.value.plan, |WRITE_ORDER|))
    && (v.past.drift != Disturbed && v.work.Some? && v.work.value.Writing? ==>
          WrittenUpTo(v.children, v.work.value.t, v.work.value.plan, v.work.value.next))
  }

  predicate IsLive(v: Slot, t: Tunnel) {
    v.tunnel == Some(t) && t.finalizer && !t.deleting && ValidateTunnelSpec(t.spec).None?
  }

  /** An attempt that goes on from here sees the cluster as it is, and arrives at the outcome. */
  ghost predicate Current(env: Env, cl: Cluster, v: Slot, w: Work) {
    match w
    case Fetching => true
    case AddingFinalizer(t) => v.tunnel == Some(t) && !t.finalizer && !t.deleting
    case ReadingConnection(t) => IsLive(v, t)
    case ReadingSecrets(t, c, refs, found) =>
      && IsLive(v, t)
      && Lookup(cl.connections, ConnectionKey(t)) == Some(c)
      && (forall i | 0 <= i < |refs| :: refs[i] in SecretSet(c))
      && Conclude(env, c, Gather(c, cl.secrets, refs, found)) == ResolveConnection(env, cl, t)
    case ReadingService(t, r) => IsLive(v, t) && ResolveConnection(env, cl, t) == Ok(r)
    case Blocking(t, b) => v.tunnel == Some(t) && t.finalizer && !t.deleting && Outcome(env, cl, t) == Err(b)
    case Writing(t, plan, next) =>
      IsLive(v, t) && Outcome(env, cl, t) == Ok(plan) && WrittenUpTo(v.children, t, plan, next)
    case Reporting(t, plan, ready) =>
      && IsLive(v, t) && Outcome(env, cl, t) == Ok(plan) && WrittenUpTo(v.children, t, plan, |WRITE_ORDER|)
      && ready == v.report.available
    case Announcing => true
    case Deleting(next) => true
  }

  /**
   What a key that nobody will look at again must be: a live tunnel has the finalizer and, if it can be reconciled
   now, all five children as they should be now and a status that says so; a tunnel under deletion has lost the
   finalizer.
   */
  ghost predicate Settled(env: Env, cl: Cluster, v: Slot) {
    match v.tunnel
    case None => true
    case Some(t) =>
      if t.deleting then !t.finalizer
      else t.finalizer && match Outcome(env, cl, t)
                          case Err(_) => true
                          case Ok(plan) =>
                            && WrittenUpTo(v.children, t, plan, |WRITE_ORDER|)
                            && Reported(v, PassReport(t, plan, v.report.available))
  }

  /** The attempt under way is current; without one, the key is settled or will be looked at again. */
  ghost predicate Fresh(env: Env, cl: Cluster, v: Slot) {
    match v.work
    case Some(w) => Current(env, cl, v, w)
    case None => v.queued || Settled(env, cl, v)
  }

  ghost predicate UpToNow(env: Env, cl: Cluster, v: Slot) {
    v.queued || Fresh(env, cl, v)
  }

  predicate Filed(k: Key, v: Slot) {
    v.tunnel.Some? ==> v.tunnel.value.key == k
  }

  /** The part of the invariant that does not look at the surroundings. */
  predicate Kempt(v: Slot) {
    Guarded(v) && Ordered(v) && Traced(v)
  }

  ghost predicate SlotInv(env: Env, cl: Cluster, k: Key, v: Slot) {
    Filed(k, v) && Kempt(v) && UpToNow(env, cl, v)
  }

  // ---- The order of the children ----

  lemma WrittenIsUpToDate(existing: Option<Child>, m: Managed)
    ensures UpToDate(Overwrite(existing, m), m)
  {
  }

  lemma NoKindLeft(children: map<Kind, Child>)
    requires AbsentUpTo(children, |DELETE_ORDER|)
    ensures children == map[]
  {
    forall kind
      ensures kind !in children
    {
      match kind {
        case ConfigMap => assert DELETE_ORDER[1] !in children;
        case ServiceAccount => assert DELETE_ORDER[4] !in children;
        case Role => assert DELETE_ORDER[3] !in children;
        case RoleBinding => assert DELETE_ORDER[2] !in children;
        case Deployment => assert DELETE_ORDER[0] !in children;
      }
    }
  }

  lemma AllPresentIsClosed(children: map<Kind, Child>)
    requires PresentUpTo(children, |WRITE_ORDER|)
    ensures Closed(children)
  {
    assert WRITE_ORDER[0] == ConfigMap && WRITE_ORDER[1] == ServiceAccount && WRITE_ORDER[2] == Role
           && WRITE_ORDER[3] == RoleBinding;
  }

  lemma WrittenIsPresent(children: map<Kind, Child>, t: Tunnel, plan: Plan, n: nat)
    requires WrittenUpTo(children, t, plan, n)
    ensures PresentUpTo(children, n)
  {
  }

  /** Creating the children in order keeps them complete as far as they go. */
  lemma WriteIsOrdered(children: map<Kind, Child>, next: nat, child: Child)
    requires next < |WRITE_ORDER| && Closed(children) && PresentUpTo(children, next)
    ensures var more := children[WRITE_ORDER[next] := child];
            Closed(more) && PresentUpTo(more, next + 1)
  {
    assert WRITE_ORDER[0] == ConfigMap && WRITE_ORDER[1] == ServiceAccount && WRITE_ORDER[2] == Role
           && WRITE_ORDER[3] == RoleBinding && WRITE_ORDER[4] == Deployment;
  }

  /** So does deleting them in order. */
  lemma DeleteIsOrdered(children: map<Kind, Child>, next: nat)
    requires next < |DELETE_ORDER| && AbsentUpTo(children, next)
    ensures var fewer := children - {DELETE_ORDER[next]};
            AbsentUpTo(fewer, next + 1) && (Closed(children) ==> Closed(fewer))
  {
    assert DELETE_ORDER[0] == Deployment && DELETE_ORDER[1] == ConfigMap && DELETE_ORDER[2] == RoleBinding
           && DELETE_ORDER[3] == Role && DELETE_ORDER[4] == ServiceAccount;
  }

  lemma OrderIsDistinct(i: nat, j: nat)
    requires i < j < |WRITE_ORDER|
    ensures WRITE_ORDER[i] != WRITE_ORDER[j]
  {
  }

  /** One more kind is written, and the ones before it stay written. */
  lemma WriteExtends(children: map<Kind, Child>, t: Tunnel, plan: Plan, next: nat, existing: Option<Child>)
    requires next < |WRITE_ORDER| && WrittenUpTo(children, t, plan, next)
    ensures var kind := WRITE_ORDER[next];
            WrittenUpTo(children[kind := Overwrite(existing, Wanted(t, plan, kind))], t, plan, next + 1)
  {
    hide ManagedPart, Overwrite;
    WrittenIsUpToDate(existing, Wanted(t, plan, WRITE_ORDER[next]));
    forall i | 0 <= i < next
      ensures WRITE_ORDER[i] != WRITE_ORDER[next]
    {
      OrderIsDistinct(i, next);
    }
  }

  /** What storing a child makes of the children. */
  lemma PutChildEffect(v: Slot, kind: Kind, child: Option<Child>, cause: Drift)
    ensures var r := PutChild(v, kind, child, cause);
            && r.children == (if child.Some? then v.children[kind := child.value] else v.children - {kind})
            && r.tunnel == v.tunnel && r.work == v.work
            && r.past.last == v.past.last && r.past.tampered == v.past.tampered
            && (r.children == v.children <==> ChildAt(v, kind) == child)
            && (ChildAt(v, kind) == child ==> r == v)
            && (ChildAt(v, kind) != child ==> r.past.drift == Drifted(v.past.drift, cause))
            && (v.queued ==> r.queued)
            && (child.Some? ==> r.report == v.report)
  {
    if ChildAt(v, kind) == child {
      if child.Some? {
        assert v.children[kind := child.value] == v.children;
      } else {
        assert v.children - {kind} == v.children;
      }
    }
  }

  // ---- Every call keeps the invariant of its key ----

  lemma WriteKeeps(env: Env, cl: Cluster, v: Slot, t: Tunnel, plan: Plan, next: nat)
    requires v.work == Some(Writing(t, plan, next)) && Kempt(v)
    ensures var r := ChildWritten(v, t, plan, next); Kempt(r) && (Fresh(env, cl, v) ==> Fresh(env, cl, r))
  {
    hide ManagedPart, Outcome, ValidateTunnelSpec, Overwrite, UpToDate, Closed, PutChild, PresentUpTo, AbsentUpTo,
         WrittenUpTo;
    if next < |WRITE_ORDER| {
      var kind := WRITE_ORDER[next];
      var child := Overwrite(ChildAt(v, kind), Wanted(t, plan, kind));
      PutChildEffect(v, kind, Some(child), Partial);
      if !v.past.tampered {
        WriteIsOrdered(v.children, next, child);
      }
      if WrittenUpTo(v.children, t, plan, next) {
        WriteExtends(v.children, t, plan, next, ChildAt(v, kind));
      }
    } else {
      WrittenInFull(v.children, t, plan, next);
    }
  }

  lemma WrittenInFull(children: map<Kind, Child>, t: Tunnel, plan: Plan, next: nat)
    requires next >= |WRITE_ORDER|
    ensures WrittenUpTo(children, t, plan, next) ==>
              WrittenUpTo(children, t, plan, |WRITE_ORDER|) && Deployment in children && Closed(children)
  {
    hide ManagedPart, UpToDate;
    if WrittenUpTo(children, t, plan, next) {
      WrittenIsPresent(children, t, plan, |WRITE_ORDER|);
      AllPresentIsClosed(children);
      assert WRITE_ORDER[4] == Deployment;
    }
  }

  lemma DeleteKeeps(env: Env, cl: Cluster, v: Slot, next: nat)
    requires v.work == Some(Deleting(next)) && Kempt(v)
    ensures var r := ChildDeleted(v, next); Kempt(r) && Fresh(env, cl, r)
  {
    hide PutChild, Closed, PresentUpTo, AbsentUpTo, WrittenUpTo;
    if next < |DELETE_ORDER| {
      PutChildEffect(v, DELETE_ORDER[next], None, Partial);
      DeleteIsOrdered(v.children, next);
    } else {
      AllAbsent(v.children, next);
    }
  }

  lemma AllAbsent(children: map<Kind, Child>, next: nat)
    requires next >= |DELETE_ORDER| && AbsentUpTo(children, next)
    ensures children == map[] && Closed(children)
  {
    NoKindLeft(children);
  }

  /** The first call sees the tunnel; after it an attempt on a key not in the queue is up to now. */
  lemma FetchKeeps(env: Env, cl: Cluster, v: Slot)
    requires v.work == Some(Fetching) && Kempt(v)
    ensures var r := Fetched(v); Kempt(r) && Fresh(env, cl, r)
  {
    hide ValidateTunnelSpec, Closed, WrittenUpTo, FinishPlan, ResolveConnection, AbsentUpTo;
    StartIsAbsent(v.children);
  }

  lemma StartIsAbsent(children: map<Kind, Child>)
    ensures AbsentUpTo(children, 0)
  {
  }

  lemma AddFinalizerKeeps(env: Env, cl: Cluster, v: Slot, t: Tunnel)
    requires v.work == Some(AddingFinalizer(t)) && Kempt(v)
    ensures var r := FinalizerAdded(v, t); Kempt(r) && Fresh(env, cl, r)
  {
    hide Closed, WrittenUpTo, AbsentUpTo, PresentUpTo;
  }

  lemma ConnectionReadKeeps(env: Env, cl: Cluster, v: Slot, t: Tunnel)
    requires v.work == Some(ReadingConnection(t)) && Kempt(v)
    ensures var r := ConnectionRead(cl, v, t); Kempt(r) && (Fresh(env, cl, v) ==> Fresh(env, cl, r))
  {
    hide Closed, WrittenUpTo, SecretSet, Conclude, ValidateTunnelSpec, AbsentUpTo, PresentUpTo;
    if ConnectionKey(t) in cl.connections {
      RefOrder();
      var refs := SecretList(cl.connections[ConnectionKey(t)]);
      assert forall i | 0 <= i < |refs| :: refs[i] in refs;
    }
  }

  lemma SecretReadKeeps(env: Env, cl: Cluster, v: Slot, t: Tunnel, c: Connection, refs: seq<SecretRef>, found: Found)
    requires v.work == Some(ReadingSecrets(t, c, refs, found)) && Kempt(v)
    ensures var r := SecretRead(env, cl, v, t, c, refs, found); Kempt(r) && (Fresh(env, cl, v) ==> Fresh(env, cl, r))
  {
    hide Closed, WrittenUpTo, ResolveConnection, SecretSet, Read, AbsentUpTo, PresentUpTo, ValidateTunnelSpec;
    if Fresh(env, cl, v) {
      if refs == [] {
        assert Gather(c, cl.secrets, refs, found) == Ok(found);
      } else {
        var read := Read(c, cl.secrets, found, refs[0]);
        if read.Err? {
          assert Gather(c, cl.secrets, refs, found) == Err(read.error);
        } else {
          assert Gather(c, cl.secrets, refs, found) == Gather(c, cl.secrets, refs[1..], read.value);
        }
      }
    }
  }

  lemma ServiceReadKeeps(env: Env, cl: Cluster, v: Slot, t: Tunnel, r: Resolved)
    requires v.work == Some(ReadingService(t, r)) && Kempt(v)
    ensures var next := ServiceRead(env, cl, v, t, r); Kempt(next) && (Fresh(env, cl, v) ==> Fresh(env, cl, next))
  {
    hide Closed, ResolveConnection, ResolveTarget, PlanFor, ValidateTunnelSpec, AbsentUpTo, PresentUpTo, WrittenUpTo;
    NothingToWrite(v.children);
  }

  lemma NothingToWrite(children: map<Kind, Child>)
    ensures PresentUpTo(children, 0)
    ensures forall t, plan :: WrittenUpTo(children, t, plan, 0)
  {
  }

  /** A status patch leaves everything but the status alone. */
  lemma PatchKeeps(v: Slot, m: T.Mutation)
    requires Kempt(v)
    ensures Kempt(Done(PatchStatus(v, m))) && Kempt(PatchStatus(v, m))
    ensures v.work == Some(Announcing) ==> Kempt(Go(PatchStatus(v, m), Deleting(0)))
    ensures Reported(PatchStatus(v, m), m)
  {
    hide Closed, WrittenUpTo, AbsentUpTo, PresentUpTo, T.Mutate;
    StartIsAbsent(v.children);
    T.MutationIsIdempotent(m, v.report.generation, v.report.status);
  }

  lemma ReportKeeps(env: Env, cl: Cluster, v: Slot, t: Tunnel, plan: Plan, ready: bool)
    requires v.work == Some(Reporting(t, plan, ready)) && Kempt(v)
    ensures var r := PassReported(v, plan, ready); Kempt(r) && (Fresh(env, cl, v) ==> Settled(env, cl, r))
  {
    hide Closed, WrittenUpTo, AbsentUpTo, PresentUpTo, T.Mutate, ValidateTunnelSpec, FinishPlan, PassReport;
    PatchKeeps(v, PassReport(v.tunnel.value, plan, ready));
  }

  lemma BlockKeeps(env: Env, cl: Cluster, v: Slot, t: Tunnel, b: Block)
    requires v.work == Some(Blocking(t, b)) && Kempt(v)
    ensures var r := Done(PatchStatus(v, BlockedReport(env, b)));
            Kempt(r) && (Fresh(env, cl, v) ==> Settled(env, cl, r))
  {
    hide Closed, WrittenUpTo, AbsentUpTo, PresentUpTo, T.Mutate, Outcome, BlockedReport;
    PatchKeeps(v, BlockedReport(env, b));
  }

  lemma CallKeeps(env: Env, cl: Cluster, v: Slot)
    requires Kempt(v) && UpToNow(env, cl, v)
    ensures var r := Called(env, cl, v);
            && Kempt(r) && UpToNow(env, cl, r)
            && (Fresh(env, cl, v) ==> Fresh(env, cl, r))
  {
    hide Kempt, Current, Settled, Fetched, ConnectionRead, SecretRead, ServiceRead, ChildWritten, ChildDeleted,
         PatchStatus, PassReported, FinalizerAdded, Reported;
    CallStaysQueued(env, cl, v);
    match v.work {
      case None =>
      case Some(Fetching) => FetchKeeps(env, cl, v);
      case Some(AddingFinalizer(t)) => AddFinalizerKeeps(env, cl, v, t);
      case Some(ReadingConnection(t)) => ConnectionReadKeeps(env, cl, v, t);
      case Some(ReadingSecrets(t, c, refs, found)) => SecretReadKeeps(env, cl, v, t, c, refs, found);
      case Some(ReadingService(t, r)) => ServiceReadKeeps(env, cl, v, t, r);
      case Some(Blocking(t, b)) => BlockKeeps(env, cl, v, t, b);
      case Some(Writing(t, plan, next)) => WriteKeeps(env, cl, v, t, plan, next);
      case Some(Reporting(t, plan, ready)) =>
        ReportKeeps(env, cl, v, t, plan, ready);
        ReportEnds(v, plan, ready);
      case Some(Announcing) =>
        PatchKeeps(v, T.Finalizing);
        DeletingIsCurrent(env, cl);
      case Some(Deleting(next)) => DeleteKeeps(env, cl, v, next);
    }
  }

  lemma ReportEnds(v: Slot, plan: Plan, ready: bool)
    ensures PassReported(v, plan, ready).work == None
  {
  }

  lemma DeletingIsCurrent(env: Env, cl: Cluster)
    ensures forall v: Slot, next: nat :: Current(env, cl, v, Deleting(next))
  {
  }

  /** The calls that only read. */
  predicate IsRead(w: Work) {
    w.Fetching? || w.ReadingConnection? || w.ReadingSecrets? || w.ReadingService?
  }

  /** They touch nothing but their own progress and the history. */
  lemma ReadsOnly(env: Env, cl: Cluster, v: Slot)
    requires v.work.Some? && IsRead(v.work.value)
    ensures var r := Called(env, cl, v);
            && r == v.(work := r.work, past := r.past)
            && r.past.last == v.past.last && r.past.tampered == v.past.tampered
            && (r.past.drift == Clean <==> v.past.drift == Clean)
  {
    hide Conclude, Read, ResolveTarget, SecretList, ValidateTunnelSpec, PlanFor;
  }

  lemma CallStaysQueued(env: Env, cl: Cluster, v: Slot)
    ensures v.queued ==> Called(env, cl, v).queued
  {
    hide Fetched, ConnectionRead, SecretRead, ServiceRead, Wanted, Overwrite, T.Mutate, PassReport, BlockedReport;
    if v.work.Some? && IsRead(v.work.value) {
      ReadsOnly(env, cl, v);
    }
  }

  lemma TamperKeeps(env: Env, cl: Cluster, v: Slot, kind: Kind, child: Option<Child>)
    requires Kempt(v) && UpToNow(env, cl, v) && kind in v.children
    ensures var r := Tampered(v, kind, child); r.tunnel == v.tunnel && Kempt(r) && UpToNow(env, cl, r)
  {
    hide PutChild, Fresh, Kempt;
    PutChildEffect(v, kind, child, Disturbed);
    PastDoesNotMatter(env, cl, PutChild(v, kind, child, Disturbed), Tampered(v, kind, child).past);
    TamperIsKempt(v, kind, child);
    if ChildAt(v, kind) != child {
      TamperIsSeen(env, cl, v, kind, child);
    }
  }

  lemma PastDoesNotMatter(env: Env, cl: Cluster, v: Slot, past: Past)
    ensures UpToNow(env, cl, v) <==> UpToNow(env, cl, v.(past := past))
  {
    hide Outcome, ValidateTunnelSpec, ResolveConnection, Conclude, WrittenUpTo, T.Mutate;
  }

  lemma TamperIsKempt(v: Slot, kind: Kind, child: Option<Child>)
    requires Kempt(v) && kind in v.children
    ensures Kempt(Tampered(v, kind, child))
  {
    hide PutChild, Closed, PresentUpTo, AbsentUpTo, WrittenUpTo;
    PutChildEffect(v, kind, child, Disturbed);
    TamperKeepsOrder(v, kind, child);
  }

  lemma TamperKeepsOrder(v: Slot, kind: Kind, child: Option<Child>)
    requires kind in v.children
    ensures var children := if child.Some? then v.children[kind := child.value] else v.children - {kind};
            && (forall n: nat :: AbsentUpTo(v.children, n) ==> AbsentUpTo(children, n))
            && (child.Some? && Closed(v.children) ==> Closed(children))
            && (child.Some? ==> forall n: nat :: PresentUpTo(v.children, n) ==> PresentUpTo(children, n))
  {
    if child.Some? {
      assert v.children[kind := child.value].Keys == v.children.Keys;
    }
  }

  /** A change to a child that matters for the current attempt, or for an idle key, concerns an owned child. */
  lemma TamperIsSeen(env: Env, cl: Cluster, v: Slot, kind: Kind, child: Option<Child>)
    requires UpToNow(env, cl, v) && kind in v.children && ChildAt(v, kind) != child
    ensures var r := PutChild(v, kind, child, Disturbed);
            r.queued || (v.children[kind].owned == false && UpToNow(env, cl, r))
  {
    hide Outcome, ValidateTunnelSpec, ResolveConnection, Conclude, ManagedPart, T.Mutate, PassReport;
    if !v.queued && !v.children[kind].owned {
      UnownedIsUnwritten(v.children, kind, child);
      EveryKindIsWritten(kind);
    }
  }

  predicate IsKind(kind: Kind, i: nat) {
    i < |WRITE_ORDER| && WRITE_ORDER[i] == kind
  }

  lemma EveryKindIsWritten(kind: Kind)
    ensures exists i: nat :: IsKind(kind, i)
  {
    assert IsKind(ConfigMap, 0) && IsKind(ServiceAccount, 1) && IsKind(Role, 2) && IsKind(RoleBinding, 3)
           && IsKind(Deployment, 4);
  }

  lemma UnownedIsUnwritten(children: map<Kind, Child>, kind: Kind, child: Option<Child>)
    requires kind in children && !children[kind].owned
    ensures var more := if child.Some? then children[kind := child.value] else children - {kind};
            && (forall t, plan, n: nat | WrittenUpTo(children, t, plan, n) :: WrittenUpTo(more, t, plan, n))
            && (forall t, plan :: !WrittenUpTo(children, t, plan, |WRITE_ORDER|))
  {
    hide ManagedPart;
    EveryKindIsWritten(kind);
  }

  lemma EditKeeps(env: Env, cl: Cluster, k: Key, v: Slot, a: Action)
    requires SlotInv(env, cl, k, v) && (a.Create? || a.Edit? || a.Delete? || a.Resync? || a.Dequeue?)
    ensures SlotInv(env, cl, k, Act(env, cl, k, v, a))
  {
    hide Outcome, ResolveConnection, ValidateTunnelSpec, Closed, WrittenUpTo, AbsentUpTo, PresentUpTo, Reported,
         Conclude;
  }

  lemma FailKeeps(env: Env, cl: Cluster, v: Slot)
    requires Kempt(v) && UpToNow(env, cl, v)
    ensures Kempt(Failed(v)) && UpToNow(env, cl, Failed(v)) && Failed(v).tunnel == v.tunnel
  {
    hide ResolveConnection, ValidateTunnelSpec, Closed, WrittenUpTo, AbsentUpTo, PresentUpTo, Reported, Conclude,
         Outcome;
    StartIsAbsent(v.children);
  }

  lemma ReportingKeeps(env: Env, cl: Cluster, k: Key, v: Slot, a: Action)
    requires SlotInv(env, cl, k, v) && (a.Availability? || a.AgentReport?)
    ensures SlotInv(env, cl, k, Act(env, cl, k, v, a))
  {
    hide Outcome, ResolveConnection, ValidateTunnelSpec, Closed, AbsentUpTo, PresentUpTo, T.Mutate, Conclude,
         PassReport,
         ManagedPart;
    if a.Availability? && Deployment in v.children && !v.children[Deployment].owned {
      UnownedIsUnwritten(v.children, Deployment, None);
    }
  }

  /** Every action on a key keeps its invariant. */
  lemma ActKeeps(env: Env, cl: Cluster, k: Key, v: Slot, a: Action)
    requires SlotInv(env, cl, k, v)
    ensures SlotInv(env, cl, k, Act(env, cl, k, v, a))
  {
    hide Called, Kempt, Fresh, Tampered, PatchStatus, Failed, Edited, Deleted;
    match a {
      case Call =>
        CallKeeps(env, cl, v);
        CallStaysFiled(env, cl, k, v);
      case Tamper(kind, child) =>
        if kind in v.children {
          TamperKeeps(env, cl, v, kind, child);
        }
      case Fail => FailKeeps(env, cl, v);
      case Availability(_) => ReportingKeeps(env, cl, k, v, a);
      case AgentReport(_) => ReportingKeeps(env, cl, k, v, a);
      case _ => EditKeeps(env, cl, k, v, a);
    }
  }

  lemma CallStaysFiled(env: Env, cl: Cluster, k: Key, v: Slot)
    requires Filed(k, v)
    ensures Filed(k, Called(env, cl, v))
  {
    hide Fetched, ConnectionRead, SecretRead, ServiceRead, Wanted, Overwrite, T.Mutate, PassReport, BlockedReport;
    if v.work.Some? && IsRead(v.work.value) {
      ReadsOnly(env, cl, v);
    }
  }

  /** A change of the objects around the tunnels keeps the invariant of every key that it queues or does not concern. */
  lemma ClusterFrame(env: Env, a: Cluster, b: Cluster, k: Key, v: Slot, queue: bool)
    requires SlotInv(env, a, k, v)
    requires !queue && v.tunnel.Some? ==> forall o | o in Inputs(a, v.tunnel.value) :: SameObject(a, b, o)
    ensures SlotInv(env, b, k, v.(queued := v.queued || queue))
  {
    hide Outcome, ResolveConnection, Conclude, ValidateTunnelSpec, Closed, WrittenUpTo, Inputs;
    if !v.queued && !queue && v.tunnel.Some? {
      var t := v.tunnel.value;
      OutcomeFrame(env, a, b, t);
      InputsAgree(a, b, t);
      if v.work.Some? && v.work.value.ReadingSecrets? {
        var c, refs := v.work.value.connection, v.work.value.refs;
        GatherFrame(c, a.secrets, b.secrets, refs, v.work.value.found);
      }
    }
  }

  lemma InputsAgree(a: Cluster, b: Cluster, t: Tunnel)
    requires forall o | o in Inputs(a, t) :: SameObject(a, b, o)
    ensures Lookup(a.connections, ConnectionKey(t)) == Lookup(b.connections, ConnectionKey(t))
    ensures var c := Lookup(a.connections, ConnectionKey(t));
            c.Some? ==> forall ref | ref in SecretSet(c.value) ::
              Lookup(a.secrets, SecretKey(c.value, ref)) == Lookup(b.secrets, SecretKey(c.value, ref))
  {
    assert SameObject(a, b, TheConnection(ConnectionKey(t)));
    if ConnectionKey(t) in a.connections {
      var c := a.connections[ConnectionKey(t)];
      forall ref | ref in SecretSet(c)
        ensures Lookup(a.secrets, SecretKey(c, ref)) == Lookup(b.secrets, SecretKey(c, ref))
      {
        assert SameObject(a, b, TheSecret(SecretKey(c, ref)));
      }
    }
  }

  // ---- The whole system ----

  datatype System = System(
    cluster: Cluster,
    reports: map<Key, Report>,
    children: map<Key, map<Kind, Child>>,
    queue: set<Key>,
    work: map<Key, Work>,
    pasts: map<Key, Past>)

  function At(s: System, k: Key): Slot {
    Slot(Lookup(s.cluster.tunnels, k),
         if k in s.reports then s.reports[k] else NO_REPORT,
         if k in s.children then s.children[k] else map[],
         k in s.queue,
         Lookup(s.work, k),
         if k in s.pasts then s.pasts[k] else NO_PAST)
  }

  function Assign<V>(m: map<Key, V>, k: Key, v: Option<V>): map<Key, V> {
    if v.Some? then m[k := v.value] else m - {k}
  }

  function Toggle(s: set<Key>, k: Key, on: bool): set<Key> {
    if on then s + {k} else s - {k}
  }

  /** The system with the slot of one key replaced. */
  function With(s: System, k: Key, v: Slot): System {
    System(
      s.cluster.(tunnels := Assign(s.cluster.tunnels, k, v.tunnel)),
      s.reports[k := v.report],
      s.children[k := v.children],
      Toggle(s.queue, k, v.queued),
      Assign(s.work, k, v.work),
      s.pasts[k := v.past])
  }

  lemma WithAt(s: System, k: Key, v: Slot, other: Key)
    ensures At(With(s, k, v), other) == if other == k then v else At(s, other)
  {
  }

  datatype Step =
    | On(key: Key, action: Action)
    | SetConnection(key: Key, connection: Option<Connection>)
    | SetSecret(key: Key, secret: Option<Secret>)
    | SetService(key: Key, service: Option<Service>)
    | Crash

  /** A restarted manager has lost its queue and its attempts, and lists all tunnels. */
  function Restarted(s: System): System {
    s.(queue := s.cluster.tunnels.Keys, work := map[])
  }

  /** The object that a step on the surroundings changes. */
  function Changed(step: Step): Object
    requires !step.On? && !step.Crash?
  {
    match step
    case SetConnection(key, _) => TheConnection(key)
    case SetSecret(key, _) => TheSecret(key)
    case SetService(key, _) => TheService(key)
  }

  function Surroundings(cl: Cluster, step: Step): Cluster
    requires !step.On? && !step.Crash?
  {
    match step
    case SetConnection(key, c) =>
      if c.Some? && c.value.key != key then cl else cl.(connections := Assign(cl.connections, key, c))
    case SetSecret(key, secret) => cl.(secrets := Assign(cl.secrets, key, secret))
    case SetService(key, service) =>
      if service.Some? && service.value.key != key then cl else cl.(services := Assign(cl.services, key, service))
  }

  /** After a change of a connection, a Secret or a Service, the tunnels that the index lists for it are queued. */
  function Affected(s: System, step: Step): System
    requires !step.On? && !step.Crash?
  {
    var cl := Surroundings(s.cluster, step);
    s.(cluster := cl, queue := s.queue + Index(cl, Changed(step)))
  }

  ghost function Next(env: Env, s: System, step: Step): System {
    match step
    case On(k, action) => With(s, k, Act(env, s.cluster, k, At(s, k), action))
    case Crash => Restarted(s)
    case _ => Affected(s, step)
  }

  ghost function Run(env: Env, s: System, steps: seq<Step>): System {
    if steps == [] then s else Next(env, Run(env, s, steps[..|steps| - 1]), steps[|steps| - 1])
  }

  ghost predicate Inv(env: Env, s: System) {
    && Keyed(s.cluster)
    && forall k :: SlotInv(env, s.cluster, k, At(s, k))
  }

  /** The manager starts on a cluster in which it has made nothing yet. */
  predicate Initial(s: System) {
    && Keyed(s.cluster)
    && s.children == map[] && s.work == map[] && s.pasts == map[]
    && s.queue == s.cluster.tunnels.Keys
  }

  lemma InitialInv(env: Env, s: System)
    requires Initial(s)
    ensures Inv(env, s)
  {
    hide Outcome, ResolveConnection, Conclude, ValidateTunnelSpec, T.Mutate, PassReport, ManagedPart;
  }

  /** What a tunnel's invariant says does not depend on the other tunnels. */
  lemma OtherTunnels(env: Env, cl: Cluster, tunnels: map<Key, Tunnel>, k: Key, v: Slot)
    requires SlotInv(env, cl, k, v)
    ensures SlotInv(env, cl.(tunnels := tunnels), k, v)
  {
    var b := cl.(tunnels := tunnels);
    assert forall o :: SameObject(cl, b, o);
    assert v.(queued := v.queued || false) == v;
    ClusterFrame(env, cl, b, k, v, false);
  }

  lemma OnKeeps(env: Env, s: System, k: Key, a: Action)
    requires Inv(env, s)
    ensures Inv(env, Next(env, s, On(k, a)))
  {
    hide SlotInv, Act, At, Inv, With;
    var v := Act(env, s.cluster, k, At(s, k), a);
    var next := With(s, k, v);
    InvParts(env, s);
    InvParts(env, next);
    ActKeeps(env, s.cluster, k, At(s, k), a);
    WithKeyed(env, s, k, v);
    forall other
      ensures SlotInv(env, next.cluster, other, At(next, other))
    {
      WithAt(s, k, v, other);
      OtherTunnels(env, s.cluster, next.cluster.tunnels, other, if other == k then v else At(s, other));
    }
  }

  lemma WithKeyed(env: Env, s: System, k: Key, v: Slot)
    requires Keyed(s.cluster) && SlotInv(env, s.cluster, k, v)
    ensures Keyed(With(s, k, v).cluster)
    ensures With(s, k, v).cluster == s.cluster.(tunnels := With(s, k, v).cluster.tunnels)
  {
    hide Kempt, UpToNow;
  }

  lemma CrashKeeps(env: Env, s: System)
    requires Inv(env, s)
    ensures Inv(env, Restarted(s))
  {
    hide SlotInv;
    forall k
      ensures SlotInv(env, s.cluster, k, At(Restarted(s), k))
    {
      RestartedSlot(env, s.cluster, k, At(s, k));
    }
  }

  lemma RestartedSlot(env: Env, cl: Cluster, k: Key, v: Slot)
    requires SlotInv(env, cl, k, v)
    ensures SlotInv(env, cl, k, v.(queued := v.tunnel.Some?, work := None))
  {
    hide Outcome, ValidateTunnelSpec, Closed, ResolveConnection, Conclude, WrittenUpTo, AbsentUpTo, PresentUpTo,
         Reported;
  }

  lemma SurroundingsDiffer(cl: Cluster, step: Step)
    requires !step.On? && !step.Crash?
    ensures DifferOnlyIn(cl, Surroundings(cl, step), Changed(step))
    ensures Keyed(cl) ==> Keyed(Surroundings(cl, step))
  {
  }

  lemma AffectedAt(s: System, step: Step, k: Key)
    requires !step.On? && !step.Crash?
    ensures var v := At(s, k);
            At(Affected(s, step), k)
            == v.(queued := v.queued || k in Index(Surroundings(s.cluster, step), Changed(step)))
  {
    hide Index;
  }

  lemma InvParts(env: Env, s: System)
    ensures Inv(env, s) <==> Keyed(s.cluster) && forall k :: SlotInv(env, s.cluster, k, At(s, k))
  {
    hide SlotInv, At;
  }

  lemma TunnelAt(s: System, k: Key)
    ensures At(s, k).tunnel == Lookup(s.cluster.tunnels, k)
  {
  }

  lemma AffectedKeeps(env: Env, s: System, step: Step)
    requires Inv(env, s) && !step.On? && !step.Crash?
    ensures Inv(env, Affected(s, step))
  {
    hide SlotInv, Index, Inputs, At, Surroundings, Changed, Inv, DifferOnlyIn, SameObject, Keyed, Outcome;
    var a, b, o := s.cluster, Surroundings(s.cluster, step), Changed(step);
    SurroundingsDiffer(a, step);
    InvParts(env, s);
    InvParts(env, Affected(s, step));
    forall k
      ensures SlotInv(env, b, k, At(Affected(s, step), k))
    {
      AffectedAt(s, step, k);
      TunnelAt(s, k);
      SlotAffected(env, a, b, o, k, At(s, k));
    }
  }

  lemma SlotAffected(env: Env, a: Cluster, b: Cluster, o: Object, k: Key, v: Slot)
    requires Keyed(a) && Keyed(b) && DifferOnlyIn(a, b, o) && SlotInv(env, a, k, v)
    requires v.tunnel == Lookup(a.tunnels, k)
    ensures SlotInv(env, b, k, v.(queued := v.queued || k in Index(b, o)))
  {
    hide SlotInv, Index, Inputs, Outcome, Keyed, SameObject;
    if k in a.tunnels {
      IndexCovers(env, a, b, o, k);
    }
    ClusterFrame(env, a, b, k, v, k in Index(b, o));
  }

  lemma InvNext(env: Env, s: System, step: Step)
    requires Inv(env, s)
    ensures Inv(env, Next(env, s, step))
  {
    hide Inv, With, Act, At, Affected, Restarted;
    match step {
      case On(k, a) => OnKeeps(env, s, k, a);
      case Crash => CrashKeeps(env, s);
      case _ => AffectedKeeps(env, s, step);
    }
  }

  lemma {:induction false} EveryRunKeeps(env: Env, s: System, steps: seq<Step>)
    requires Initial(s)
    ensures Inv(env, Run(env, s, steps))
  {
    hide Inv, Next, Initial;
    if steps == [] {
      InitialInv(env, s);
    } else {
      EveryRunKeeps(env, s, steps[..|steps| - 1]);
      InvNext(env, Run(env, s, steps[..|steps| - 1]), steps[|steps| - 1]);
    }
  }
}
