/** What the controller guarantees in every reachable state, and where it gets when it is left alone. */
module Convergence {
  import opened Wrappers
  import opened Api
  import opened AgentConfig
  import opened Services
  import opened SecretRefs
  import opened Workload
  import opened Reconcile
  import opened Controller
  import T = TunnelStatus
  import N = Names
  import Text

  /** Nobody will look at the key again, unless something changes. */
  predicate Idle(s: System, k: Key) {
    k !in s.queue && k !in s.work
  }

  /** All five children are there and as they should be. */
  ghost predicate AllUpToDate(children: map<Kind, Child>, t: Tunnel, plan: Plan) {
    forall kind: Kind ::
      kind in children && UpToDate(children[kind], ManagedPart(kind, t, plan.connection, plan.options))
  }

  lemma WrittenIsAll(children: map<Kind, Child>, t: Tunnel, plan: Plan)
    requires WrittenUpTo(children, t, plan, |WRITE_ORDER|)
    ensures AllUpToDate(children, t, plan)
  {
    hide ManagedPart, UpToDate;
    forall kind: Kind
      ensures kind in children && UpToDate(children[kind], ManagedPart(kind, t, plan.connection, plan.options))
    {
      EveryKindIsWritten(kind);
      var i: nat :| IsKind(kind, i);
    }
  }

  /**
   Convergence: in every state of every run, an idle live tunnel has the finalizer and, if it can be reconciled in
   the cluster as it is now, all five children as computed from the cluster as it is now, and a status to which a
   report of that has nothing to add; an idle tunnel under deletion has lost the finalizer.
   */
  lemma IdleIsConverged(env: Env, start: System, steps: seq<Step>, k: Key)
    requires Initial(start)
    requires var s := Run(env, start, steps); Idle(s, k) && k in s.cluster.tunnels
    ensures var s := Run(env, start, steps);
            var t := s.cluster.tunnels[k];
            && (t.finalizer <==> !t.deleting)
            && (!t.deleting && Outcome(env, s.cluster, t).Ok? ==>
                  var plan := Outcome(env, s.cluster, t).value;
                  && k in s.children && AllUpToDate(s.children[k], t, plan)
                  && Reported(At(s, k), PassReport(t, plan, At(s, k).report.available)))
  {
    hide Run, Kempt, Outcome, PassReport, Reported, WrittenUpTo, AllUpToDate, Current;
    EveryRunKeeps(env, start, steps);
    var s := Run(env, start, steps);
    var t := s.cluster.tunnels[k];
    assert SlotInv(env, s.cluster, k, At(s, k));
    if !t.deleting && Outcome(env, s.cluster, t).Ok? {
      WrittenIsAll(At(s, k).children, t, Outcome(env, s.cluster, t).value);
      NoneIsNotAll(t, Outcome(env, s.cluster, t).value);
    }
  }

  /**
   What the pods of such a tunnel get, down to the objects it is computed from: the stored ConfigMap holds the encoding
   of a configuration for the Service that dials and names the tunnel as the Control plane answers to the stored
   connection, its token and its headers; image and replicas are the spec's, or the manager's.
   */
  lemma IdlePodsMean(env: Env, start: System, steps: seq<Step>, k: Key)
    returns (c: Connection, found: Found, res: Resolution, config: Config)
    requires Initial(start)
    requires var s := Run(env, start, steps);
             && Idle(s, k) && k in s.cluster.tunnels && !s.cluster.tunnels[k].deleting
             && Outcome(env, s.cluster, s.cluster.tunnels[k]).Ok?
    ensures var s := Run(env, start, steps);
            var t := s.cluster.tunnels[k];
            && Lookup(s.cluster.connections,
                      Key(k.namespace, if t.spec.connectionRef.Some? && t.spec.connectionRef.value != ""
                                       then t.spec.connectionRef.value else "default")) == Some(c)
            && HoldsAll(c, s.cluster.secrets) && FoundMeans(c, s.cluster.secrets, found)
            && env.resolve(c, found.token, found.headers) == Ok(res)
            && ConfigMeans(t, c, s.cluster.services, res, config)
            && k in s.children && PodsGet(env, s.children[k], t, config)
  {
    hide Run, Outcome, Kempt, HoldsAll, FoundMeans, ConfigMeans, PodsGet, AllUpToDate, Reported, PassReport, SlotInv,
         VersionList, VersionsOf, SecretSet;
    IdleIsConverged(env, start, steps, k);
    EveryRunKeeps(env, start, steps);
    var s := Run(env, start, steps);
    var t := s.cluster.tunnels[k];
    assert At(s, k).tunnel == Some(t) && SlotInv(env, s.cluster, k, At(s, k));
    InvIsFiled(env, s.cluster, k, At(s, k));
    found, res, config := PlanMeans(env, s.cluster, t);
    c := Outcome(env, s.cluster, t).value.connection;
    StoredMeans(env, s.children[k], t, Outcome(env, s.cluster, t).value, config);
  }

  /** The two children that say what the pods run. */
  predicate PodsGet(env: Env, children: map<Kind, Child>, t: Tunnel, config: Config) {
    && ConfigMap in children && Deployment in children
    && children[ConfigMap].managed.body == ConfigMapBody(map["config.yaml" := env.marshal(config)])
    && var agent := t.spec.agent;
       match children[Deployment].managed.body
       case DeploymentBody(replicas, image, _, _, _, _, configMap, _, _) =>
         && replicas == (if agent.Some? && agent.value.replicas.Some? then agent.value.replicas.value else 1)
         && image == (if agent.Some? && agent.value.image != "" then agent.value.image else env.agentImage)
         && configMap == children[ConfigMap].managed.name
       case _ => false
  }

  lemma InvIsFiled(env: Env, cl: Cluster, k: Key, v: Slot)
    requires SlotInv(env, cl, k, v)
    ensures Filed(k, v)
  {
  }

  lemma StoredMeans(env: Env, children: map<Kind, Child>, t: Tunnel, plan: Plan, config: Config)
    requires AllUpToDate(children, t, plan)
    requires plan.options.configText == env.marshal(config) && plan.options.agentImage == env.agentImage
    ensures PodsGet(env, children, t, config)
  {
    hide ManagedPart;
    PodsMean(t, plan.connection, plan.options);
    ChildrenFit(t, plan.connection, plan.options);
  }

  lemma NoneIsNotAll(t: Tunnel, plan: Plan)
    ensures !AllUpToDate(map[], t, plan)
  {
    hide UpToDate, ManagedPart;
    var none: map<Kind, Child> := map[];
    assert ConfigMap !in none;
  }

  /**
   A status that reports a full pass says Accepted and Resolved at the tunnel's generation, AgentReady exactly if the
   Deployment is available, and Ready exactly if it is and TunnelReady is True; the target is host and port.
   */
  lemma ReportedMeans(v: Slot, now: Tunnel, plan: Plan, ready: bool)
    requires Reported(v, PassReport(now, plan, ready))
    ensures var cs := v.report.status.conditions;
            && T.Find(cs, T.Accepted) == Some(T.SpecAccepted(v.report.generation))
            && T.Find(cs, T.Resolved) == Some(T.TargetResolved(v.report.generation))
    ensures SaysReconciled(v.report, now, plan, ready)
  {
    hide T.MutateConditions, SaysReconciled, N.NamesFor, N.RstreamName, Address;
    var m, g, s := PassReport(now, plan, ready), v.report.generation, v.report.status;
    PassEntries(m, g, s);
    PassIsSaid(v.report, now, plan, ready);
  }

  lemma PassEntries(m: T.Mutation, g: int, s: T.Status)
    requires m.Reconciled?
    ensures T.Find(T.Mutate(m, g, s).conditions, T.Accepted) == Some(T.SpecAccepted(g))
    ensures T.Find(T.Mutate(m, g, s).conditions, T.Resolved) == Some(T.TargetResolved(g))
  {
    hide T.SpecAccepted, T.TargetResolved, T.MutateConditions, T.DeploymentAvailable, T.DeploymentPending,
         T.NothingReported, T.TunnelIsReady, T.WaitsForTunnel, T.WaitsForDeployment;
    T.FixedConditions(g, "");
    T.SetsEntry(m, g, s.conditions, 0);
    T.SetsEntry(m, g, s.conditions, 1);
  }

  lemma PassIsSaid(r: Report, now: Tunnel, plan: Plan, ready: bool)
    requires T.Mutate(PassReport(now, plan, ready), r.generation, r.status) == r.status
    ensures SaysReconciled(r, now, plan, ready)
  {
    hide T.Mutate, T.UniqueTypes, T.Find, Itoa, N.NamesFor, N.RstreamName, N.DnsLabel;
    T.ReconciledMeans(PassReport(now, plan, ready), r.generation, r.status);
    N.NamesMean(IdentityOf(now));
    RegisteredAs(now);
  }

  lemma RegisteredAs(t: Tunnel)
    ensures N.RstreamName(IdentityOf(t), t.spec.tunnelName)
         == if Text.TrimSpace(t.spec.tunnelName) != "" then Text.TrimSpace(t.spec.tunnelName)
            else N.DnsLabel(t.key.namespace + "-" + t.key.name)
  {
  }

  /** What a report says about a tunnel whose children are all there; `ready` is the Deployment's availability. */
  predicate SaysReconciled(r: Report, t: Tunnel, plan: Plan, ready: bool) {
    var s, g := r.status, r.generation;
    && T.Says(s.conditions, T.Accepted, T.True, g, T.ByAccepted)
    && T.Says(s.conditions, T.Resolved, T.True, g, T.ByResolved)
    && (if ready then T.Says(s.conditions, T.AgentReady, T.True, g, T.ByDeploymentAvailable)
        else T.Says(s.conditions, T.AgentReady, T.False, g, T.ByDeploymentPending))
    && (T.StatusOf(s.conditions, T.Ready) == T.True
        <==> ready && T.StatusOf(s.conditions, T.TunnelReady) == T.True)
    && T.StatusOf(s.conditions, T.Ready) != T.Unknown
    && s.observedGeneration == g && s.lastError == ""
    && s.target == plan.target.host + ":" + Itoa(plan.target.port)
    && s.agentDeployment == N.NamesFor(IdentityOf(t)).base
    && s.rstreamName == (if Text.TrimSpace(t.spec.tunnelName) != "" then Text.TrimSpace(t.spec.tunnelName)
                         else N.DnsLabel(t.key.namespace + "-" + t.key.name))
  }

  /**
   What a report says about a tunnel that cannot be reconciled because of `b`, which is described as `text`: never
   ready; only a target that is not there leaves the spec accepted; an invalid spec is told apart from the rest.
   */
  predicate SaysBlocked(r: Report, b: Block, text: string) {
    var s, g := r.status, r.generation;
    && T.StatusOf(s.conditions, T.Ready) == T.False
    && s.observedGeneration == g && s.lastError == text
    && (match b
        case BadTarget(_) =>
          && T.Says(s.conditions, T.Accepted, T.True, g, T.ByAccepted)
          && T.Says(s.conditions, T.Resolved, T.False, g, T.ByServiceMissing)
          && T.Says(s.conditions, T.Ready, T.False, g, T.ByServiceMissing)
        case InvalidSpec(_) =>
          && T.Says(s.conditions, T.Accepted, T.False, g, T.ByInvalidSpec)
          && T.Says(s.conditions, T.Ready, T.False, g, T.ByInvalidSpec)
        case _ =>
          && T.Says(s.conditions, T.Accepted, T.False, g, T.ByConnectionMissing)
          && T.Says(s.conditions, T.Ready, T.False, g, T.ByConnectionMissing))
  }

  /** The text: the Control plane's own if the connection could not be resolved there. */
  function BlockText(env: Env, b: Block): string {
    if b.Unresolved? then b.error else env.describe(b)
  }

  /** The same for a tunnel that is blocked: its report has nothing to add only to a status that says what blocks it. */
  lemma BlockedMeans(env: Env, v: Slot, b: Block)
    requires Reported(v, BlockedReport(env, b))
    ensures SaysBlocked(v.report, b, BlockText(env, b))
  {
    hide T.MutateConditions, T.UniqueTypes;
    var m, g, s := BlockedReport(env, b), v.report.generation, v.report.status;
    if m.TargetBlocked? {
      T.TargetBlockedMeans(m, g, s);
    } else {
      T.TunnelBlockedMeans(m, g, s);
    }
  }

  /** No orphans: in every state of every run, only a tunnel that exists and has the finalizer has children. */
  lemma NoOrphans(env: Env, start: System, steps: seq<Step>, k: Key)
    requires Initial(start)
    ensures var s := Run(env, start, steps);
            k in s.children && s.children[k] != map[] ==> k in s.cluster.tunnels && s.cluster.tunnels[k].finalizer
  {
    hide Run, UpToNow, Ordered, Traced;
    EveryRunKeeps(env, start, steps);
    assert SlotInv(env, Run(env, start, steps).cluster, k, At(Run(env, start, steps), k));
  }

  /**
   Dependency closure: in every state of every run, failed or not, a Deployment has its ConfigMap and RoleBinding, a
   RoleBinding its Role and a Role its ServiceAccount, unless a third party has deleted a child since the last pass
   that nothing interfered with.
   */
  lemma ChildrenAreClosed(env: Env, start: System, steps: seq<Step>, k: Key)
    requires Initial(start)
    ensures var v := At(Run(env, start, steps), k); !v.past.tampered ==> Closed(v.children)
  {
    hide Run, UpToNow, Guarded, Traced, Closed;
    EveryRunKeeps(env, start, steps);
    assert SlotInv(env, Run(env, start, steps).cluster, k, At(Run(env, start, steps), k));
  }

  predicate HasFinalizer(s: System, k: Key) {
    k in s.cluster.tunnels && s.cluster.tunnels[k].finalizer
  }

  /** The finalizer only goes in the last call of a deletion, when all five children are gone. */
  lemma FinalizerGoesLast(env: Env, start: System, steps: seq<Step>, step: Step, k: Key)
    requires Initial(start)
    requires HasFinalizer(Run(env, start, steps), k) && !HasFinalizer(Next(env, Run(env, start, steps), step), k)
    ensures var s := Run(env, start, steps);
            && step == On(k, Call)
            && (k in s.work && s.work[k].Deleting? && s.work[k].next >= |DELETE_ORDER|)
            && (k in s.children ==> s.children[k] == map[])
  {
    hide At, With, Act, SlotInv, Run;
    var s := Run(env, start, steps);
    EveryRunKeeps(env, start, steps);
    FinalizerAt(s, k);
    FinalizerAt(Next(env, s, step), k);
    assert SlotInv(env, s.cluster, k, At(s, k));
    match step {
      case On(other, a) =>
        WithAt(s, other, Act(env, s.cluster, other, At(s, other), a), k);
        LastCall(env, s.cluster, k, At(s, k), a);
      case Crash =>
      case _ =>
    }
  }

  lemma FinalizerAt(s: System, k: Key)
    ensures HasFinalizer(s, k) <==> At(s, k).tunnel.Some? && At(s, k).tunnel.value.finalizer
    ensures Lookup(s.work, k) == At(s, k).work
    ensures k in s.children ==> s.children[k] == At(s, k).children
  {
  }

  lemma LastCall(env: Env, cl: Cluster, k: Key, v: Slot, a: Action)
    requires SlotInv(env, cl, k, v) && v.tunnel.Some? && v.tunnel.value.finalizer
    ensures var r := Act(env, cl, k, v, a);
            (r.tunnel.Some? && r.tunnel.value.finalizer)
            || (a.Call? && v.work.Some? && v.work.value.Deleting? && v.work.value.next >= |DELETE_ORDER|
                && v.children == map[])
  {
    hide Act, Closed;
    if a.Call? && v.work.Some? && v.work.value.Deleting? && v.work.value.next >= |DELETE_ORDER| {
      NoKindLeft(v.children);
    } else {
      FinalizerStays(env, cl, k, v, a);
    }
  }

  lemma FinalizerStays(env: Env, cl: Cluster, k: Key, v: Slot, a: Action)
    requires v.tunnel.Some? && v.tunnel.value.finalizer
    requires !(a.Call? && v.work.Some? && v.work.value.Deleting? && v.work.value.next >= |DELETE_ORDER|)
    ensures var r := Act(env, cl, k, v, a); r.tunnel.Some? && r.tunnel.value.finalizer
  {
    hide Fetched, ConnectionRead, SecretRead, ServiceRead, ManagedPart, Overwrite, T.Mutate, PassReport, BlockedReport;
    if v.work.Some? && IsRead(v.work.value) {
      ReadsOnly(env, cl, v);
    }
  }

  // ---- What the children are while nothing can be reconciled ----

  /**
   The actions that change children: a write of something new, a deletion that finds something, a third party's
   change.
   */
  predicate Departs(v: Slot, a: Action) {
    match a
    case Call => WritesNew(v) || DeletesChild(v)
    case Tamper(kind, child) => kind in v.children && ChildAt(v, kind) != child
    case _ => false
  }

  predicate WritesNew(v: Slot) {
    match v.work
    case Some(Writing(t, plan, next)) =>
      next < |WRITE_ORDER|
      && ChildAt(v, WRITE_ORDER[next])
         != Some(Overwrite(ChildAt(v, WRITE_ORDER[next]), Wanted(t, plan, WRITE_ORDER[next])))
    case _ => false
  }

  predicate DeletesChild(v: Slot) {
    v.work.Some? && v.work.value.Deleting? && v.work.value.next < |DELETE_ORDER|
    && DELETE_ORDER[v.work.value.next] in v.children
  }

  /** What a step of the history says about the children, next to what happened to them. */
  ghost predicate Noted(v: Slot, r: Slot, departs: bool) {
    && (r.children != v.children <==> departs)
    && (v.past.drift == Clean && Kempt(v) ==>
          && (r.past.drift != Clean <==> departs)
          && (r.past.drift == Clean <==> r.children == LeftBy(r.past.last)))
    && (r.past.last != v.past.last ==> r.past.drift == Clean)
  }

  /** These are all, and each of them does; the history takes note of exactly them. */
  lemma ChildrenChange(env: Env, cl: Cluster, k: Key, v: Slot, a: Action)
    ensures Noted(v, Act(env, cl, k, v, a), Departs(v, a))
  {
    hide PutChild, ManagedPart, Overwrite, T.Mutate, PassReport, BlockedReport, Fetched, ConnectionRead, SecretRead,
         ServiceRead, WrittenUpTo, ChildWritten, ChildDeleted, Kempt, Noted, WritesNew, DeletesChild;
    if a.Tamper? {
      TamperNoted(v, a.kind, a.child);
    } else if a.Call? && v.work.Some? {
      match v.work.value {
        case Writing(t, plan, next) => WriteNoted(v, t, plan, next);
        case Deleting(next) => DeleteNoted(v, next);
        case w =>
          NeitherDeparts(v);
          if IsRead(w) {
            ReadsOnly(env, cl, v);
          }
          SameNoted(v, Called(env, cl, v));
      }
    } else {
      NeitherDeparts(v);
      SameNoted(v, Act(env, cl, k, v, a));
    }
  }

  lemma NeitherDeparts(v: Slot)
    ensures !(v.work.Some? && v.work.value.Writing?) ==> !WritesNew(v)
    ensures !(v.work.Some? && v.work.value.Deleting?) ==> !DeletesChild(v)
  {
  }

  lemma SameNoted(v: Slot, r: Slot)
    requires r.children == v.children && r.past.last == v.past.last
    requires r.past.drift == Clean <==> v.past.drift == Clean
    ensures Noted(v, r, false)
  {
    hide WrittenUpTo, Guarded, Ordered;
  }

  lemma TamperNoted(v: Slot, kind: Kind, child: Option<Child>)
    ensures var departs := kind in v.children && ChildAt(v, kind) != child;
            Noted(v, if kind in v.children then Tampered(v, kind, child) else v, departs)
  {
    hide PutChild, WrittenUpTo, Guarded, Ordered;
    PutChildEffect(v, kind, child, Disturbed);
  }

  lemma WriteNoted(v: Slot, t: Tunnel, plan: Plan, next: nat)
    requires v.work == Some(Writing(t, plan, next))
    ensures Noted(v, ChildWritten(v, t, plan, next), WritesNew(v))
    ensures !DeletesChild(v)
  {
    hide PutChild, WrittenUpTo, Guarded, Ordered, Overwrite, Wanted;
    if next < |WRITE_ORDER| {
      var kind := WRITE_ORDER[next];
      PutChildEffect(v, kind, Some(Overwrite(ChildAt(v, kind), Wanted(t, plan, kind))), Partial);
    }
  }

  lemma DeleteNoted(v: Slot, next: nat)
    requires v.work == Some(Deleting(next))
    ensures Noted(v, ChildDeleted(v, next), DeletesChild(v))
    ensures !WritesNew(v)
  {
    hide PutChild, WrittenUpTo, Ordered, AbsentUpTo;
    if next < |DELETE_ORDER| {
      PutChildEffect(v, DELETE_ORDER[next], None, Partial);
    } else if Kempt(v) {
      AllAbsent(v.children, next);
    }
  }

  /**
   In every state of every run: children that are marked clean are exactly what the last undisturbed pass left, and
   what it left are all five, as its own snapshot and plan want them; without such a pass there are none.
   */
  lemma CleanChildrenAreTheLastPass(env: Env, start: System, steps: seq<Step>, k: Key)
    requires Initial(start)
    ensures var v := At(Run(env, start, steps), k);
            && (v.past.drift == Clean ==> v.children == LeftBy(v.past.last))
            && (v.past.last.Some? ==> AllUpToDate(v.past.last.value.left, v.past.last.value.t, v.past.last.value.plan))
  {
    hide Run, AllUpToDate, WrittenUpTo, UpToNow, Guarded, Ordered;
    EveryRunKeeps(env, start, steps);
    var v := At(Run(env, start, steps), k);
    assert SlotInv(env, Run(env, start, steps).cluster, k, v);
    if v.past.last.Some? {
      WrittenIsAll(v.past.last.value.left, v.past.last.value.t, v.past.last.value.plan);
    }
  }

  /** Only an action on a key changes its children or its history. */
  lemma OnlyItsOwn(env: Env, s: System, step: Step, k: Key)
    ensures var before, after := At(s, k), At(Next(env, s, step), k);
            if step.On? && step.key == k then after == Act(env, s.cluster, k, before, step.action)
            else after.children == before.children && after.past == before.past
  {
    hide Act;
    if step.On? {
      WithAt(s, step.key, Act(env, s.cluster, step.key, At(s, step.key), step.action), k);
    }
  }

  /** After step `i` the children have not been as the last pass left them: that step took them away from it. */
  ghost predicate LostAt(env: Env, start: System, steps: seq<Step>, k: Key, i: nat) {
    && i < |steps|
    && At(Run(env, start, steps[..i]), k).past.drift == Clean
    && steps[i].On? && steps[i].key == k && Departs(At(Run(env, start, steps[..i]), k), steps[i].action)
    && At(Run(env, start, steps[..i]), k).past.last == At(Run(env, start, steps), k).past.last
    && forall j | i < j <= |steps| :: At(Run(env, start, steps[..j]), k).past.drift != Clean
  }

  /**
   Exactly when they are not: a write of a pass that was cut off, a deletion, or a third party's change came after.
   */
  lemma {:induction false} NotCleanIff(env: Env, start: System, steps: seq<Step>, k: Key)
    requires Initial(start)
    ensures At(Run(env, start, steps), k).past.drift != Clean <==> exists i: nat :: LostAt(env, start, steps, k, i)
    decreases |steps|
  {
    hide At, Act, Departs, Next, SlotInv, Kempt;
    assert steps[..|steps|] == steps;
    if steps == [] {
      StartsClean(start, k);
    } else if At(Run(env, start, steps), k).past.drift != Clean {
      var n := |steps| - 1;
      var first, step := steps[..n], steps[n];
      EveryRunKeeps(env, start, first);
      var s := Run(env, start, first);
      assert SlotInv(env, s.cluster, k, At(s, k));
      InvIsKempt(env, s.cluster, k, At(s, k));
      OnlyItsOwn(env, s, step, k);
      if step.On? {
        ChildrenChange(env, s.cluster, k, At(s, k), step.action);
      }
      if At(s, k).past.drift == Clean {
        assert LostAt(env, start, steps, k, n);
      } else {
        NotCleanIff(env, start, first, k);
        var i: nat :| LostAt(env, start, first, k, i);
        LostStays(env, start, steps, k, i);
      }
    }
  }

  lemma InvIsKempt(env: Env, cl: Cluster, k: Key, v: Slot)
    requires SlotInv(env, cl, k, v)
    ensures Kempt(v)
  {
  }

  lemma StartsClean(start: System, k: Key)
    requires Initial(start)
    ensures At(start, k).past == NO_PAST
  {
  }

  lemma LostStays(env: Env, start: System, steps: seq<Step>, k: Key, i: nat)
    requires steps != [] && LostAt(env, start, steps[..|steps| - 1], k, i)
    requires At(Run(env, start, steps), k).past.drift != Clean
    requires At(Run(env, start, steps), k).past.last == At(Run(env, start, steps[..|steps| - 1]), k).past.last
    ensures LostAt(env, start, steps, k, i)
  {
    hide At, Run, Departs;
    var first := steps[..|steps| - 1];
    assert first[..i] == steps[..i];
    forall j | i < j <= |steps|
      ensures At(Run(env, start, steps[..j]), k).past.drift != Clean
    {
      if j < |steps| {
        assert first[..j] == steps[..j];
      } else {
        assert steps[..j] == steps;
      }
    }
  }

  /** The tunnel is under deletion, or cannot be reconciled in the cluster as it is. */
  ghost predicate Unreconcilable(env: Env, s: System, k: Key) {
    k in s.cluster.tunnels && (s.cluster.tunnels[k].deleting || Outcome(env, s.cluster, s.cluster.tunnels[k]).Err?)
  }

  /** The steps that change its children all the same: a stale write, a deletion, or a third party's change. */
  predicate Exceptional(s: System, step: Step, k: Key) {
    && step.On? && step.key == k
    && var v := At(s, k);
       match step.action
       case Call => (WritesNew(v) && v.queued) || (DeletesChild(v) && v.tunnel.Some? && v.tunnel.value.deleting)
       case Tamper(kind, child) => kind in v.children && ChildAt(v, kind) != child
       case _ => false
  }

  lemma BlockedStep(env: Env, s: System, step: Step, k: Key)
    requires Inv(env, s) && Unreconcilable(env, s, k)
    ensures At(Next(env, s, step), k).children != At(s, k).children <==> Exceptional(s, step, k)
  {
    hide Act, Outcome, ResolveConnection, Conclude, ValidateTunnelSpec, Overwrite, ManagedPart, Next, WrittenUpTo,
         Closed;
    OnlyItsOwn(env, s, step, k);
    if step.On? && step.key == k {
      ChildrenChange(env, s.cluster, k, At(s, k), step.action);
      assert SlotInv(env, s.cluster, k, At(s, k));
    }
  }

  /** The state after `before` and the first `i` steps of `more`. */
  ghost function StateAt(env: Env, start: System, before: seq<Step>, more: seq<Step>, i: nat): System
    requires i <= |more|
  {
    Run(env, start, before + more[..i])
  }

  lemma StateAfter(env: Env, start: System, before: seq<Step>, more: seq<Step>, i: nat)
    requires i < |more|
    ensures StateAt(env, start, before, more, i + 1) == Next(env, StateAt(env, start, before, more, i), more[i])
  {
    hide Next;
    var steps := before + more[..i + 1];
    assert steps[..|steps| - 1] == before + more[..i] && steps[|steps| - 1] == more[i];
  }

  lemma BlockedStepAt(env: Env, start: System, before: seq<Step>, more: seq<Step>, k: Key, i: nat)
    requires Initial(start) && i < |more| && Unreconcilable(env, StateAt(env, start, before, more, i), k)
    ensures At(StateAt(env, start, before, more, i + 1), k).children
            != At(StateAt(env, start, before, more, i), k).children
            <==> Exceptional(StateAt(env, start, before, more, i), more[i], k)
  {
    hide At, Exceptional, Unreconcilable, Next, Run, Inv;
    StateAfter(env, start, before, more, i);
    EveryRunKeeps(env, start, before + more[..i]);
    BlockedStep(env, StateAt(env, start, before, more, i), more[i], k);
  }

  /**
   Over whole runs, queued keys included: as long as a tunnel cannot be reconciled, its children stay what they were,
   except for stale writes, deletions and third parties, and each of these does change them.
   */
  lemma {:induction false} BlockedRunLeavesChildren(env: Env, start: System, before: seq<Step>, more: seq<Step>,
                                                    k: Key, n: nat)
    requires Initial(start) && n <= |more|
    requires forall i | 0 <= i < n :: Unreconcilable(env, StateAt(env, start, before, more, i), k)
    ensures forall i | 0 <= i < n ::
              (Exceptional(StateAt(env, start, before, more, i), more[i], k)
               <==> At(StateAt(env, start, before, more, i + 1), k).children
                    != At(StateAt(env, start, before, more, i), k).children)
    ensures (forall i | 0 <= i < n :: !Exceptional(StateAt(env, start, before, more, i), more[i], k))
            ==> At(StateAt(env, start, before, more, n), k).children == At(Run(env, start, before), k).children
    decreases n
  {
    hide At, Exceptional, Unreconcilable, StateAt;
    if n == 0 {
      StateAtStart(env, start, before, more);
    } else {
      BlockedRunLeavesChildren(env, start, before, more, k, n - 1);
      BlockedStepAt(env, start, before, more, k, n - 1);
    }
  }

  lemma StateAtStart(env: Env, start: System, before: seq<Step>, more: seq<Step>)
    ensures StateAt(env, start, before, more, 0) == Run(env, start, before)
  {
    assert before + more[..0] == before;
  }

  // ---- Left alone, every key comes to rest ----

  /** What the manager does with a key when nothing interferes. */
  function Turning(v: Slot): Action {
    if v.work.None? then Dequeue else Call
  }

  ghost function Turn(env: Env, cl: Cluster, k: Key, v: Slot): Slot {
    Act(env, cl, k, v, Turning(v))
  }

  ghost function Drive(env: Env, cl: Cluster, k: Key, v: Slot, n: nat): Slot
    decreases n
  {
    if n == 0 then v else Drive(env, cl, k, Turn(env, cl, k, v), n - 1)
  }

  lemma TurnIsCall(env: Env, cl: Cluster, k: Key, v: Slot)
    ensures v.work.Some? ==> Turn(env, cl, k, v) == Called(env, cl, v)
  {
    hide Called;
  }

  lemma TurnIsDequeue(env: Env, cl: Cluster, k: Key, v: Slot)
    ensures v.queued && v.work.None? ==> Turn(env, cl, k, v) == v.(queued := false, work := Some(Fetching))
  {
    hide Called;
  }

  lemma DriveStep(env: Env, cl: Cluster, k: Key, v: Slot, n: nat)
    ensures Drive(env, cl, k, v, n + 1) == Drive(env, cl, k, Turn(env, cl, k, v), n)
  {
    hide Turn;
  }

  lemma {:induction false} DriveOn(env: Env, cl: Cluster, k: Key, v: Slot, a: nat, b: nat)
    ensures Drive(env, cl, k, v, a + b) == Drive(env, cl, k, Drive(env, cl, k, v, a), b)
    decreases a
  {
    hide Turn;
    if a > 0 {
      DriveOn(env, cl, k, Turn(env, cl, k, v), a - 1, b);
    }
  }

  function Phase(w: Work): nat {
    match w
    case Fetching => 5
    case AddingFinalizer(_) => 4
    case ReadingConnection(_) => 4
    case ReadingSecrets(_, _, _, _) => 3
    case ReadingService(_, _) => 2
    case Writing(_, _, _) => 1
    case Reporting(_, _, _) => 0
    case Blocking(_, _) => 0
    case Announcing => 1
    case Deleting(_) => 0
  }

  /** The calls left within a phase. */
  function Left(w: Work): nat {
    match w
    case ReadingSecrets(_, _, refs, _) => |refs|
    case Writing(_, _, next) => if next < |WRITE_ORDER| then |WRITE_ORDER| - next else 0
    case Deleting(next) => if next < |DELETE_ORDER| then |DELETE_ORDER| - next else 0
    case _ => 0
  }

  predicate Closer(after: Option<Work>, before: Work) {
    after.Some? ==>
      || Phase(after.value) < Phase(before)
      || (Phase(after.value) == Phase(before) && Left(after.value) < Left(before))
  }

  /** Every call brings an attempt closer to its end. */
  lemma CallProgresses(env: Env, cl: Cluster, v: Slot)
    requires v.work.Some?
    ensures Closer(Called(env, cl, v).work, v.work.value)
  {
    hide Conclude, Read, ResolveTarget, SecretList, ValidateTunnelSpec, PlanFor, Wanted, Overwrite, T.Mutate, PutChild,
         PassReport, BlockedReport;
    match v.work.value {
      case Writing(t, plan, next) =>
      case Deleting(next) =>
      case _ =>
    }
  }

  /** How many passes a tunnel's finalizer still asks for. */
  function Rank(t: Option<Tunnel>): nat {
    match t
    case None => 0
    case Some(t) => if t.deleting == t.finalizer then 1 else 0
  }

  /** The key is settled, and if its tunnel cannot be reconciled, the status says so: another pass has nothing to do. */
  ghost predicate Quiet(env: Env, cl: Cluster, v: Slot) {
    && Settled(env, cl, v)
    && (v.tunnel.Some? && !v.tunnel.value.deleting ==>
          match Outcome(env, cl, v.tunnel.value)
          case Ok(_) => true
          case Err(b) => Reported(v, BlockedReport(env, b)))
  }

  /** What a quiet key's status says about a live tunnel: all is there, or what is in the way. */
  lemma QuietMeans(env: Env, cl: Cluster, v: Slot, t: Tunnel)
    requires Quiet(env, cl, v) && v.tunnel == Some(t) && !t.deleting
    ensures t.finalizer
    ensures match Outcome(env, cl, t)
            case Ok(plan) => AllUpToDate(v.children, t, plan) && SaysReconciled(v.report, t, plan, v.report.available)
            case Err(b) => SaysBlocked(v.report, b, BlockText(env, b))
  {
    hide Outcome, Reported, PassReport, BlockedReport, SaysReconciled, SaysBlocked, WrittenUpTo, AllUpToDate, BlockText;
    match Outcome(env, cl, t) {
      case Ok(plan) =>
        WrittenIsAll(v.children, t, plan);
        ReportedMeans(v, t, plan, v.report.available);
      case Err(b) => BlockedMeans(env, v, b);
    }
  }

  /** A call of a current attempt leaves the tunnel alone or lowers its rank, and an attempt ends quiet or lower. */
  lemma CallRanks(env: Env, cl: Cluster, v: Slot)
    requires v.work.Some? && Kempt(v) && Fresh(env, cl, v)
    ensures var r := Called(env, cl, v);
            && (r.tunnel == v.tunnel || (Rank(r.tunnel) < Rank(v.tunnel) && r.work.None? && r.queued))
            && (r.work.None? ==> Quiet(env, cl, r) || (Rank(r.tunnel) < Rank(v.tunnel) && r.queued))
  {
    hide Fetched, ConnectionRead, SecretRead, ServiceRead, Outcome, Reported, T.Mutate, PassReport, BlockedReport,
         WrittenUpTo, ManagedPart, Overwrite, PutChild, Closed, PresentUpTo, AbsentUpTo, ValidateTunnelSpec;
    match v.work.value {
      case Blocking(t, b) =>
        BlockKeeps(env, cl, v, t, b);
        PatchKeeps(v, BlockedReport(env, b));
        ReportedAnyhow(PatchStatus(v, BlockedReport(env, b)), BlockedReport(env, b));
      case Reporting(t, plan, ready) => ReportKeeps(env, cl, v, t, plan, ready);
      case Writing(t, plan, next) =>
        WriteRanks(v, t, plan, next);
      case Deleting(next) =>
        if next < |DELETE_ORDER| {
          PutChildEffect(v, DELETE_ORDER[next], None, Partial);
        }
      case AddingFinalizer(_) =>
      case Announcing =>
      case _ =>
        ReadsOnly(env, cl, v);
        ReadEnds(env, cl, v);
    }
  }

  lemma ReportedAnyhow(v: Slot, m: T.Mutation)
    ensures Reported(v, m) <==> Reported(Done(v), m)
  {
  }

  lemma WriteRanks(v: Slot, t: Tunnel, plan: Plan, next: nat)
    requires WrittenUpTo(v.children, t, plan, next)
    ensures ChildWritten(v, t, plan, next).work.Some? && ChildWritten(v, t, plan, next).tunnel == v.tunnel
  {
    hide Overwrite, ManagedPart, UpToDate;
    if next < |WRITE_ORDER| {
      PutChildEffect(v, WRITE_ORDER[next],
                     Some(Overwrite(ChildAt(v, WRITE_ORDER[next]), Wanted(t, plan, WRITE_ORDER[next]))), Partial);
    } else {
      WrittenInFull(v.children, t, plan, next);
    }
  }

  /** A read ends an attempt only if the tunnel is gone or its deletion is over. */
  lemma ReadEnds(env: Env, cl: Cluster, v: Slot)
    requires v.work.Some? && IsRead(v.work.value)
    ensures Called(env, cl, v).work.None? ==> v.tunnel.None? || (v.tunnel.value.deleting && !v.tunnel.value.finalizer)
  {
    hide Conclude, Read, ResolveTarget, SecretList, ValidateTunnelSpec, PlanFor;
  }

  /** A pass over a quiet key writes nothing, reports nothing new and asks for no other pass. */
  lemma CallOnQuiet(env: Env, cl: Cluster, v: Slot)
    requires v.work.Some? && Kempt(v) && Fresh(env, cl, v) && Quiet(env, cl, v) && !v.queued
    ensures var r := Called(env, cl, v);
            Quiet(env, cl, r) && !r.queued && r.children == v.children && r.report == v.report
  {
    hide Fetched, ConnectionRead, SecretRead, ServiceRead, ManagedPart, Overwrite, Outcome, ResolveConnection, T.Mutate,
         ValidateTunnelSpec, PassReport, BlockedReport, Closed, PresentUpTo, AbsentUpTo, WrittenUpTo, PutChild;
    match v.work.value {
      case Writing(t, plan, next) => WriteOnQuiet(v, t, plan, next);
      case Blocking(_, _) =>
      case Reporting(_, _, _) =>
      case AddingFinalizer(_) =>
      case Announcing =>
      case Deleting(_) =>
      case _ => ReadsOnly(env, cl, v);
    }
  }

  lemma WriteOnQuiet(v: Slot, t: Tunnel, plan: Plan, next: nat)
    requires WrittenUpTo(v.children, t, plan, |WRITE_ORDER|)
    ensures var r := ChildWritten(v, t, plan, next);
            r.children == v.children && r.report == v.report && r.queued == v.queued && r.tunnel == v.tunnel
  {
    hide ManagedPart, Overwrite;
    if next < |WRITE_ORDER| {
      assert UpToDate(v.children[WRITE_ORDER[next]], Wanted(t, plan, WRITE_ORDER[next]));
    } else {
      WrittenInFull(v.children, t, plan, |WRITE_ORDER|);
    }
  }

  /** One call of an attempt, seen from the outside. */
  lemma AttemptGoesOn(env: Env, cl: Cluster, k: Key, v: Slot)
    requires SlotInv(env, cl, k, v) && v.work.Some?
    ensures var next := Turn(env, cl, k, v);
            && SlotInv(env, cl, k, next)
            && (v.queued ==> next.queued)
            && Closer(next.work, v.work.value)
            && (Fresh(env, cl, v) ==> Fresh(env, cl, next))
            && (Fresh(env, cl, v) ==> Rank(next.tunnel) <= Rank(v.tunnel))
            && (Fresh(env, cl, v) && next.work.None? ==>
                  Quiet(env, cl, next) || (Rank(next.tunnel) < Rank(v.tunnel) && next.queued))
            && (Fresh(env, cl, v) && Quiet(env, cl, v) && !v.queued ==> Quiet(env, cl, next) && !next.queued)
  {
    hide Quiet, Fresh, Rank, Called, Kempt, Closer;
    ActKeeps(env, cl, k, v, Call);
    CallKeeps(env, cl, v);
    CallProgresses(env, cl, v);
    CallStaysQueued(env, cl, v);
    if Fresh(env, cl, v) {
      CallRanks(env, cl, v);
      if Quiet(env, cl, v) && !v.queued {
        CallOnQuiet(env, cl, v);
      }
    }
  }

  lemma {:induction false} AttemptEnds(env: Env, cl: Cluster, k: Key, v: Slot) returns (n: nat)
    requires SlotInv(env, cl, k, v) && v.work.Some?
    ensures var r := Drive(env, cl, k, v, n);
            && SlotInv(env, cl, k, r) && r.work.None?
            && (v.queued ==> r.queued)
            && (Fresh(env, cl, v) ==> Rank(r.tunnel) <= Rank(v.tunnel))
            && (Fresh(env, cl, v) ==> Quiet(env, cl, r) || (Rank(r.tunnel) < Rank(v.tunnel) && r.queued))
            && (Fresh(env, cl, v) && Quiet(env, cl, v) && !v.queued ==> Quiet(env, cl, r) && !r.queued)
    decreases Phase(v.work.value), Left(v.work.value)
  {
    hide Quiet, Rank, Turn, Fresh, SlotInv, Phase, Left;
    var next := Turn(env, cl, k, v);
    AttemptGoesOn(env, cl, k, v);
    if next.work.None? {
      n := 1;
      assert Drive(env, cl, k, v, 1) == Drive(env, cl, k, next, 0) == next;
    } else {
      var m := AttemptEnds(env, cl, k, next);
      n := m + 1;
    }
  }

  lemma BegunIsFresh(env: Env, cl: Cluster, v: Slot)
    ensures var begun := v.(queued := false, work := Some(Fetching));
            Fresh(env, cl, begun) && (Quiet(env, cl, begun) <==> Quiet(env, cl, v))
  {
    hide Outcome, T.Mutate, PassReport, BlockedReport, WrittenUpTo;
  }

  /** One pass after another, from a moment at which nothing is under way, until no pass asks for another. */
  lemma {:induction false} QueueDrains(env: Env, cl: Cluster, k: Key, v: Slot) returns (n: nat)
    requires SlotInv(env, cl, k, v) && v.work.None? && (v.queued || Quiet(env, cl, v))
    ensures var r := Drive(env, cl, k, v, n); r.work.None? && !r.queued && SlotInv(env, cl, k, r) && Quiet(env, cl, r)
    decreases Rank(v.tunnel), if Quiet(env, cl, v) then 0 else 1
  {
    hide Quiet, Rank, Called, SlotInv;
    if !v.queued {
      n := 0;
    } else {
      var begun := Turn(env, cl, k, v);
      ActKeeps(env, cl, k, v, Dequeue);
      BegunIsFresh(env, cl, v);
      var m := AttemptEnds(env, cl, k, begun);
      var ended := Drive(env, cl, k, begun, m);
      if !ended.queued && Quiet(env, cl, ended) {
        n := m + 1;
      } else {
        var more := QueueDrains(env, cl, k, ended);
        DriveOn(env, cl, k, begun, m, more);
        n := m + more + 1;
      }
    }
  }

  /**
   Progress: from any state of a key that satisfies the invariant, however stale its attempt, if the world stands
   still and no call fails, then after finitely many calls the key is idle and settled. If it was not idle already,
   its status also says what there is to say, so that no pass would change anything any more.
   */
  lemma LeftAloneItSettles(env: Env, cl: Cluster, k: Key, v: Slot) returns (n: nat)
    requires SlotInv(env, cl, k, v)
    ensures var r := Drive(env, cl, k, v, n);
            && SlotInv(env, cl, k, r) && r.work.None? && !r.queued && Settled(env, cl, r)
            && (v.queued || v.work.Some? ==> Quiet(env, cl, r))
  {
    hide SlotInv, Fresh, Rank, Settled, Quiet, Drive;
    IdleIsSettled(env, cl, k, v);
    DriveNone(env, cl, k, v);
    if v.work.None? {
      if v.queued {
        n := QueueDrains(env, cl, k, v);
        IdleIsSettled(env, cl, k, Drive(env, cl, k, v, n));
      } else {
        n := 0;
      }
    } else {
      var m := AttemptEnds(env, cl, k, v);
      var ended := Drive(env, cl, k, v, m);
      UnqueuedIsFresh(env, cl, k, v);
      var more := QueueDrains(env, cl, k, ended);
      DriveOn(env, cl, k, v, m, more);
      n := m + more;
      IdleIsSettled(env, cl, k, Drive(env, cl, k, v, n));
    }
  }

  lemma DriveNone(env: Env, cl: Cluster, k: Key, v: Slot)
    ensures Drive(env, cl, k, v, 0) == v
  {
  }

  lemma IdleIsSettled(env: Env, cl: Cluster, k: Key, v: Slot)
    ensures SlotInv(env, cl, k, v) && v.work.None? && !v.queued ==> Settled(env, cl, v)
    ensures Quiet(env, cl, v) ==> Settled(env, cl, v)
  {
    hide Outcome, T.Mutate, PassReport, BlockedReport, WrittenUpTo, Kempt;
  }

  lemma UnqueuedIsFresh(env: Env, cl: Cluster, k: Key, v: Slot)
    ensures SlotInv(env, cl, k, v) && !v.queued ==> Fresh(env, cl, v)
  {
    hide Kempt, Fresh;
  }
}
