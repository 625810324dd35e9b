/** Runs of the whole system that the manager makes by itself, and one in which it is cut off. */
module Liveness {
  import opened Wrappers
  import opened Api
  import opened AgentConfig
  import opened SecretRefs
  import opened Services
  import opened Workload
  import opened Reconcile
  import opened Controller
  import opened Convergence
  import T = TunnelStatus

  lemma {:induction false} RunConcat(env: Env, s: System, a: seq<Step>, b: seq<Step>)
    ensures Run(env, s, a + b) == Run(env, Run(env, s, a), b)
    decreases |b|
  {
    hide Next;
    if b == [] {
      assert a + b == a;
    } else {
      var n := |b| - 1;
      assert (a + b)[..|a + b| - 1] == a + b[..n];
      RunConcat(env, s, a, b[..n]);
    }
  }

  lemma RunOne(env: Env, s: System, step: Step)
    ensures Run(env, s, [step]) == Next(env, s, step)
  {
    hide Next;
    assert [step][..0] == [];
  }

  /** Only the manager acts, and only on key `k`. */
  predicate ByManager(steps: seq<Step>, k: Key) {
    forall i | 0 <= i < |steps| :: steps[i] == On(k, Dequeue) || steps[i] == On(k, Call)
  }

  /** No third party touches a child. */
  predicate Untampered(steps: seq<Step>) {
    forall i | 0 <= i < |steps| && steps[i].On? :: !steps[i].action.Tamper?
  }

  /** The actions of an attempt do not look at the other tunnels. */
  lemma ActIgnoresTunnels(env: Env, cl: Cluster, tunnels: map<Key, Tunnel>, k: Key, v: Slot, a: Action)
    ensures Act(env, cl.(tunnels := tunnels), k, v, a) == Act(env, cl, k, v, a)
  {
    hide Conclude, Read, ResolveTarget, SecretList, ValidateTunnelSpec, PlanFor, T.Mutate, PutChild, ManagedPart,
         Overwrite,
         PassReport, BlockedReport;
  }

  lemma {:induction false} DriveIgnoresTunnels(env: Env, cl: Cluster, tunnels: map<Key, Tunnel>, k: Key, v: Slot,
                                               n: nat)
    ensures Drive(env, cl.(tunnels := tunnels), k, v, n) == Drive(env, cl, k, v, n)
    decreases n
  {
    hide Act;
    if n > 0 {
      ActIgnoresTunnels(env, cl, tunnels, k, v, Turning(v));
      DriveIgnoresTunnels(env, cl, tunnels, k, Turn(env, cl, k, v), n - 1);
    }
  }

  /** What the manager does with one slot it also does in the whole system. */
  lemma {:induction false} DriveIsRun(env: Env, s: System, k: Key, n: nat) returns (steps: seq<Step>)
    ensures ByManager(steps, k) && Untampered(steps)
    ensures var after := Run(env, s, steps);
            && At(after, k) == Drive(env, s.cluster, k, At(s, k), n)
            && after.cluster == s.cluster.(tunnels := after.cluster.tunnels)
    decreases n
  {
    hide Act, At, With;
    if n == 0 {
      steps := [];
    } else {
      var a := Turning(At(s, k));
      var next := Next(env, s, On(k, a));
      NextOn(env, s, k, a);
      var rest := DriveIsRun(env, next, k, n - 1);
      DriveIgnoresTunnels(env, s.cluster, next.cluster.tunnels, k, At(next, k), n - 1);
      steps := [On(k, a)] + rest;
      RunOne(env, s, On(k, a));
      RunConcat(env, s, [On(k, a)], rest);
    }
  }

  lemma NextOn(env: Env, s: System, k: Key, a: Action)
    ensures var next := Next(env, s, On(k, a));
            && At(next, k) == Act(env, s.cluster, k, At(s, k), a)
            && next.cluster == s.cluster.(tunnels := next.cluster.tunnels)
  {
    hide Act;
    WithAt(s, k, Act(env, s.cluster, k, At(s, k), a), k);
  }

  /** From every reachable state, whatever is under way, the manager alone brings any key to rest. */
  lemma EveryKeySettles(env: Env, start: System, steps: seq<Step>, k: Key) returns (more: seq<Step>)
    requires Initial(start)
    ensures ByManager(more, k)
    ensures var s := Run(env, start, steps + more);
            Idle(s, k) && Settled(env, s.cluster, At(s, k))
    ensures !Idle(Run(env, start, steps), k) ==>
              var s := Run(env, start, steps + more); Quiet(env, s.cluster, At(s, k))
  {
    hide Drive, SlotInv, Settled, Quiet, Run;
    var s := Run(env, start, steps);
    EveryRunKeeps(env, start, steps);
    assert SlotInv(env, s.cluster, k, At(s, k));
    var n := LeftAloneItSettles(env, s.cluster, k, At(s, k));
    more := DriveIsRun(env, s, k, n);
    RunConcat(env, start, steps, more);
    var after := Run(env, s, more);
    SettledIgnoresTunnels(env, s.cluster, after.cluster.tunnels, At(after, k));
  }

  /**
   And then its status says how things are: from every reachable state in which a key is not at rest, the manager alone
   reaches one in which it is, its live tunnel has the finalizer, and either all five children and a report of them, or
   a report of what is in the way.
   */
  lemma EveryKeyIsReported(env: Env, start: System, steps: seq<Step>, k: Key) returns (more: seq<Step>)
    requires Initial(start) && !Idle(Run(env, start, steps), k)
    ensures ByManager(more, k) && Idle(Run(env, start, steps + more), k)
    ensures var s := Run(env, start, steps + more);
            k in s.cluster.tunnels ==>
              var t, v := s.cluster.tunnels[k], At(s, k);
              && (t.finalizer <==> !t.deleting)
              && (!t.deleting ==>
                    match Outcome(env, s.cluster, t)
                    case Ok(plan) =>
                      && AllUpToDate(v.children, t, plan)
                      && SaysReconciled(v.report, t, plan, v.report.available)
                    case Err(b) => SaysBlocked(v.report, b, if b.Unresolved? then b.error else env.describe(b)))
  {
    hide Run, Outcome, SaysReconciled, SaysBlocked, AllUpToDate, Reported, WrittenUpTo, Quiet;
    more := EveryKeySettles(env, start, steps, k);
    var s := Run(env, start, steps + more);
    if k in s.cluster.tunnels && !s.cluster.tunnels[k].deleting {
      QuietMeans(env, s.cluster, At(s, k), s.cluster.tunnels[k]);
    }
  }

  lemma SettledIgnoresTunnels(env: Env, cl: Cluster, tunnels: map<Key, Tunnel>, v: Slot)
    ensures Settled(env, cl.(tunnels := tunnels), v) <==> Settled(env, cl, v)
    ensures Quiet(env, cl.(tunnels := tunnels), v) <==> Quiet(env, cl, v)
  {
    hide FinishPlan, ResolveWith, T.Mutate, WrittenUpTo, PassReport, BlockedReport, ValidateTunnelSpec;
  }

  // ---- A pass that is cut off ----

  /** A current attempt on a tunnel that can be reconciled reads on, until it writes. */
  lemma NextRead(env: Env, cl: Cluster, v: Slot, t: Tunnel, plan: Plan)
    requires v.work.Some? && IsRead(v.work.value) && Kempt(v) && Fresh(env, cl, v)
    requires IsLive(v, t) && Outcome(env, cl, t) == Ok(plan)
    ensures var r := Called(env, cl, v);
            && r.work.Some? && Kempt(r) && Fresh(env, cl, r)
            && (IsRead(r.work.value) || r.work == Some(Writing(t, plan, 0)))
  {
    hide Conclude, Read, ResolveTarget, SecretList, ValidateTunnelSpec, PlanFor, Kempt, Outcome, ResolveConnection;
    var r := Called(env, cl, v);
    ReadsOnly(env, cl, v);
    CallKeeps(env, cl, v);
    NotEnded(env, cl, v, t);
  }

  lemma NotEnded(env: Env, cl: Cluster, v: Slot, t: Tunnel)
    requires v.work.Some? && IsRead(v.work.value) && v.tunnel == Some(t) && t.finalizer && !t.deleting
    ensures var w := Called(env, cl, v).work;
            w.Some? && (IsRead(w.value) || w.value.Blocking? || (w.value.Writing? && w.value.next == 0))
  {
    hide Conclude, Read, ResolveTarget, SecretList, ValidateTunnelSpec, PlanFor;
  }

  lemma {:induction false} ReachesWriting(env: Env, cl: Cluster, k: Key, v: Slot, t: Tunnel, plan: Plan)
    returns (n: nat)
    requires v.work.Some? && IsRead(v.work.value) && Kempt(v) && Fresh(env, cl, v)
    requires IsLive(v, t) && Outcome(env, cl, t) == Ok(plan)
    ensures var r := Drive(env, cl, k, v, n);
            && r.work == Some(Writing(t, plan, 0))
            && r.tunnel == v.tunnel && r.children == v.children
            && r.past.last == v.past.last && r.past.tampered == v.past.tampered
    decreases Phase(v.work.value), Left(v.work.value)
  {
    hide Called, Fresh, Kempt, ValidateTunnelSpec, Phase, Left, Act, Outcome, Turn, Drive;
    var next := Turn(env, cl, k, v);
    TurnIsCall(env, cl, k, v);
    NextRead(env, cl, v, t, plan);
    ReadsOnly(env, cl, v);
    CallProgresses(env, cl, v);
    if IsRead(next.work.value) {
      var m := ReachesWriting(env, cl, k, next, t, plan);
      DriveStep(env, cl, k, v, m);
      n := m + 1;
    } else {
      DriveStep(env, cl, k, v, 0);
      DriveNone(env, cl, k, next);
      n := 1;
    }
  }

  /** The slot in which a pass has made its first write, and no other. */
  lemma FirstWrite(env: Env, cl: Cluster, k: Key, v: Slot, t: Tunnel, plan: Plan) returns (n: nat)
    requires v.queued && v.work.None? && Kempt(v) && IsLive(v, t) && Outcome(env, cl, t) == Ok(plan)
    ensures var r := Drive(env, cl, k, v, n);
            && r.work == Some(Writing(t, plan, 1)) && r.tunnel == v.tunnel
            && r.children == v.children[ConfigMap := Overwrite(ChildAt(v, ConfigMap), Wanted(t, plan, ConfigMap))]
            && r.past.tampered == v.past.tampered && r.past.last == v.past.last
  {
    hide Drive, ValidateTunnelSpec, Overwrite, Wanted, Fresh, Outcome, Turn, Kempt;
    var begun := Turn(env, cl, k, v);
    TurnIsDequeue(env, cl, k, v);
    BegunIsKempt(v);
    BegunIsFresh(env, cl, v);
    var m := ReachesWriting(env, cl, k, begun, t, plan);
    var ready := Drive(env, cl, k, begun, m);
    WriteOnce(env, cl, k, ready, t, plan);
    DriveOn(env, cl, k, begun, m, 1);
    DriveStep(env, cl, k, v, m + 1);
    n := m + 2;
  }

  lemma BegunIsKempt(v: Slot)
    requires Kempt(v) && v.work.None?
    ensures Kempt(v.(queued := false, work := Some(Fetching)))
  {
    hide Closed, WrittenUpTo;
  }

  lemma WriteOnce(env: Env, cl: Cluster, k: Key, v: Slot, t: Tunnel, plan: Plan)
    requires v.work == Some(Writing(t, plan, 0))
    ensures var r := Drive(env, cl, k, v, 1);
            && r.work == Some(Writing(t, plan, 1)) && r.tunnel == v.tunnel
            && r.children == v.children[ConfigMap := Overwrite(ChildAt(v, ConfigMap), Wanted(t, plan, ConfigMap))]
            && r.past.tampered == v.past.tampered && r.past.last == v.past.last
  {
    hide Overwrite, Wanted, PutChild;
    var child := Overwrite(ChildAt(v, ConfigMap), Wanted(t, plan, ConfigMap));
    assert WRITE_ORDER[0] == ConfigMap;
    PutChildEffect(v, ConfigMap, Some(child), Partial);
    DriveStep(env, cl, k, v, 0);
  }

  /** The places of an attempt on a tunnel whose connection is gone. */
  predicate Stranded(cl: Cluster, v: Slot, t: Tunnel) {
    && IsLive(v, t) && ConnectionKey(t) !in cl.connections
    && match v.work
       case None => true
       case Some(Fetching) => true
       case Some(ReadingConnection(u)) => u == t
       case Some(Blocking(u, b)) => u == t
       case _ => false
  }

  lemma {:induction false} StrandedStays(env: Env, cl: Cluster, k: Key, v: Slot, t: Tunnel, n: nat)
    requires Stranded(cl, v, t)
    ensures var r := Drive(env, cl, k, v, n);
            Stranded(cl, r, t) && r.children == v.children && r.past == v.past
    decreases n
  {
    hide ValidateTunnelSpec, T.Mutate, BlockedReport, SecretList;
    if n > 0 {
      StrandedStays(env, cl, k, Turn(env, cl, k, v), t, n - 1);
    }
  }

  lemma {:induction false} RunKeepsInv(env: Env, s: System, steps: seq<Step>)
    requires Inv(env, s)
    ensures Inv(env, Run(env, s, steps))
    decreases |steps|
  {
    hide Inv, Next;
    if steps != [] {
      RunKeepsInv(env, s, steps[..|steps| - 1]);
      InvNext(env, Run(env, s, steps[..|steps| - 1]), steps[|steps| - 1]);
    }
  }

  lemma UntamperedConcat(a: seq<Step>, b: seq<Step>)
    requires Untampered(a) && Untampered(b)
    ensures Untampered(a + b)
  {
  }

  /**
   No third party is needed to leave a mixture: a pass that fails after its first write, and a connection that is
   deleted before the next one. The key comes to rest blocked, with the new ConfigMap among otherwise old children.
   */
  lemma CutOffPassLeavesMixture(env: Env, s: System, k: Key, t: Tunnel, plan: Plan) returns (steps: seq<Step>)
    requires Inv(env, s) && At(s, k).queued && At(s, k).work.None?
    requires IsLive(At(s, k), t) && Outcome(env, s.cluster, t) == Ok(plan)
    ensures Untampered(steps)
    ensures var after := Run(env, s, steps);
            && Idle(after, k) && k in after.cluster.tunnels && after.cluster.tunnels[k] == t
            && Outcome(env, after.cluster, t) == Err(ConnectionNotFound)
            && At(after, k).children
               == At(s, k).children[ConfigMap := Overwrite(ChildAt(At(s, k), ConfigMap), Wanted(t, plan, ConfigMap))]
            && At(after, k).past.tampered == At(s, k).past.tampered && At(after, k).past.last == At(s, k).past.last
  {
    hide Drive, SlotInv, Overwrite, Wanted, Run, Inv, ValidateTunnelSpec, Kempt, At, Next, Stranded, Outcome;
    InvAt(env, s, k);
    var n := FirstWrite(env, s.cluster, k, At(s, k), t, plan);
    var first := DriveIsRun(env, s, k, n);
    var s1 := Run(env, s, first);
    var s2 := Next(env, s1, On(k, Fail));
    NextOn(env, s1, k, Fail);
    var gone := SetConnection(ConnectionKey(t), None);
    var s3 := Next(env, s2, gone);
    ConnectionGone(env, s2, k, t);
    assert Run(env, s, first + [On(k, Fail), gone]) == s3 by {
      RunConcat(env, s, first, [On(k, Fail), gone]);
      assert [On(k, Fail), gone] == [On(k, Fail)] + [gone];
      RunConcat(env, s1, [On(k, Fail)], [gone]);
      RunOne(env, s1, On(k, Fail));
      RunOne(env, s2, gone);
    }
    RunKeepsInv(env, s, first + [On(k, Fail), gone]);
    InvAt(env, s3, k);
    var m := LeftAloneItSettles(env, s3.cluster, k, At(s3, k));
    StrandedStays(env, s3.cluster, k, At(s3, k), t, m);
    var last := DriveIsRun(env, s3, k, m);
    RunConcat(env, s, first + [On(k, Fail), gone], last);
    steps := first + [On(k, Fail), gone] + last;
    UntamperedConcat(first, [On(k, Fail), gone]);
    UntamperedConcat(first + [On(k, Fail), gone], last);
    StrandedIsBlocked(env, s3.cluster, Run(env, s3, last), k, t);
  }

  lemma InvAt(env: Env, s: System, k: Key)
    requires Inv(env, s)
    ensures SlotInv(env, s.cluster, k, At(s, k)) && Kempt(At(s, k))
  {
    hide Guarded, Ordered, Traced, UpToNow;
    assert SlotInv(env, s.cluster, k, At(s, k));
  }

  lemma ConnectionGone(env: Env, s: System, k: Key, t: Tunnel)
    requires At(s, k).work.None? && IsLive(At(s, k), t)
    ensures var next := Next(env, s, SetConnection(ConnectionKey(t), None));
            Stranded(next.cluster, At(next, k), t) && At(next, k).children == At(s, k).children
            && At(next, k).past == At(s, k).past
  {
    hide Index, ValidateTunnelSpec;
  }

  lemma StrandedIsBlocked(env: Env, cl: Cluster, s: System, k: Key, t: Tunnel)
    requires Stranded(cl, At(s, k), t) && s.cluster == cl.(tunnels := s.cluster.tunnels)
    requires At(s, k).work.None? && !At(s, k).queued
    ensures Idle(s, k) && k in s.cluster.tunnels && s.cluster.tunnels[k] == t
    ensures Outcome(env, s.cluster, t) == Err(ConnectionNotFound)
  {
  }

  /** On a fresh cluster: the ConfigMap is left alone, without the other four. */
  lemma CutOffFirstPass(env: Env, start: System, k: Key, t: Tunnel, plan: Plan) returns (steps: seq<Step>)
    requires Initial(start) && IsLive(At(start, k), t) && Outcome(env, start.cluster, t) == Ok(plan)
    ensures Untampered(steps)
    ensures var after := Run(env, start, steps);
            && Idle(after, k) && Outcome(env, after.cluster, t).Err?
            && At(after, k).children == map[ConfigMap := Overwrite(None, Wanted(t, plan, ConfigMap))]
            && At(after, k).past.last.None? && !At(after, k).past.tampered
  {
    hide Outcome, ValidateTunnelSpec, Overwrite, Wanted, Inv, Run;
    InitialInv(env, start);
    steps := CutOffPassLeavesMixture(env, start, k, t, plan);
  }
}
