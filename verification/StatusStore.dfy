/**
 The stored status under any number of concurrent writers. Every writer reads the object, mutates its
 copy and sends a merge patch; between its read and its patch anything may happen. The agent's patch is
 refused when the object changed since the read, the manager's patch never is.
 */
module StatusStore {
  import opened Wrappers
  import opened TunnelStatus
  import opened StatusPatch

  /** The object in the API server. Its resource version grows with every effective write. */
  datatype Store = Store(resourceVersion: nat, generation: int, status: Status)

  type Writer = nat

  /** A writer between its Get and its Patch. */
  datatype Pending = Pending(snapshot: Store, mutation: Mutation) {
    function Wanted(): Status {
      Mutate(mutation, snapshot.generation, snapshot.status)
    }
  }

  /**
   The API server's answer to a status patch; None is a conflict. The JSON merge patch is given in its
   field-wise form here, which `ServedPatchIsJson` justifies.
   */
  function ServePatch(store: Store, p: Pending): Option<Store> {
    if p.mutation.Locked() && p.snapshot.resourceVersion != store.resourceVersion then None
    else
      var status := Merge(store.status, p.snapshot.status, p.Wanted());
      if status == store.status then Some(store)
      else Some(store.(resourceVersion := store.resourceVersion + 1, status := status))
  }

  /** Serving a patch stores what applying its JSON document gives. */
  lemma ServedPatchIsJson(store: Store, p: Pending)
    requires ServePatch(store, p).Some?
    ensures ServePatch(store, p).value.status == PatchStored(store.status, p.snapshot.status, p.Wanted())
  {
    PatchIsMerge(store.status, p.snapshot.status, p.Wanted());
  }

  /** `recorded` is history: the address of the last accepted Online report, or the initial one. */
  datatype System = System(store: Store, pending: map<Writer, Pending>, recorded: Address)

  datatype Step =
    | Get(writer: Writer, mutation: Mutation)
    | Patch(writer: Writer)
    | Crash(writer: Writer)
    | EditSpec
    | EditMetadata

  function Next(s: System, step: Step): System {
    match step
    case Get(w, m) => s.(pending := s.pending[w := Pending(s.store, m)])
    case Patch(w) =>
      if w !in s.pending then s
      else
        var rest := s.pending - {w};
        var m := s.pending[w].mutation;
        var answer := ServePatch(s.store, s.pending[w]);
        if answer.None? then s.(pending := rest)
        else System(answer.value, rest, if m.Online? then m.report.PublicAddress() else s.recorded)
    case Crash(w) => s.(pending := s.pending - {w})
    case EditSpec =>
      s.(store := s.store.(resourceVersion := s.store.resourceVersion + 1, generation := s.store.generation + 1))
    case EditMetadata =>
      s.(store := s.store.(resourceVersion := s.store.resourceVersion + 1))
  }

  function Run(s: System, steps: seq<Step>): System {
    if steps == [] then s else Next(Run(s, steps[..|steps| - 1]), steps[|steps| - 1])
  }

  predicate Fine(store: Store) {
    && Sound(store.status.conditions)
    && ObservedUpTo(store.status, store.generation)
  }

  /** A snapshot is an earlier state of the object, and an equal version means an equal object. */
  predicate Earlier(snapshot: Store, store: Store) {
    && snapshot.resourceVersion <= store.resourceVersion
    && snapshot.generation <= store.generation
    && (snapshot.resourceVersion == store.resourceVersion ==> snapshot == store)
  }

  predicate Inv(s: System) {
    && Fine(s.store)
    && s.store.status.PublicAddress() == s.recorded
    && forall w | w in s.pending :: Fine(s.pending[w].snapshot) && Earlier(s.pending[w].snapshot, s.store)
  }

  /** A freshly created object, and every object found sound at the start. */
  predicate Initial(s: System) {
    && Fine(s.store)
    && s.pending == map[]
    && s.recorded == s.store.status.PublicAddress()
  }

  /** An accepted agent patch hits the version it read, so it stores exactly what the agent computed. */
  lemma LockedPatchIsExact(store: Store, p: Pending)
    requires p.mutation.Locked() && Earlier(p.snapshot, store)
    ensures ServePatch(store, p).Some? <==> p.snapshot == store
    ensures ServePatch(store, p).Some? ==>
              ServePatch(store, p).value.status == Mutate(p.mutation, store.generation, store.status)
  {
  }

  /** A patch that changes nothing is no write: the version grows exactly with the status. */
  lemma VersionCountsChanges(store: Store, p: Pending)
    requires ServePatch(store, p).Some?
    ensures var next := ServePatch(store, p).value;
            && next.generation == store.generation
            && next.resourceVersion == store.resourceVersion + (if next.status == store.status then 0 else 1)
  {
    hide Mutate;
  }

  lemma UnlockedIsServed(store: Store, p: Pending)
    requires !p.mutation.Locked()
    ensures ServePatch(store, p).Some?
  {
  }

  /** A patch leaves the object sound, dated and at a later version, however stale its snapshot was. */
  lemma PatchKeepsFine(store: Store, p: Pending)
    requires Fine(store) && Fine(p.snapshot) && Earlier(p.snapshot, store)
    requires ServePatch(store, p).Some?
    ensures Fine(ServePatch(store, p).value)
    ensures Earlier(store, ServePatch(store, p).value)
    ensures ServePatch(store, p).value.status.PublicAddress()
         == if p.mutation.Online? then p.mutation.report.PublicAddress() else store.status.PublicAddress()
  {
    MutationInvariant(p.mutation, p.snapshot.generation, p.snapshot.status);
    if p.mutation.Online? {
      LockedPatchIsExact(store, p);
    }
  }

  lemma InvNext(s: System, step: Step)
    requires Inv(s)
    ensures Inv(Next(s, step))
    ensures Earlier(s.store, Next(s, step).store)
  {
    if step.Patch? && step.writer in s.pending {
      var p := s.pending[step.writer];
      if ServePatch(s.store, p).Some? {
        PatchKeepsFine(s.store, p);
      }
    }
  }

  /** What a step does to the writes in flight and to the recorded address. */
  lemma NextEffect(s: System, step: Step)
    requires Inv(s)
    ensures Inv(Next(s, step))
    ensures Next(s, step).pending ==
              match step
              case Get(w, m) => s.pending[w := Pending(s.store, m)]
              case Patch(w) => s.pending - {w}
              case Crash(w) => s.pending - {w}
              case EditSpec => s.pending
              case EditMetadata => s.pending
    ensures Next(s, step).recorded ==
              if step.Patch? && step.writer in s.pending && s.pending[step.writer].mutation.Online?
                 && ServePatch(s.store, s.pending[step.writer]).Some?
              then s.pending[step.writer].mutation.report.PublicAddress()
              else s.recorded
  {
    InvNext(s, step);
  }

  /**
   Safety over every interleaving: the stored Ready=True goes with TunnelReady=True, condition types are
   unique, no observedGeneration is ahead of the object, and the stored address is, as a whole, the one
   of the last accepted Online report.
   */
  lemma {:induction false} EveryRunIsSafe(s: System, steps: seq<Step>)
    requires Initial(s)
    ensures var r := Run(s, steps);
            && Inv(r)
            && UniqueTypes(r.store.status.conditions)
            && (StatusOf(r.store.status.conditions, Ready) == True
                ==> StatusOf(r.store.status.conditions, TunnelReady) == True)
            && r.store.status.observedGeneration <= r.store.generation
            && r.store.status.PublicAddress() == r.recorded
  {
    if steps != [] {
      EveryRunIsSafe(s, steps[..|steps| - 1]);
      InvNext(Run(s, steps[..|steps| - 1]), steps[|steps| - 1]);
    }
  }

  /** An accepted agent patch in a reachable state changes no condition but TunnelReady and Ready. */
  lemma AgentPatchOnlyTouchesItsConditions(s: System, w: Writer)
    requires Inv(s) && w in s.pending && s.pending[w].mutation.Locked()
    requires ServePatch(s.store, s.pending[w]).Some?
    ensures var p := s.pending[w];
            var after := Next(s, Patch(w)).store.status.conditions;
            && p.snapshot == s.store
            && StatusOf(after, TunnelReady) == StatusOf(after, Ready) == (if p.mutation.Online? then True else False)
            && forall kind | kind != TunnelReady && kind != Ready ::
                 Find(after, kind) == Find(s.store.status.conditions, kind)
  {
    LockedPatchIsExact(s.store, s.pending[w]);
    AgentMutation(s.pending[w].mutation, s.store.generation, s.store.status);
  }

  /** The TunnelReady entry a manager's mutation leaves in its own copy: the one it read, or a first entry. */
  function ManagerTunnelReady(m: Mutation, g: int, cs: seq<Condition>): Option<Condition> {
    if m.Reconciled? && !m.deploymentReady && StatusOf(cs, TunnelReady) == Unknown
    then Some(NothingReported(g))
    else Find(cs, TunnelReady)
  }

  /**
   When a manager patch leaves the agent's TunnelReady alone: exactly when it carries no condition list,
   or the entry in its own copy is the one that is stored by now.
   */
  lemma ManagerPatchKeepsTunnelReady(store: Store, p: Pending)
    requires !p.mutation.Locked()
    ensures ServePatch(store, p).Some?
    ensures var after := ServePatch(store, p).value.status.conditions;
            var read := p.snapshot.status.conditions;
            Find(after, TunnelReady) == Find(store.status.conditions, TunnelReady)
            <==> || p.Wanted().conditions == read
                 || ManagerTunnelReady(p.mutation, p.snapshot.generation, read)
                    == Find(store.status.conditions, TunnelReady)
  {
    hide MutateConditions, NothingReported, Updates;
    ReadinessAfter(p.mutation, p.snapshot.generation, p.snapshot.status.conditions);
  }

  /** Serving an agent's report at the version it read makes TunnelReady True. */
  lemma ReportIsServed(store: Store, report: OnlineReport)
    ensures var online := ServePatch(store, Pending(store, Online(report)));
            && online.Some?
            && online.value.status == Mutate(Online(report), store.generation, store.status)
            && StatusOf(online.value.status.conditions, TunnelReady) == True
  {
    hide Updates, MutateConditions;
    LockedPatchIsExact(store, Pending(store, Online(report)));
    ReadinessAfter(Online(report), store.generation, store.status.conditions);
    UpdatesShape(Online(report), store.generation, StatusOf(store.status.conditions, TunnelReady));
  }

  /**
   The manager does take back the agent's readiness: a first Online report is accepted, and a manager
   patch computed from the object before it leaves TunnelReady unknown again. The address survives.
   */
  lemma StaleManagerRevertsTunnelReady(first: Store, report: OnlineReport, message: string)
    requires first.status.conditions == []
    ensures var online := ServePatch(first, Pending(first, Online(report)));
            && online.Some?
            && StatusOf(online.value.status.conditions, TunnelReady) == True
            && var late := ServePatch(online.value, Pending(first, TargetBlocked(message)));
            && late.Some?
            && StatusOf(late.value.status.conditions, TunnelReady) == Unknown
            && late.value.status.PublicAddress() == report.PublicAddress()
  {
    hide Updates, MutateConditions;
    ReportIsServed(first, report);
    var manager := Pending(first, TargetBlocked(message));
    ReadinessAfter(manager.mutation, first.generation, []);
    assert manager.Wanted().conditions != [];
  }

  lemma TargetBlockedText(g: int, s: Status, message: string)
    ensures var c := Find(Mutate(TargetBlocked(message), g, s).conditions, Resolved);
            c.Some? && c.value.message == message
  {
    hide SpecAccepted;
    FixedConditions(g, "");
    var us := Updates(TargetBlocked(message), g, StatusOf(s.conditions, TunnelReady));
    UpdatesShape(TargetBlocked(message), g, StatusOf(s.conditions, TunnelReady));
    FindAt(us, 1);
    SetAllFinds(s.conditions, us, Resolved);
  }

  /**
   A new text is enough: with the status already saying that the target is missing, a report is accepted and a stale
   manager patch follows. It carries the list, and takes the readiness back, exactly when its text is another one.
   */
  lemma NewTextRevertsTunnelReady(first: Store, base: Status, report: OnlineReport, was: string, message: string)
    requires StatusOf(base.conditions, TunnelReady) != True
    requires first.status == Mutate(TargetBlocked(was), first.generation, base)
    ensures var online := ServePatch(first, Pending(first, Online(report)));
            && online.Some?
            && StatusOf(online.value.status.conditions, TunnelReady) == True
            && var late := ServePatch(online.value, Pending(first, TargetBlocked(message)));
            && late.Some?
            && (StatusOf(late.value.status.conditions, TunnelReady) == True <==> message == was)
  {
    hide Updates, MutateConditions;
    var g := first.generation;
    ReportIsServed(first, report);
    ReadinessAfter(TargetBlocked(was), g, base.conditions);
    ReadinessAfter(TargetBlocked(message), g, first.status.conditions);
    TargetBlockedText(g, base, was);
    TargetBlockedText(g, first.status, message);
    MutationIsIdempotent(TargetBlocked(was), g, base);
  }

  /**
   The stored observedGeneration is not monotone: a patch lowers it exactly when its copy had observed another
   generation than the one it was read at, and that one is older than what is stored by now.
   */
  lemma PatchLowersObservedGeneration(store: Store, p: Pending)
    requires ServePatch(store, p).Some?
    ensures ServePatch(store, p).value.status.observedGeneration < store.status.observedGeneration
            <==> && p.snapshot.generation != p.snapshot.status.observedGeneration
                 && p.snapshot.generation < store.status.observedGeneration
  {
  }

  /** That needs a stale manager: an agent's accepted patch never lowers it. */
  lemma AgentPatchKeepsObservedGeneration(s: System, w: Writer)
    requires Inv(s) && w in s.pending && s.pending[w].mutation.Locked() && ServePatch(s.store, s.pending[w]).Some?
    ensures Next(s, Patch(w)).store.status.observedGeneration >= s.store.status.observedGeneration
  {
    LockedPatchIsExact(s.store, s.pending[w]);
    PatchLowersObservedGeneration(s.store, s.pending[w]);
  }

  lemma RunSnoc(s: System, steps: seq<Step>, step: Step)
    ensures Run(s, steps + [step]) == Next(Run(s, steps), step)
  {
    assert (steps + [step])[..|steps|] == steps;
  }

  /** The manager reads, the spec is edited, the agent reads and reports, and only then the manager's patch arrives. */
  function LoweringSteps(manager: Writer, agent: Writer, m: Mutation, report: OnlineReport): seq<Step> {
    [Get(manager, m)] + [EditSpec] + [Get(agent, Online(report))] + [Patch(agent)] + [Patch(manager)]
  }

  /** A run that lowers it: from any initial object whose generation the status has not observed yet. */
  lemma ObservedGenerationCanFall(s: System, manager: Writer, agent: Writer, m: Mutation, report: OnlineReport)
    requires Initial(s) && manager != agent && !m.Locked()
    requires s.store.status.observedGeneration != s.store.generation
    ensures var steps := LoweringSteps(manager, agent, m, report);
            && |steps| == 5
            && Run(s, steps[..4]).store.status.observedGeneration == s.store.generation + 1
            && Run(s, steps).store.status.observedGeneration == s.store.generation
  {
    hide MutateConditions;
    var g := s.store.generation;
    var s1 := Next(s, Get(manager, m));
    var s2 := Next(s1, EditSpec);
    var s3 := Next(s2, Get(agent, Online(report)));
    var s4 := Next(s3, Patch(agent));
    LockedPatchIsExact(s3.store, s3.pending[agent]);
    PatchLowersObservedGeneration(s4.store, s4.pending[manager]);
    var a, b, c, d := [Get(manager, m)], [EditSpec], [Get(agent, Online(report))], [Patch(agent)];
    assert [] + a == a;
    RunSnoc(s, [], Get(manager, m));
    RunSnoc(s, a, EditSpec);
    RunSnoc(s, a + b, Get(agent, Online(report)));
    RunSnoc(s, a + b + c, Patch(agent));
    RunSnoc(s, a + b + c + d, Patch(manager));
    assert LoweringSteps(manager, agent, m, report)[..4] == a + b + c + d;
  }
}
