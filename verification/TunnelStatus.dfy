/** The status object of a RstreamTunnel and everything the manager and the agent do to it. */
module TunnelStatus {
  import opened Wrappers

  datatype ConditionType = Ready | Accepted | Resolved | AgentReady | TunnelReady | Other(name: string)

  datatype Truth = True | False | Unknown

  datatype Reason =
    | ByInvalidSpec | ByConnectionMissing | ByServiceMissing | ByAccepted | ByResolved
    | ByDeploymentAvailable | ByDeploymentPending | ByTunnelConnecting | ByTunnelOnline | ByTunnelDisconnected
    | ByFinalizing | ByReady | ByWaitingForTunnel | ByWaitingForDeployment

  datatype Condition = Condition(
    kind: ConditionType, status: Truth, observedGeneration: int, reason: Reason, message: string)

  /** `FindStatusCondition`: the first entry of the wanted type. */
  function Find(conditions: seq<Condition>, kind: ConditionType): Option<Condition> {
    if conditions == [] then None
    else if conditions[0].kind == kind then Some(conditions[0])
    else Find(conditions[1..], kind)
  }

  /** `conditionStatus`: a missing condition counts as Unknown. */
  function StatusOf(conditions: seq<Condition>, kind: ConditionType): Truth {
    match Find(conditions, kind)
    case Some(c) => c.status
    case None => Unknown
  }

  /** `SetStatusCondition`: overwrite the first entry of the type, or append. */
  function Set(conditions: seq<Condition>, c: Condition): seq<Condition> {
    if conditions == [] then [c]
    else if conditions[0].kind == c.kind then [c] + conditions[1..]
    else [conditions[0]] + Set(conditions[1..], c)
  }

  /** No condition type occurs twice, as the list's map key in the API demands. */
  predicate UniqueTypes(conditions: seq<Condition>) {
    forall i, j | 0 <= i < j < |conditions| :: conditions[i].kind != conditions[j].kind
  }

  lemma {:induction false} SetFinds(conditions: seq<Condition>, c: Condition, kind: ConditionType)
    ensures Find(Set(conditions, c), kind) == if kind == c.kind then Some(c) else Find(conditions, kind)
  {
    if conditions != [] && conditions[0].kind != c.kind {
      SetFinds(conditions[1..], c, kind);
      assert Set(conditions, c)[1..] == Set(conditions[1..], c);
    } else if conditions != [] {
      assert Set(conditions, c)[1..] == conditions[1..];
    }
  }

  lemma {:induction false} SetElements(conditions: seq<Condition>, c: Condition, d: Condition)
    requires d in Set(conditions, c)
    ensures d == c || d in conditions
  {
    if conditions != [] && conditions[0].kind != c.kind && d != conditions[0] {
      assert d in Set(conditions[1..], c);
      SetElements(conditions[1..], c, d);
    }
  }

  lemma {:induction false} SetKeepsUnique(conditions: seq<Condition>, c: Condition)
    requires UniqueTypes(conditions)
    ensures UniqueTypes(Set(conditions, c))
  {
    if conditions != [] && conditions[0].kind != c.kind {
      var rest := Set(conditions[1..], c);
      SetKeepsUnique(conditions[1..], c);
      forall j | 0 <= j < |rest|
        ensures rest[j].kind != conditions[0].kind
      {
        SetElements(conditions[1..], c, rest[j]);
      }
    }
  }

  lemma SetEffect(conditions: seq<Condition>, c: Condition)
    ensures Find(Set(conditions, c), c.kind) == Some(c)
    ensures forall kind | kind != c.kind :: Find(Set(conditions, c), kind) == Find(conditions, kind)
    ensures forall d | d in Set(conditions, c) :: d == c || d in conditions
    ensures UniqueTypes(conditions) ==> UniqueTypes(Set(conditions, c))
  {
    SetFinds(conditions, c, c.kind);
    forall kind | kind != c.kind
      ensures Find(Set(conditions, c), kind) == Find(conditions, kind)
    {
      SetFinds(conditions, c, kind);
    }
    forall d | d in Set(conditions, c)
      ensures d == c || d in conditions
    {
      SetElements(conditions, c, d);
    }
    if UniqueTypes(conditions) {
      SetKeepsUnique(conditions, c);
    }
  }

  /** The three fields that describe the public address. */
  datatype Address = Address(tunnelID: string, hostname: string, forwardingAddress: string)

  datatype Status = Status(
    observedGeneration: int,
    conditions: seq<Condition>,
    tunnelID: string,
    rstreamName: string,
    hostname: string,
    forwardingAddress: string,
    target: string,
    agentDeployment: string,
    lastError: string)
  {
    function PublicAddress(): Address {
      Address(tunnelID, hostname, forwardingAddress)
    }
  }

  const EMPTY_STATUS := Status(0, [], "", "", "", "", "", "", "")

  /** What an agent reports once its tunnel is online; `pod` is empty when it does not know its own name. */
  datatype OnlineReport = OnlineReport(
    tunnelID: string, hostname: string, forwardingAddress: string, rstreamName: string, target: string, pod: string)
  {
    function PublicAddress(): Address {
      Address(tunnelID, hostname, forwardingAddress)
    }
  }

  /** Every way in which the manager (first four) or the agent (last three) changes a status. */
  datatype Mutation =
    | TunnelBlocked(reason: Reason, message: string)
    | TargetBlocked(message: string)
    | Reconciled(deployment: string, target: string, rstreamName: string, deploymentReady: bool)
    | Finalizing
    | Connecting
    | Online(report: OnlineReport)
    | Disconnected(message: string)
  {
    /** The agent patches with an optimistic lock, the manager without. */
    predicate Locked() {
      Connecting? || Online? || Disconnected?
    }
  }

  // ---- The conditions that are published, with their texts ----

  function SpecAccepted(g: int): Condition {
    Condition(Accepted, True, g, ByAccepted, "Tunnel spec is accepted.")
  }

  function TargetResolved(g: int): Condition {
    Condition(Resolved, True, g, ByResolved, "Kubernetes target and rstream connection are resolved.")
  }

  function DeploymentAvailable(g: int): Condition {
    Condition(AgentReady, True, g, ByDeploymentAvailable, "Tunnel agent Deployment is available.")
  }

  function DeploymentPending(g: int): Condition {
    Condition(AgentReady, False, g, ByDeploymentPending, "Tunnel agent Deployment is not available yet.")
  }

  function NothingReported(g: int): Condition {
    Condition(TunnelReady, False, g, ByTunnelConnecting, "Tunnel agent has not reported readiness yet.")
  }

  function TunnelIsReady(g: int): Condition {
    Condition(Ready, True, g, ByReady, "Tunnel is ready.")
  }

  function WaitsForTunnel(g: int): Condition {
    Condition(Ready, False, g, ByWaitingForTunnel, "Waiting for the rstream tunnel to become ready.")
  }

  function WaitsForReconnect(g: int): Condition {
    Condition(Ready, False, g, ByWaitingForTunnel, "Waiting for the rstream tunnel to reconnect.")
  }

  function WaitsForDeployment(g: int): Condition {
    Condition(Ready, False, g, ByWaitingForDeployment, "Waiting for the tunnel agent Deployment to become available.")
  }

  function BeingDeleted(g: int): Condition {
    Condition(Ready, False, g, ByFinalizing, "Deleting managed tunnel resources.")
  }

  function AgentConnecting(g: int): Condition {
    Condition(TunnelReady, False, g, ByTunnelConnecting, "Tunnel agent is connecting to rstream.")
  }

  function AgentOnline(g: int, pod: string): Condition {
    Condition(TunnelReady, True, g, ByTunnelOnline,
              if pod != "" then "Tunnel is online from agent pod " + pod + "." else "Tunnel is online.")
  }

  /** The conditions a mutation sets, in order; `tunnelReady` is the TunnelReady it finds. */
  function Updates(m: Mutation, g: int, tunnelReady: Truth): seq<Condition> {
    match m
    case TunnelBlocked(reason, message) =>
      [Condition(Accepted, False, g, reason, message), Condition(Ready, False, g, reason, message)]
    case TargetBlocked(message) =>
      [SpecAccepted(g), Condition(Resolved, False, g, ByServiceMissing, message),
       Condition(Ready, False, g, ByServiceMissing, message)]
    case Reconciled(_, _, _, deploymentReady) =>
      if deploymentReady then
        [SpecAccepted(g), TargetResolved(g), DeploymentAvailable(g),
         if tunnelReady == True then TunnelIsReady(g) else WaitsForTunnel(g)]
      else if tunnelReady == Unknown then
        [SpecAccepted(g), TargetResolved(g), DeploymentPending(g), NothingReported(g), WaitsForDeployment(g)]
      else
        [SpecAccepted(g), TargetResolved(g), DeploymentPending(g), WaitsForDeployment(g)]
    case Finalizing => [BeingDeleted(g)]
    case Connecting => [AgentConnecting(g), WaitsForTunnel(g)]
    case Online(report) => [AgentOnline(g, report.pod), TunnelIsReady(g)]
    case Disconnected(message) =>
      [Condition(TunnelReady, False, g, ByTunnelDisconnected, message), WaitsForReconnect(g)]
  }

  function SetAll(conditions: seq<Condition>, updates: seq<Condition>): seq<Condition>
    decreases |updates|
  {
    if updates == [] then conditions else SetAll(Set(conditions, updates[0]), updates[1..])
  }

  /** The condition list after a mutation. */
  function MutateConditions(m: Mutation, g: int, cs: seq<Condition>): seq<Condition> {
    SetAll(cs, Updates(m, g, StatusOf(cs, TunnelReady)))
  }

  /** The whole status after a mutation of an object read at generation `g`. */
  function Mutate(m: Mutation, g: int, s: Status): Status {
    var s := s.(observedGeneration := g, conditions := MutateConditions(m, g, s.conditions));
    match m
    case TunnelBlocked(_, message) => s.(lastError := message)
    case TargetBlocked(message) => s.(lastError := message)
    case Reconciled(deployment, target, rstreamName, _) =>
      s.(lastError := "", agentDeployment := deployment, target := target, rstreamName := rstreamName)
    case Finalizing => s
    case Connecting => s.(lastError := "")
    case Online(r) =>
      s.(tunnelID := r.tunnelID, hostname := r.hostname, forwardingAddress := r.forwardingAddress,
         rstreamName := r.rstreamName, target := r.target, lastError := "")
    case Disconnected(message) => s.(lastError := message)
  }

  /** Ready=True is only ever published next to TunnelReady=True, in a list with unique types. */
  predicate Sound(conditions: seq<Condition>) {
    && UniqueTypes(conditions)
    && (StatusOf(conditions, Ready) == True ==> StatusOf(conditions, TunnelReady) == True)
  }

  /** No part of the status claims to have observed a generation later than `g`. */
  predicate ObservedUpTo(s: Status, g: int) {
    && s.observedGeneration <= g
    && forall c | c in s.conditions :: c.observedGeneration <= g
  }

  predicate Dated(conditions: seq<Condition>, g: int) {
    forall c | c in conditions :: c.observedGeneration <= g
  }

  /** After several updates of different types, each type has its update, or what it had before. */
  lemma {:induction false} SetAllFinds(cs: seq<Condition>, us: seq<Condition>, kind: ConditionType)
    requires UniqueTypes(us)
    ensures Find(SetAll(cs, us), kind) == if Find(us, kind).Some? then Find(us, kind) else Find(cs, kind)
    decreases |us|
  {
    if us != [] {
      SetFinds(cs, us[0], kind);
      SetAllFinds(Set(cs, us[0]), us[1..], kind);
      if us[0].kind == kind {
        FindNone(us[1..], kind);
      }
    }
  }

  lemma {:induction false} FindNone(cs: seq<Condition>, kind: ConditionType)
    requires forall i | 0 <= i < |cs| :: cs[i].kind != kind
    ensures Find(cs, kind) == None
  {
    if cs != [] {
      FindNone(cs[1..], kind);
    }
  }

  lemma {:induction false} SetAllKeeps(cs: seq<Condition>, us: seq<Condition>, g: int)
    requires UniqueTypes(cs) && Dated(cs, g) && Dated(us, g)
    ensures UniqueTypes(SetAll(cs, us)) && Dated(SetAll(cs, us), g)
    decreases |us|
  {
    if us != [] {
      SetEffect(cs, us[0]);
      SetAllKeeps(Set(cs, us[0]), us[1..], g);
    }
  }

  lemma {:induction false} SetSame(cs: seq<Condition>, c: Condition)
    requires Find(cs, c.kind) == Some(c)
    ensures Set(cs, c) == cs
  {
    if cs[0].kind != c.kind {
      SetSame(cs[1..], c);
      assert cs == [cs[0]] + cs[1..];
    } else {
      assert cs == [c] + cs[1..];
    }
  }

  lemma {:induction false} SetAllSame(cs: seq<Condition>, us: seq<Condition>)
    requires forall i | 0 <= i < |us| :: Find(cs, us[i].kind) == Some(us[i])
    ensures SetAll(cs, us) == cs
    decreases |us|
  {
    if us != [] {
      SetSame(cs, us[0]);
      SetAllSame(cs, us[1..]);
    }
  }

  /** The Ready and TunnelReady among the updates of a mutation, and what they look like otherwise. */
  predicate Shape(us: seq<Condition>, m: Mutation, g: int, tunnelReady: Truth) {
    && UniqueTypes(us)
    && (forall i | 0 <= i < |us| :: us[i].observedGeneration == g)
    && |us| > 0 && us[|us| - 1].kind == Ready
    && (m.Locked() ==> |us| == 2 && us[0].kind == TunnelReady)
    && (m.Locked() ==> us[0].status == us[1].status == if m.Online? then True else False)
    && (!m.Locked() && us[|us| - 1].status == True ==> tunnelReady == True)
    && (!m.Locked() && !(m.Reconciled? && !m.deploymentReady && tunnelReady == Unknown) ==>
          forall i | 0 <= i < |us| :: us[i].kind != TunnelReady)
    && (m.Reconciled? && !m.deploymentReady && tunnelReady == Unknown ==> |us| == 5 && us[3] == NothingReported(g))
  }

  lemma UpdatesShape(m: Mutation, g: int, tunnelReady: Truth)
    ensures Shape(Updates(m, g, tunnelReady), m, g, tunnelReady)
  {
    hide Updates, Shape;
    if m.Locked() {
      AgentShape(m, g, tunnelReady);
    } else if m.Reconciled? {
      PassShape(m, g, tunnelReady);
    } else {
      BlockedShape(m, g, tunnelReady);
    }
  }

  lemma AgentShape(m: Mutation, g: int, tunnelReady: Truth)
    requires m.Locked()
    ensures Shape(Updates(m, g, tunnelReady), m, g, tunnelReady)
  {
    hide Updates, Shape;
    match m {
      case Connecting => ConnectingShape(g, tunnelReady);
      case Online(report) => OnlineShape(report, g, tunnelReady);
      case Disconnected(message) => DisconnectedShape(message, g, tunnelReady);
    }
  }

  lemma ConnectingShape(g: int, tunnelReady: Truth)
    ensures Shape(Updates(Connecting, g, tunnelReady), Connecting, g, tunnelReady)
  {
    hide WaitsForTunnel, AgentConnecting, Shape;
    FixedConditions(g, "");
    PairShape(AgentConnecting(g), WaitsForTunnel(g), Connecting, g, tunnelReady);
  }

  lemma OnlineShape(report: OnlineReport, g: int, tunnelReady: Truth)
    ensures Shape(Updates(Online(report), g, tunnelReady), Online(report), g, tunnelReady)
  {
    hide TunnelIsReady, AgentOnline, Shape;
    FixedConditions(g, report.pod);
    PairShape(AgentOnline(g, report.pod), TunnelIsReady(g), Online(report), g, tunnelReady);
  }

  lemma DisconnectedShape(message: string, g: int, tunnelReady: Truth)
    ensures Shape(Updates(Disconnected(message), g, tunnelReady), Disconnected(message), g, tunnelReady)
  {
    hide WaitsForReconnect, Shape;
    FixedConditions(g, "");
    PairShape(Condition(TunnelReady, False, g, ByTunnelDisconnected, message), WaitsForReconnect(g),
              Disconnected(message), g, tunnelReady);
  }

  lemma PairShape(a: Condition, b: Condition, m: Mutation, g: int, tunnelReady: Truth)
    requires m.Locked() && a.kind == TunnelReady && b.kind == Ready && a.observedGeneration == b.observedGeneration == g
    requires a.status == b.status == if m.Online? then True else False
    ensures Shape([a, b], m, g, tunnelReady)
  {
  }

  lemma PassShape(m: Mutation, g: int, tunnelReady: Truth)
    requires m.Reconciled?
    ensures Shape(Updates(m, g, tunnelReady), m, g, tunnelReady)
  {
    hide SpecAccepted, TargetResolved, DeploymentAvailable, DeploymentPending, NothingReported, TunnelIsReady,
         WaitsForTunnel, WaitsForDeployment;
    FixedConditions(g, "");
  }

  lemma BlockedShape(m: Mutation, g: int, tunnelReady: Truth)
    requires m.TunnelBlocked? || m.TargetBlocked? || m.Finalizing?
    ensures Shape(Updates(m, g, tunnelReady), m, g, tunnelReady)
  {
    hide SpecAccepted, BeingDeleted;
    FixedConditions(g, "");
  }

  lemma {:induction false} FindAt(cs: seq<Condition>, i: nat)
    requires UniqueTypes(cs) && i < |cs|
    ensures Find(cs, cs[i].kind) == Some(cs[i])
  {
    if i > 0 {
      assert cs[0].kind != cs[i].kind;
      FindAt(cs[1..], i - 1);
    }
  }

  /** The TunnelReady entry that a mutation sets, if any. */
  function TunnelReadyUpdate(m: Mutation, g: int, tunnelReady: Truth): Option<Condition> {
    if m.Locked() then Some(Updates(m, g, tunnelReady)[0])
    else if m.Reconciled? && !m.deploymentReady && tunnelReady == Unknown then Some(NothingReported(g))
    else None
  }

  lemma ReadinessAfter(m: Mutation, g: int, cs: seq<Condition>)
    ensures var us := Updates(m, g, StatusOf(cs, TunnelReady));
            var after := MutateConditions(m, g, cs);
            var update := TunnelReadyUpdate(m, g, StatusOf(cs, TunnelReady));
            && Find(after, Ready) == Some(us[|us| - 1])
            && Find(after, TunnelReady) == (if update.Some? then update else Find(cs, TunnelReady))
  {
    hide Updates, NothingReported;
    var us := Updates(m, g, StatusOf(cs, TunnelReady));
    UpdatesShape(m, g, StatusOf(cs, TunnelReady));
    FixedConditions(g, "");
    SetAllFinds(cs, us, Ready);
    SetAllFinds(cs, us, TunnelReady);
    FindAt(us, |us| - 1);
    if m.Locked() {
      FindAt(us, 0);
    } else if m.Reconciled? && !m.deploymentReady && StatusOf(cs, TunnelReady) == Unknown {
      FindAt(us, 3);
    } else {
      FindNone(us, TunnelReady);
    }
  }

  lemma SoundAfter(m: Mutation, g: int, cs: seq<Condition>)
    requires Sound(cs) && Dated(cs, g)
    ensures Sound(MutateConditions(m, g, cs)) && Dated(MutateConditions(m, g, cs), g)
  {
    hide Updates, NothingReported, SetAll;
    UpdatesShape(m, g, StatusOf(cs, TunnelReady));
    FixedConditions(g, "");
    SetAllKeeps(cs, Updates(m, g, StatusOf(cs, TunnelReady)), g);
    ReadinessAfter(m, g, cs);
  }

  /** Every mutation of a sound status is sound and marked with the generation it was read at. */
  lemma MutationInvariant(m: Mutation, g: int, s: Status)
    requires Sound(s.conditions) && ObservedUpTo(s, g)
    ensures Sound(Mutate(m, g, s).conditions) && ObservedUpTo(Mutate(m, g, s), g)
    ensures !m.Online? ==> Mutate(m, g, s).PublicAddress() == s.PublicAddress()
    ensures m.Online? ==> Mutate(m, g, s).PublicAddress() == m.report.PublicAddress()
  {
    hide MutateConditions, Sound;
    SoundAfter(m, g, s.conditions);
  }

  /** The agent decides TunnelReady and Ready, equal to each other, and no other condition. */
  lemma AgentMutation(m: Mutation, g: int, s: Status)
    requires m.Locked() && UniqueTypes(s.conditions) && ObservedUpTo(s, g)
    ensures var r := Mutate(m, g, s);
            && Sound(r.conditions) && ObservedUpTo(r, g)
            && StatusOf(r.conditions, TunnelReady) == StatusOf(r.conditions, Ready)
            && StatusOf(r.conditions, Ready) == (if m.Online? then True else False)
            && (forall kind | kind != TunnelReady && kind != Ready ::
                  Find(r.conditions, kind) == Find(s.conditions, kind))
  {
    hide Updates;
    var us := Updates(m, g, StatusOf(s.conditions, TunnelReady));
    UpdatesShape(m, g, StatusOf(s.conditions, TunnelReady));
    SetAllKeeps(s.conditions, us, g);
    ReadinessAfter(m, g, s.conditions);
    forall kind | kind != TunnelReady && kind != Ready
      ensures Find(Mutate(m, g, s).conditions, kind) == Find(s.conditions, kind)
    {
      FindNone(us, kind);
      SetAllFinds(s.conditions, us, kind);
    }
  }

  /** Doing a mutation twice at the same generation is doing it once. */
  lemma MutationIsIdempotent(m: Mutation, g: int, s: Status)
    ensures Mutate(m, g, Mutate(m, g, s)) == Mutate(m, g, s)
  {
    hide Updates;
    var us := Updates(m, g, StatusOf(s.conditions, TunnelReady));
    var after := MutateConditions(m, g, s.conditions);
    var again := Updates(m, g, StatusOf(after, TunnelReady));
    UpdatesShape(m, g, StatusOf(s.conditions, TunnelReady));
    UpdatesAgain(m, g, s.conditions);
    forall i | 0 <= i < |again|
      ensures Find(after, again[i].kind) == Some(again[i])
    {
      assert again[i] in us;
      var j :| 0 <= j < |us| && us[j] == again[i];
      FindAt(us, j);
      SetAllFinds(s.conditions, us, us[j].kind);
    }
    SetAllSame(after, again);
  }

  predicate AllIn(some: seq<Condition>, all: seq<Condition>) {
    forall i | 0 <= i < |some| :: some[i] in all
  }

  /** A repeated mutation sets nothing that it has not set before. */
  lemma UpdatesAgain(m: Mutation, g: int, cs: seq<Condition>)
    ensures AllIn(Updates(m, g, StatusOf(MutateConditions(m, g, cs), TunnelReady)),
                  Updates(m, g, StatusOf(cs, TunnelReady)))
  {
    hide SetAll, StatusOf, MutateConditions;
    hide SpecAccepted, TargetResolved, DeploymentAvailable, DeploymentPending, NothingReported, TunnelIsReady,
         WaitsForTunnel, WaitsForReconnect, WaitsForDeployment, BeingDeleted, AgentConnecting, AgentOnline;
    TunnelReadyAgain(m, g, cs);
    FewerUpdates(m, g, StatusOf(cs, TunnelReady), StatusOf(MutateConditions(m, g, cs), TunnelReady));
  }

  lemma FewerUpdates(m: Mutation, g: int, before: Truth, after: Truth)
    requires if m.Reconciled? && !m.deploymentReady && before == Unknown then after == False
             else m.Locked() || after == before
    ensures AllIn(Updates(m, g, after), Updates(m, g, before))
  {
    hide SpecAccepted, TargetResolved, DeploymentAvailable, DeploymentPending, NothingReported, TunnelIsReady,
         WaitsForTunnel, WaitsForReconnect, WaitsForDeployment, BeingDeleted, AgentConnecting, AgentOnline;
    var us, again := Updates(m, g, before), Updates(m, g, after);
    if m.Reconciled? && !m.deploymentReady && before == Unknown {
      assert again[0] == us[0] && again[1] == us[1] && again[2] == us[2] && again[3] == us[4];
    } else {
      assert again == us;
    }
  }

  lemma TunnelReadyAgain(m: Mutation, g: int, cs: seq<Condition>)
    ensures var before, after := StatusOf(cs, TunnelReady), StatusOf(MutateConditions(m, g, cs), TunnelReady);
            if m.Reconciled? && !m.deploymentReady && before == Unknown then after == False
            else m.Locked() || after == before
  {
    hide Updates, MutateConditions, NothingReported;
    ReadinessAfter(m, g, cs);
    FixedConditions(g, "");
  }

  /** The in-memory copy that the mutation closures assign to. */
  class TunnelObject {
    const generation: int
    var observedGeneration: int
    var conditions: seq<Condition>
    var tunnelID: string
    var rstreamName: string
    var hostname: string
    var forwardingAddress: string
    var target: string
    var agentDeployment: string
    var lastError: string

    constructor (generation: int, s: Status)
      ensures this.generation == generation && Value() == s
    {
      this.generation := generation;
      observedGeneration := s.observedGeneration;
      conditions := s.conditions;
      tunnelID := s.tunnelID;
      rstreamName := s.rstreamName;
      hostname := s.hostname;
      forwardingAddress := s.forwardingAddress;
      target := s.target;
      agentDeployment := s.agentDeployment;
      lastError := s.lastError;
    }

    function Value(): Status
      reads this
    {
      Status(observedGeneration, conditions, tunnelID, rstreamName, hostname, forwardingAddress,
             target, agentDeployment, lastError)
    }

    /** `meta.SetStatusCondition`: search the list, then assign the entry or append. */
    method SetCondition(c: Condition)
      modifies this`conditions
      ensures conditions == Set(old(conditions), c)
    {
      var i := 0;
      while i < |conditions| && conditions[i].kind != c.kind
        invariant 0 <= i <= |conditions|
        invariant Set(conditions, c) == conditions[..i] + Set(conditions[i..], c)
      {
        assert conditions[i..][1..] == conditions[i + 1..];
        i := i + 1;
      }
      if i < |conditions| {
        conditions := conditions[i := c];
      } else {
        conditions := conditions + [c];
      }
    }

    method MarkTunnelBlocked(reason: Reason, message: string)
      modifies this
      ensures Value() == Mutate(TunnelBlocked(reason, message), generation, old(Value()))
    {
      observedGeneration := generation;
      lastError := message;
      ghost var was := conditions;
      SetCondition(Condition(Accepted, False, generation, reason, message));
      SetCondition(Condition(Ready, False, generation, reason, message));
      SetTwo(was, Condition(Accepted, False, generation, reason, message),
             Condition(Ready, False, generation, reason, message));
    }

    method MarkTargetBlocked(message: string)
      modifies this
      ensures Value() == Mutate(TargetBlocked(message), generation, old(Value()))
    {
      observedGeneration := generation;
      lastError := message;
      ghost var was := conditions;
      SetCondition(SpecAccepted(generation));
      SetCondition(Condition(Resolved, False, generation, ByServiceMissing, message));
      SetCondition(Condition(Ready, False, generation, ByServiceMissing, message));
      SetThree(was, SpecAccepted(generation), Condition(Resolved, False, generation, ByServiceMissing, message),
               Condition(Ready, False, generation, ByServiceMissing, message));
    }

    method MarkReconciled(deployment: string, address: string, name: string, deploymentReady: bool)
      modifies this
      ensures Value() == Mutate(Reconciled(deployment, address, name, deploymentReady), generation, old(Value()))
    {
      hide Updates, MutateConditions;
      observedGeneration := generation;
      lastError := "";
      agentDeployment := deployment;
      target := address;
      rstreamName := name;
      MarkConditions(deploymentReady, Reconciled(deployment, address, name, deploymentReady));
    }

    method MarkConditions(deploymentReady: bool, ghost m: Mutation)
      requires m.Reconciled? && m.deploymentReady == deploymentReady
      modifies this`conditions
      ensures conditions == MutateConditions(m, generation, old(conditions))
    {
      hide SpecAccepted, TargetResolved, DeploymentAvailable, DeploymentPending, NothingReported, TunnelIsReady,
           WaitsForTunnel, WaitsForDeployment, Set;
      var g := generation;
      FixedConditions(g, "");
      ghost var was := conditions;
      SetCondition(SpecAccepted(g));
      SetCondition(TargetResolved(g));
      if deploymentReady {
        SetCondition(DeploymentAvailable(g));
        ReadyIsUntouched(was, g, DeploymentAvailable(g));
        if StatusOf(conditions, TunnelReady) == True {
          SetCondition(TunnelIsReady(g));
        } else {
          SetCondition(WaitsForTunnel(g));
        }
        SetFour(was, SpecAccepted(g), TargetResolved(g), DeploymentAvailable(g),
                if StatusOf(was, TunnelReady) == True then TunnelIsReady(g) else WaitsForTunnel(g));
      } else {
        SetCondition(DeploymentPending(g));
        ReadyIsUntouched(was, g, DeploymentPending(g));
        if StatusOf(conditions, TunnelReady) == Unknown {
          SetCondition(NothingReported(g));
        }
        SetCondition(WaitsForDeployment(g));
        SetFour(was, SpecAccepted(g), TargetResolved(g), DeploymentPending(g), WaitsForDeployment(g));
        SetFive(was, SpecAccepted(g), TargetResolved(g), DeploymentPending(g), NothingReported(g),
                WaitsForDeployment(g));
      }
    }

    method MarkFinalizing()
      modifies this
      ensures Value() == Mutate(Finalizing, generation, old(Value()))
    {
      observedGeneration := generation;
      SetOne(conditions, BeingDeleted(generation));
      SetCondition(BeingDeleted(generation));
    }

    method MarkConnecting()
      modifies this
      ensures Value() == Mutate(Connecting, generation, old(Value()))
    {
      observedGeneration := generation;
      lastError := "";
      SetTwo(conditions, AgentConnecting(generation), WaitsForTunnel(generation));
      SetCondition(AgentConnecting(generation));
      SetCondition(WaitsForTunnel(generation));
    }

    method MarkOnline(report: OnlineReport)
      modifies this
      ensures Value() == Mutate(Online(report), generation, old(Value()))
    {
      observedGeneration := generation;
      tunnelID := report.tunnelID;
      hostname := report.hostname;
      forwardingAddress := report.forwardingAddress;
      rstreamName := report.rstreamName;
      target := report.target;
      lastError := "";
      SetTwo(conditions, AgentOnline(generation, report.pod), TunnelIsReady(generation));
      SetCondition(AgentOnline(generation, report.pod));
      SetCondition(TunnelIsReady(generation));
    }

    method MarkDisconnected(message: string)
      modifies this
      ensures Value() == Mutate(Disconnected(message), generation, old(Value()))
    {
      observedGeneration := generation;
      lastError := message;
      SetTwo(conditions, Condition(TunnelReady, False, generation, ByTunnelDisconnected, message),
             WaitsForReconnect(generation));
      SetCondition(Condition(TunnelReady, False, generation, ByTunnelDisconnected, message));
      SetCondition(WaitsForReconnect(generation));
    }
  }

  lemma ReadyIsUntouched(cs: seq<Condition>, g: int, deployment: Condition)
    requires deployment.kind == AgentReady
    ensures StatusOf(Set(Set(Set(cs, SpecAccepted(g)), TargetResolved(g)), deployment), TunnelReady)
         == StatusOf(cs, TunnelReady)
  {
    hide SpecAccepted, TargetResolved;
    FixedConditions(g, "");
    SetFinds(cs, SpecAccepted(g), TunnelReady);
    SetFinds(Set(cs, SpecAccepted(g)), TargetResolved(g), TunnelReady);
    SetFinds(Set(Set(cs, SpecAccepted(g)), TargetResolved(g)), deployment, TunnelReady);
  }

  lemma SetCons(cs: seq<Condition>, a: Condition, rest: seq<Condition>)
    ensures SetAll(cs, [a] + rest) == SetAll(Set(cs, a), rest)
  {
    assert ([a] + rest)[1..] == rest;
  }

  lemma SetOne(cs: seq<Condition>, a: Condition)
    ensures SetAll(cs, [a]) == Set(cs, a)
  {
    assert [a] == [a] + [];
    SetCons(cs, a, []);
  }

  lemma SetTwo(cs: seq<Condition>, a: Condition, b: Condition)
    ensures SetAll(cs, [a, b]) == Set(Set(cs, a), b)
  {
    assert [a, b] == [a] + [b];
    SetCons(cs, a, [b]);
    SetOne(Set(cs, a), b);
  }

  lemma SetThree(cs: seq<Condition>, a: Condition, b: Condition, c: Condition)
    ensures SetAll(cs, [a, b, c]) == Set(Set(Set(cs, a), b), c)
  {
    assert [a, b, c] == [a] + [b, c];
    SetCons(cs, a, [b, c]);
    SetTwo(Set(cs, a), b, c);
  }

  lemma SetFour(cs: seq<Condition>, a: Condition, b: Condition, c: Condition, d: Condition)
    ensures SetAll(cs, [a, b, c, d]) == Set(Set(Set(Set(cs, a), b), c), d)
  {
    assert [a, b, c, d] == [a] + [b, c, d];
    SetCons(cs, a, [b, c, d]);
    SetThree(Set(cs, a), b, c, d);
  }

  lemma SetFive(cs: seq<Condition>, a: Condition, b: Condition, c: Condition, d: Condition, e: Condition)
    ensures SetAll(cs, [a, b, c, d, e]) == Set(Set(Set(Set(Set(cs, a), b), c), d), e)
  {
    assert [a, b, c, d, e] == [a] + [b, c, d, e];
    SetCons(cs, a, [b, c, d, e]);
    SetFour(Set(cs, a), b, c, d, e);
  }

  predicate IsCondition(c: Condition, kind: ConditionType, status: Truth, g: int, reason: Reason) {
    c.kind == kind && c.status == status && c.observedGeneration == g && c.reason == reason
  }

  /** What counts of the fixed conditions, apart from their texts. */
  lemma FixedConditions(g: int, pod: string)
    ensures IsCondition(SpecAccepted(g), Accepted, True, g, ByAccepted)
    ensures IsCondition(TargetResolved(g), Resolved, True, g, ByResolved)
    ensures IsCondition(DeploymentAvailable(g), AgentReady, True, g, ByDeploymentAvailable)
    ensures IsCondition(DeploymentPending(g), AgentReady, False, g, ByDeploymentPending)
    ensures IsCondition(NothingReported(g), TunnelReady, False, g, ByTunnelConnecting)
    ensures IsCondition(TunnelIsReady(g), Ready, True, g, ByReady)
    ensures IsCondition(WaitsForTunnel(g), Ready, False, g, ByWaitingForTunnel)
    ensures IsCondition(WaitsForReconnect(g), Ready, False, g, ByWaitingForTunnel)
    ensures IsCondition(WaitsForDeployment(g), Ready, False, g, ByWaitingForDeployment)
    ensures IsCondition(BeingDeleted(g), Ready, False, g, ByFinalizing)
    ensures IsCondition(AgentConnecting(g), TunnelReady, False, g, ByTunnelConnecting)
    ensures IsCondition(AgentOnline(g, pod), TunnelReady, True, g, ByTunnelOnline)
  {
  }

  // ---- What each mutation publishes ----

  /** The list has an entry of the type, with this status, generation and reason. */
  predicate Says(cs: seq<Condition>, kind: ConditionType, status: Truth, g: int, reason: Reason) {
    Find(cs, kind).Some? && IsCondition(Find(cs, kind).value, kind, status, g, reason)
  }

  lemma SetsEntry(m: Mutation, g: int, cs: seq<Condition>, i: nat)
    requires i < |Updates(m, g, StatusOf(cs, TunnelReady))|
    ensures var us := Updates(m, g, StatusOf(cs, TunnelReady));
            Find(MutateConditions(m, g, cs), us[i].kind) == Some(us[i])
  {
    hide Updates;
    var us := Updates(m, g, StatusOf(cs, TunnelReady));
    UpdatesShape(m, g, StatusOf(cs, TunnelReady));
    FindAt(us, i);
    SetAllFinds(cs, us, us[i].kind);
  }

  lemma KeepsEntry(m: Mutation, g: int, cs: seq<Condition>, kind: ConditionType)
    requires var us := Updates(m, g, StatusOf(cs, TunnelReady)); forall i | 0 <= i < |us| :: us[i].kind != kind
    ensures Find(MutateConditions(m, g, cs), kind) == Find(cs, kind)
  {
    hide Updates;
    var us := Updates(m, g, StatusOf(cs, TunnelReady));
    UpdatesShape(m, g, StatusOf(cs, TunnelReady));
    FindNone(us, kind);
    SetAllFinds(cs, us, kind);
  }

  /**
   A full pass publishes Accepted and Resolved, AgentReady exactly if the Deployment is available, and Ready exactly if
   it is and the agent has reported its tunnel as ready; it speaks for the agent only if that has not spoken yet.
   */
  lemma ReconciledMeans(m: Mutation, g: int, s: Status)
    requires m.Reconciled?
    ensures var r, found := Mutate(m, g, s), StatusOf(s.conditions, TunnelReady);
            && Says(r.conditions, Accepted, True, g, ByAccepted)
            && Says(r.conditions, Resolved, True, g, ByResolved)
            && (if m.deploymentReady then Says(r.conditions, AgentReady, True, g, ByDeploymentAvailable)
                else Says(r.conditions, AgentReady, False, g, ByDeploymentPending))
            && (if !m.deploymentReady then Says(r.conditions, Ready, False, g, ByWaitingForDeployment)
                else if found == True then Says(r.conditions, Ready, True, g, ByReady)
                else Says(r.conditions, Ready, False, g, ByWaitingForTunnel))
            && (if !m.deploymentReady && found == Unknown
                then Says(r.conditions, TunnelReady, False, g, ByTunnelConnecting)
                else Find(r.conditions, TunnelReady) == Find(s.conditions, TunnelReady))
            && r.observedGeneration == g && r.lastError == ""
            && r.agentDeployment == m.deployment && r.target == m.target && r.rstreamName == m.rstreamName
            && r.PublicAddress() == s.PublicAddress()
  {
    hide MutateConditions, SpecAccepted, TargetResolved, DeploymentAvailable, DeploymentPending, NothingReported,
         TunnelIsReady, WaitsForTunnel, WaitsForDeployment;
    var cs := s.conditions;
    FixedConditions(g, "");
    SetsEntry(m, g, cs, 0);
    SetsEntry(m, g, cs, 1);
    SetsEntry(m, g, cs, 2);
    SetsEntry(m, g, cs, 3);
    if !m.deploymentReady && StatusOf(cs, TunnelReady) == Unknown {
      SetsEntry(m, g, cs, 4);
    } else {
      KeepsEntry(m, g, cs, TunnelReady);
    }
  }

  /** A tunnel that is blocked by its spec or connection: not accepted, not ready, the text three times, no more. */
  lemma TunnelBlockedMeans(m: Mutation, g: int, s: Status)
    requires m.TunnelBlocked?
    ensures var r := Mutate(m, g, s);
            && Says(r.conditions, Accepted, False, g, m.reason) && Says(r.conditions, Ready, False, g, m.reason)
            && Find(r.conditions, Accepted).value.message == Find(r.conditions, Ready).value.message == m.message
            && (forall kind | kind != Accepted && kind != Ready :: Find(r.conditions, kind) == Find(s.conditions, kind))
            && r == s.(observedGeneration := g, lastError := m.message, conditions := r.conditions)
  {
    hide MutateConditions;
    SetsEntry(m, g, s.conditions, 0);
    SetsEntry(m, g, s.conditions, 1);
    forall kind | kind != Accepted && kind != Ready
      ensures Find(MutateConditions(m, g, s.conditions), kind) == Find(s.conditions, kind)
    {
      KeepsEntry(m, g, s.conditions, kind);
    }
  }

  /** A tunnel that is blocked by its target: accepted, not resolved, not ready. */
  lemma TargetBlockedMeans(m: Mutation, g: int, s: Status)
    requires m.TargetBlocked?
    ensures var r := Mutate(m, g, s);
            && Says(r.conditions, Accepted, True, g, ByAccepted)
            && Says(r.conditions, Resolved, False, g, ByServiceMissing)
            && Says(r.conditions, Ready, False, g, ByServiceMissing)
            && Find(r.conditions, Resolved).value.message == Find(r.conditions, Ready).value.message == m.message
            && (forall kind | kind != Accepted && kind != Resolved && kind != Ready ::
                  Find(r.conditions, kind) == Find(s.conditions, kind))
            && r == s.(observedGeneration := g, lastError := m.message, conditions := r.conditions)
  {
    hide MutateConditions, SpecAccepted;
    FixedConditions(g, "");
    SetsEntry(m, g, s.conditions, 0);
    SetsEntry(m, g, s.conditions, 1);
    SetsEntry(m, g, s.conditions, 2);
    forall kind | kind != Accepted && kind != Resolved && kind != Ready
      ensures Find(MutateConditions(m, g, s.conditions), kind) == Find(s.conditions, kind)
    {
      KeepsEntry(m, g, s.conditions, kind);
    }
  }

  /** A deletion that begins: not ready, and nothing else. */
  lemma FinalizingMeans(m: Mutation, g: int, s: Status)
    requires m.Finalizing?
    ensures var r := Mutate(m, g, s);
            && Says(r.conditions, Ready, False, g, ByFinalizing)
            && (forall kind | kind != Ready :: Find(r.conditions, kind) == Find(s.conditions, kind))
            && r == s.(observedGeneration := g, conditions := r.conditions)
  {
    hide MutateConditions, BeingDeleted;
    FixedConditions(g, "");
    SetsEntry(m, g, s.conditions, 0);
    forall kind | kind != Ready
      ensures Find(MutateConditions(m, g, s.conditions), kind) == Find(s.conditions, kind)
    {
      KeepsEntry(m, g, s.conditions, kind);
    }
  }

  /** What an agent publishes when it begins to connect. */
  lemma ConnectingMeans(g: int, s: Status)
    ensures var r := Mutate(Connecting, g, s);
            && Says(r.conditions, TunnelReady, False, g, ByTunnelConnecting)
            && Says(r.conditions, Ready, False, g, ByWaitingForTunnel)
            && r == s.(observedGeneration := g, lastError := "", conditions := r.conditions)
  {
    hide MutateConditions, AgentConnecting, WaitsForTunnel;
    FixedConditions(g, "");
    SetsEntry(Connecting, g, s.conditions, 0);
    SetsEntry(Connecting, g, s.conditions, 1);
  }

  /** Once its tunnel is online: ready, with everything the report says. */
  lemma OnlineMeans(o: OnlineReport, g: int, s: Status)
    ensures var r := Mutate(Online(o), g, s);
            && Says(r.conditions, TunnelReady, True, g, ByTunnelOnline) && Says(r.conditions, Ready, True, g, ByReady)
            && r == s.(observedGeneration := g, lastError := "", conditions := r.conditions,
                       tunnelID := o.tunnelID, hostname := o.hostname, forwardingAddress := o.forwardingAddress,
                       rstreamName := o.rstreamName, target := o.target)
  {
    hide MutateConditions, AgentOnline, TunnelIsReady;
    FixedConditions(g, o.pod);
    SetsEntry(Online(o), g, s.conditions, 0);
    SetsEntry(Online(o), g, s.conditions, 1);
  }

  /** Once it is cut off: not ready, with the error, and the address as it was. */
  lemma DisconnectedMeans(message: string, g: int, s: Status)
    ensures var r := Mutate(Disconnected(message), g, s);
            && Says(r.conditions, TunnelReady, False, g, ByTunnelDisconnected)
            && Find(r.conditions, TunnelReady).value.message == message
            && Says(r.conditions, Ready, False, g, ByWaitingForTunnel)
            && r == s.(observedGeneration := g, lastError := message, conditions := r.conditions)
  {
    hide MutateConditions, WaitsForReconnect;
    FixedConditions(g, "");
    SetsEntry(Disconnected(message), g, s.conditions, 0);
    SetsEntry(Disconnected(message), g, s.conditions, 1);
  }
}
