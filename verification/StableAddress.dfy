/**
 The feedback loop behind "reuse the confirmed address": Connecting reads the stored address, the hostname it
 confirms goes into the tunnel properties, the tunnel is opened under it, and Online stores what the engine
 returned. Agents may fail or restart at any step, and the manager patches the same status all the time.
 */
module StableAddress {
  import opened Wrappers
  import opened Api
  import opened AgentConfig
  import opened AgentProperties
  import opened PublicAddress
  import T = TunnelStatus
  import S = StatusStore
  import O = OpenTunnel

  /** What one attempt works with: the configuration of its pod, the SDK's generator and its CORS rules. */
  datatype Setup = Setup(
    config: TunnelConfig, connection: ConnectionConfig, generate: O.Generator, normalize: Normalizer)

  /** How far an attempt has come: status read, hostname confirmed, or tunnel open and not yet recorded. */
  datatype Phase = Connecting | Holding(confirmed: string) | Opened(report: T.OnlineReport)

  /** `asked` and `recorded` are histories: every requested hostname and every recorded report. */
  datatype State = State(
    system: S.System, attempts: map<S.Writer, Phase>, asked: seq<Option<string>>, recorded: seq<T.OnlineReport>)

  datatype Step =
    | World(step: S.Step)
    | Start(agent: S.Writer)
    | Connected(agent: S.Writer)
    | Open(agent: S.Writer, setup: Setup, engine: O.Engine, report: T.OnlineReport, shown: Presentation)
    | ReportGet(agent: S.Writer)
    | ReportPatch(agent: S.Writer)
    | Fail(agent: S.Writer)

  function Hostnames(requests: seq<Properties>): seq<Option<string>> {
    if requests == [] then [] else [requests[0].hostname] + Hostnames(requests[1..])
  }

  /** The engine serves a requested hostname under that very name, with an id, and presents it in the address. */
  predicate Echoes(asked: Option<string>, r: T.OnlineReport, shown: Presentation) {
    asked.Some? ==>
      && r.hostname == asked.value
      && r.tunnelID != ""
      && shown.Valid()
      && r.forwardingAddress == shown.Show(asked.value)
  }

  function SessionOf(d: Setup, confirmed: string, engine: O.Engine): O.Session {
    match TunnelProperties(d.config, confirmed, d.normalize)
    case Err(_) => O.NOTHING
    case Ok(p) => O.Plan(p, d.connection, d.generate, engine)
  }

  predicate Enabled(s: State, step: Step) {
    match step
    case World(Get(w, m)) => w !in s.attempts && !m.Online?
    case World(Patch(w)) => w !in s.attempts
    case World(Crash(w)) => w !in s.attempts
    case World(_) => true
    case Start(w) => w !in s.attempts
    case Connected(w) => w in s.attempts && s.attempts[w].Connecting?
    case Open(w, d, engine, report, shown) =>
      && w in s.attempts && s.attempts[w].Holding?
      && var session := SessionOf(d, s.attempts[w].confirmed, engine);
         session.tunnel.Some? && session.requests != [] ==>
           Echoes(session.requests[|session.requests| - 1].hostname, report, shown)
    case ReportGet(w) => w in s.attempts && s.attempts[w].Opened?
    case ReportPatch(w) => w in s.attempts && s.attempts[w].Opened? && w in s.system.pending
    case Fail(w) => w in s.attempts
  }

  predicate Accepts(s: State, w: S.Writer) {
    w in s.system.pending && S.ServePatch(s.system.store, s.system.pending[w]).Some?
  }

  /** What the writer has read. */
  function Snapshot(s: State, w: S.Writer): S.Store
    requires w in s.system.pending
  {
    s.system.pending[w].snapshot
  }

  function Next(s: State, step: Step): State
    requires Enabled(s, step)
  {
    match step
    case World(inner) => s.(system := S.Next(s.system, inner))
    case Start(w) =>
      s.(system := S.Next(s.system, S.Get(w, T.Connecting)), attempts := s.attempts[w := Connecting])
    case Connected(w) =>
      s.(system := S.Next(s.system, S.Patch(w)),
         attempts := if Accepts(s, w)
                     then s.attempts[w := Holding(ConfirmedHostname(Snapshot(s, w).status.PublicAddress()))]
                     else s.attempts - {w})
    case Open(w, d, engine, report, _) =>
      var session := SessionOf(d, s.attempts[w].confirmed, engine);
      s.(attempts := if session.tunnel.Some? then s.attempts[w := Opened(report)] else s.attempts - {w},
         asked := s.asked + Hostnames(session.requests))
    case ReportGet(w) =>
      s.(system := S.Next(s.system, S.Get(w, T.Online(s.attempts[w].report))))
    case ReportPatch(w) =>
      var system := S.Next(s.system, S.Patch(w));
      if Accepts(s, w)
      then s.(system := system, attempts := s.attempts - {w}, recorded := s.recorded + [s.attempts[w].report])
      else s.(system := system)
    case Fail(w) =>
      s.(system := S.Next(s.system, S.Crash(w)), attempts := s.attempts - {w})
  }

  /** What the status writes in flight have to do with the attempts. */
  predicate Linked(s: State) {
    && S.Inv(s.system)
    && (forall w | w in s.attempts && s.attempts[w].Connecting? ::
          w in s.system.pending && s.system.pending[w].mutation.Connecting?)
    && (forall w | w in s.system.pending && s.system.pending[w].mutation.Online? ::
          w in s.attempts && s.attempts[w] == Opened(s.system.pending[w].mutation.report))
    && (forall w | w in s.attempts && w in s.system.pending && s.attempts[w].Opened? ::
          s.system.pending[w].mutation == T.Online(s.attempts[w].report))
    && (forall w | w in s.attempts && s.attempts[w].Holding? :: w !in s.system.pending)
  }

  /** A sound object that no agent has looked at yet. */
  predicate Initial(s: State) {
    S.Initial(s.system) && s.attempts == map[] && s.asked == [] && s.recorded == []
  }

  lemma InitialLinked(s: State)
    requires Initial(s)
    ensures Linked(s)
  {
  }

  lemma LinkedNext(s: State, step: Step)
    requires Linked(s) && Enabled(s, step)
    ensures Linked(Next(s, step))
  {
    hide SessionOf, ConfirmedHostname, S.Next, S.Inv, S.ServePatch;
    if step.World? {
      S.NextEffect(s.system, step.step);
    } else if step.Open? {
    } else {
      S.NextEffect(s.system, Write(s, step));
    }
  }

  /** The status write that an agent's step consists of. */
  function Write(s: State, step: Step): S.Step
    requires !step.World? && !step.Open?
    requires step.ReportGet? ==> step.agent in s.attempts && s.attempts[step.agent].Opened?
  {
    match step
    case Start(w) => S.Get(w, T.Connecting)
    case Connected(w) => S.Patch(w)
    case ReportGet(w) => S.Get(w, T.Online(s.attempts[w].report))
    case ReportPatch(w) => S.Patch(w)
    case Fail(w) => S.Crash(w)
  }

  /** Only an accepted report of an attempt changes the recorded address. */
  lemma RecordedNext(s: State, step: Step)
    requires Linked(s) && Enabled(s, step)
    ensures Next(s, step).system.recorded ==
              if step.ReportPatch? && Accepts(s, step.agent) then s.attempts[step.agent].report.PublicAddress()
              else s.system.recorded
  {
    hide SessionOf, ConfirmedHostname, S.Next, S.Inv, S.ServePatch;
    if step.World? {
      S.NextEffect(s.system, step.step);
    } else if step.Open? {
    } else {
      S.NextEffect(s.system, Write(s, step));
    }
  }

  /** An accepted Connecting patch has read the address that is stored. */
  lemma ConnectingReadsRecorded(s: State, w: S.Writer)
    requires Linked(s) && w in s.attempts && s.attempts[w].Connecting? && Accepts(s, w)
    ensures s.system.pending[w].snapshot.status.PublicAddress() == s.system.recorded
  {
    S.LockedPatchIsExact(s.system.store, s.system.pending[w]);
  }

  /** A configuration that lets the engine choose the hostname: published, not TCP, none requested. */
  predicate Reuses(c: TunnelConfig) {
    var r := ReadConfig(c);
    r.hostname == "" && c.publish != Some(false) && r.protocol != Good(TCP)
  }

  /** Every pod that opens a tunnel has such a configuration; it may be another one each time. */
  predicate AllReuse(steps: seq<Step>) {
    forall i | 0 <= i < |steps| && steps[i].Open? :: Reuses(steps[i].setup.config)
  }

  /** The attempt is bound to hostname `h`, or has not read the status yet. */
  predicate Bound(phase: Phase, h: string) {
    match phase
    case Connecting => true
    case Holding(confirmed) => confirmed == h
    case Opened(r) => r.hostname == h && ConfirmedHostname(r.PublicAddress()) == h
  }

  /** The stored address confirms `h`, and so does every attempt under way. */
  predicate Settled(s: State, h: string) {
    && Linked(s)
    && PlainHost(h)
    && ConfirmedHostname(s.system.recorded) == h
    && forall w | w in s.attempts :: Bound(s.attempts[w], h)
  }

  /** A confirmed hostname is asked for in every request of the session. */
  lemma ConfirmedIsAsked(d: Setup, h: string, engine: O.Engine)
    requires Reuses(d.config) && h != ""
    ensures forall a | a in Hostnames(SessionOf(d, h, engine).requests) :: a == Some(h)
    ensures |SessionOf(d, h, engine).requests| <= 1
    ensures SessionOf(d, h, engine).tunnel.Some? ==>
              |SessionOf(d, h, engine).requests| == 1 && SessionOf(d, h, engine).requests[0].hostname == Some(h)
  {
    var judged := TunnelProperties(d.config, h, d.normalize);
    if judged.Ok? {
      assert judged.value.hostname == Some(h);
      O.KnownHostnameIsRequested(judged.value, d.connection, d.generate, engine);
      var requests := SessionOf(d, h, engine).requests;
      assert requests[1..] == [];
    }
  }

  /** What a step adds to the histories once hostname `h` is settled: only `h`. */
  predicate Extends(s: State, next: State, h: string) {
    && s.asked <= next.asked && (forall i | |s.asked| <= i < |next.asked| :: next.asked[i] == Some(h))
    && s.recorded <= next.recorded
    && (forall i | |s.recorded| <= i < |next.recorded| :: next.recorded[i].hostname == h)
  }

  lemma StepKeepsSettled(s: State, step: Step, h: string)
    requires (step.Open? ==> Reuses(step.setup.config)) && Settled(s, h) && Enabled(s, step)
    ensures Settled(Next(s, step), h)
    ensures Extends(s, Next(s, step), h)
  {
    hide SessionOf, Linked, Reuses, ConfirmedHostname, S.Next, S.Inv, S.ServePatch;
    LinkedNext(s, step);
    RecordedNext(s, step);
    match step {
      case Open(w, d, engine, report, shown) =>
        ConfirmedIsAsked(d, h, engine);
        var session := SessionOf(d, h, engine);
        var more := Hostnames(session.requests);
        assert forall i | 0 <= i < |more| :: more[i] in more;
        if session.tunnel.Some? {
          ConfirmedIffPresented(report.tunnelID, h, h, shown);
        }
      case Connected(w) =>
        if Accepts(s, w) {
          ConnectingReadsRecorded(s, w);
        }
      case _ =>
    }
  }

  lemma ExtendsTransitive(a: State, b: State, c: State, h: string)
    requires Extends(a, b, h) && Extends(b, c, h)
    ensures Extends(a, c, h)
  {
  }

  lemma SettledStores(s: State, h: string)
    requires Settled(s, h)
    ensures s.system.store.status.hostname == h && Extends(s, s, h)
  {
    assert s.system.recorded == s.system.store.status.PublicAddress();
  }

  function Run(s: State, steps: seq<Step>): Option<State>
    decreases |steps|
  {
    if steps == [] then Some(s)
    else if !Enabled(s, steps[0]) then None
    else Run(Next(s, steps[0]), steps[1..])
  }

  /**
   Stable address over whole runs: once `h` is settled, every later request asks for `h` and every later report
   records `h`, over any failures, restarts, retries, changes of the configuration and patches of the manager.
   */
  lemma {:induction false} AddressIsStable(s: State, steps: seq<Step>, h: string)
    requires AllReuse(steps) && Settled(s, h) && Run(s, steps).Some?
    ensures Settled(Run(s, steps).value, h)
    ensures Extends(s, Run(s, steps).value, h)
    ensures Run(s, steps).value.system.store.status.hostname == h
    decreases |steps|
  {
    hide Reuses, Settled, Extends, Enabled, Next;
    if steps == [] {
      SettledStores(s, h);
    } else {
      var next := Next(s, steps[0]);
      StepKeepsSettled(s, steps[0], h);
      AddressIsStable(next, steps[1..], h);
      ExtendsTransitive(s, next, Run(s, steps).value, h);
    }
  }

  /** An accepted Online report settles its hostname, provided every other attempt under way is bound to it. */
  lemma ReportSettles(s: State, w: S.Writer)
    requires Linked(s) && Enabled(s, ReportPatch(w)) && Accepts(s, w)
    requires var r := s.attempts[w].report;
             && PlainHost(r.hostname)
             && ConfirmedHostname(r.PublicAddress()) == r.hostname
             && forall v | v in s.attempts && v != w :: Bound(s.attempts[v], r.hostname)
    ensures Settled(Next(s, ReportPatch(w)), s.attempts[w].report.hostname)
  {
    LinkedNext(s, ReportPatch(w));
  }

  /** The steps of one attempt that nothing interferes with. */
  function Undisturbed(w: S.Writer, d: Setup, engine: O.Engine, report: T.OnlineReport,
                       shown: Presentation): seq<Step> {
    [Start(w)] + ([Connected(w)] + ([Open(w, d, engine, report, shown)] + ([ReportGet(w)] + [ReportPatch(w)])))
  }

  lemma RunCons(s: State, step: Step, rest: seq<Step>)
    ensures Run(s, [step] + rest) == if Enabled(s, step) then Run(Next(s, step), rest) else None
  {
    assert ([step] + rest)[1..] == rest;
  }

  /** A write computed from the object as it is gets through. */
  lemma UnchangedAccepts(s: State, w: S.Writer)
    requires w in s.system.pending && s.system.pending[w].snapshot == s.system.store
    ensures Accepts(s, w)
  {
  }

  lemma StartBegins(s: State, w: S.Writer)
    requires w !in s.attempts
    ensures Enabled(s, Start(w))
    ensures var next := Next(s, Start(w));
            && next.attempts == s.attempts[w := Connecting] && next.asked == s.asked && next.recorded == s.recorded
            && w in next.system.pending && next.system.pending[w].snapshot == s.system.store == next.system.store
  {
  }

  /** The first two steps: the status is read and patched, and the attempt holds the hostname it confirms. */
  lemma ConnectingHolds(s: State, w: S.Writer)
    requires Linked(s) && w !in s.attempts
    ensures Enabled(s, Start(w)) && Enabled(Next(s, Start(w)), Connected(w))
    ensures var next := Next(Next(s, Start(w)), Connected(w));
            && next.attempts == s.attempts[w := Holding(ConfirmedHostname(s.system.store.status.PublicAddress()))]
            && next.asked == s.asked && next.recorded == s.recorded && Linked(next)
            && next.system.recorded == s.system.recorded
  {
    hide SessionOf, ConfirmedHostname, Linked, Accepts, S.Next;
    var s1 := Next(s, Start(w));
    LinkedNext(s, Start(w));
    RecordedNext(s, Start(w));
    StartBegins(s, w);
    UnchangedAccepts(s1, w);
    LinkedNext(s1, Connected(w));
    RecordedNext(s1, Connected(w));
  }

  lemma StoredIsRecorded(s: State)
    requires Linked(s)
    ensures s.system.store.status.PublicAddress() == s.system.recorded
  {
  }

  /** The last two: the report is computed from the object as it is, so it is accepted. */
  lemma ReportLands(s: State, w: S.Writer)
    requires Linked(s) && w in s.attempts && s.attempts[w].Opened?
    ensures Enabled(s, ReportGet(w)) && Enabled(Next(s, ReportGet(w)), ReportPatch(w))
    ensures var next := Next(Next(s, ReportGet(w)), ReportPatch(w));
            && next.recorded == s.recorded + [s.attempts[w].report] && next.asked == s.asked
            && next.attempts == s.attempts - {w} && Linked(next)
            && next.system.store.status.PublicAddress() == s.attempts[w].report.PublicAddress()
  {
    hide SessionOf, ConfirmedHostname, Linked, Accepts;
    var s1 := Next(s, ReportGet(w));
    LinkedNext(s, ReportGet(w));
    UnchangedAccepts(s1, w);
    LinkedNext(s1, ReportPatch(w));
    RecordedNext(s1, ReportPatch(w));
    StoredIsRecorded(Next(s1, ReportPatch(w)));
  }

  /**
   From any reachable state, an attempt whose session yields a tunnel asks as planned and gets its report recorded.
   */
  lemma UndisturbedAttemptRecords(d: Setup, s: State, w: S.Writer, engine: O.Engine, report: T.OnlineReport,
                                  shown: Presentation)
    requires Linked(s) && w !in s.attempts
    requires var session := SessionOf(d, ConfirmedHostname(s.system.store.status.PublicAddress()), engine);
             && session.tunnel.Some? && session.requests != []
             && Echoes(session.requests[|session.requests| - 1].hostname, report, shown)
    ensures var session := SessionOf(d, ConfirmedHostname(s.system.store.status.PublicAddress()), engine);
            var after := Run(s, Undisturbed(w, d, engine, report, shown));
            && after.Some?
            && after.value.recorded == s.recorded + [report]
            && after.value.asked == s.asked + Hostnames(session.requests)
            && after.value.attempts == s.attempts
            && after.value.system.store.status.PublicAddress() == report.PublicAddress()
  {
    hide SessionOf, Linked, Echoes, ConfirmedHostname, S.Next, S.ServePatch;
    var open := Open(w, d, engine, report, shown);
    var s1 := Next(s, Start(w));
    ConnectingHolds(s, w);
    var s2 := Next(s1, Connected(w));
    var s3 := Next(s2, open);
    LinkedNext(s2, open);
    ReportLands(s3, w);
    var s4 := Next(s3, ReportGet(w));
    RunCons(s, Start(w), [Connected(w)] + ([open] + ([ReportGet(w)] + [ReportPatch(w)])));
    RunCons(s1, Connected(w), [open] + ([ReportGet(w)] + [ReportPatch(w)]));
    RunCons(s2, open, [ReportGet(w)] + [ReportPatch(w)]);
    RunCons(s3, ReportGet(w), [ReportPatch(w)]);
    assert [ReportPatch(w)] + [] == [ReportPatch(w)];
    RunCons(s4, ReportPatch(w), []);
  }

  /** An attempt with a tunnel open can go on to record it, whatever has been recorded meanwhile. */
  lemma OpenedAttemptRecords(s: State, w: S.Writer)
    requires Linked(s) && w in s.attempts && s.attempts[w].Opened?
    ensures var steps := [ReportGet(w), ReportPatch(w)];
            && Run(s, steps).Some?
            && Run(s, steps).value.recorded == s.recorded + [s.attempts[w].report]
            && Run(s, steps).value.attempts == s.attempts - {w} && Linked(Run(s, steps).value)
            && Run(s, steps).value.system.store.status.PublicAddress() == s.attempts[w].report.PublicAddress()
  {
    ReportLands(s, w);
    var s1 := Next(s, ReportGet(w));
    RunCons(s, ReportGet(w), [ReportPatch(w)]);
    assert [ReportPatch(w)] + [] == [ReportPatch(w)];
    RunCons(s1, ReportPatch(w), []);
    assert [ReportGet(w)] + [ReportPatch(w)] == [ReportGet(w), ReportPatch(w)];
  }

  /** One agent at a time, as the Recreate strategy and the single replica have it. */
  predicate Alone(s: State) {
    forall v, w | v in s.attempts && w in s.attempts :: v == w
  }

  predicate StartsAlone(s: State, step: Step) {
    step.Start? ==> s.attempts == map[]
  }

  /** A run of one agent at a time. */
  predicate SoloRun(s: State, steps: seq<Step>)
    decreases |steps|
  {
    steps == [] || (Enabled(s, steps[0]) && StartsAlone(s, steps[0]) && SoloRun(Next(s, steps[0]), steps[1..]))
  }

  lemma {:induction false} SoloRunStaysAlone(s: State, steps: seq<Step>)
    requires Linked(s) && Alone(s) && SoloRun(s, steps)
    ensures Run(s, steps).Some? && Linked(Run(s, steps).value) && Alone(Run(s, steps).value)
    decreases |steps|
  {
    hide SessionOf, Linked;
    if steps != [] {
      LinkedNext(s, steps[0]);
      SoloRunStaysAlone(Next(s, steps[0]), steps[1..]);
    }
  }

  /**
   With one agent at a time the promise is unconditional: whatever happened before, once a report is recorded
   whose address confirms its hostname, that hostname is the only one requested and recorded from then on.
   */
  lemma OneAgentKeepsItsAddress(start: State, before: seq<Step>, w: S.Writer, later: seq<Step>)
    requires AllReuse(later) && Linked(start) && Alone(start) && SoloRun(start, before)
    requires var s := Run(start, before);
             s.Some? && Enabled(s.value, ReportPatch(w)) && Accepts(s.value, w)
             && var r := s.value.attempts[w].report;
                PlainHost(r.hostname) && ConfirmedHostname(r.PublicAddress()) == r.hostname
    requires Run(Next(Run(start, before).value, ReportPatch(w)), later).Some?
    ensures var s := Run(start, before).value;
            var h := s.attempts[w].report.hostname;
            var online := Next(s, ReportPatch(w));
            && Extends(online, Run(online, later).value, h)
            && Run(online, later).value.system.store.status.hostname == h
  {
    SoloRunStaysAlone(start, before);
    var s := Run(start, before).value;
    ReportSettles(s, w);
    AddressIsStable(Next(s, ReportPatch(w)), later, s.attempts[w].report.hostname);
  }

  /** The configuration built from a spec without a hostname reuses the confirmed one, unless private or TCP. */
  lemma SpecReuses(t: Tunnel)
    ensures Reuses(BuildTunnelConfig(t, RequestedHostname(t.spec)))
            <==> RequestedHostname(t.spec) == "" && Published(t.spec) && EffectiveProtocol(t.spec) != TCP
  {
    BuiltConfig(t);
    ConfigReadsBack(t, BuildTunnelConfig(t, RequestedHostname(t.spec)));
  }
}
