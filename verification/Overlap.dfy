/**
 Agents that overlap, as the pods of a Deployment may for a moment: exactly when an attempt that began before an
 address was recorded can still record another one.
 */
module Overlap {
  import opened Wrappers
  import opened Text
  import opened Api
  import opened AgentConfig
  import opened AgentProperties
  import opened PublicAddress
  import opened StableAddress
  import T = TunnelStatus
  import S = StatusStore
  import O = OpenTunnel

  /** The setups that the pods of a run may have. */
  type Setups = Setup -> bool

  predicate Uses(steps: seq<Step>, allowed: Setups) {
    forall i | 0 <= i < |steps| && steps[i].Open? :: allowed(steps[i].setup)
  }

  ghost predicate OnlyReusing(allowed: Setups) {
    forall d | allowed(d) :: Reuses(d.config)
  }

  /** With nothing confirmed, the tunnel may come up under another name than `h`. */
  predicate LeavesOpen(d: Setup, h: string)
    requires TunnelProperties(d.config, "", d.normalize).Ok?
  {
    var p := TunnelProperties(d.config, "", d.normalize).value;
    if d.connection.stableDomainEngine != "" then
      match d.generate(p, d.connection.stableDomainEngine)
      case Err(_) => false
      case Ok(None) => true
      case Ok(Some(name)) => name != h
    else d.generate(p, d.connection.engine).Ok?
  }

  /** A pod with setup `d` that holds `confirmed` may open a tunnel under another name than `h`. */
  predicate CanOpenOther(d: Setup, confirmed: string, h: string) {
    && TunnelProperties(d.config, confirmed, d.normalize).Ok?
    && if confirmed != "" then confirmed != h else LeavesOpen(d, h)
  }

  ghost predicate SomeOpensOther(allowed: Setups, confirmed: string, h: string) {
    exists d :: allowed(d) && CanOpenOther(d, confirmed, h)
  }

  /** An attempt that can still lead to a recorded hostname other than `h`. */
  ghost predicate CanStray(allowed: Setups, phase: Phase, h: string) {
    match phase
    case Connecting => false
    case Holding(confirmed) => SomeOpensOther(allowed, confirmed, h)
    case Opened(r) =>
      r.hostname != h || (ConfirmedHostname(r.PublicAddress()) != h && SomeOpensOther(allowed, "", h))
  }

  /** One way the engine may serve an attempt. */
  predicate Opens(d: Setup, confirmed: string, engine: O.Engine, report: T.OnlineReport, shown: Presentation) {
    var session := SessionOf(d, confirmed, engine);
    session.tunnel.Some? && session.requests != []
    && Echoes(session.requests[|session.requests| - 1].hostname, report, shown)
  }

  // ---- One session ----

  /** A serving domain that puts the spliced name apart from `h`, as an engine might allocate it. */
  function Allocating(h: string): O.Engine {
    k => O.Created(Some(".t." + (h + "x")), true, true)
  }

  function ReportFor(hostname: string): T.OnlineReport {
    T.OnlineReport("id", hostname, BARE.Show(hostname), "", "", "")
  }

  const BARE := Presentation("", "", "")

  lemma ReportEchoes(asked: Option<string>, hostname: string)
    requires asked.Some? ==> asked.value == hostname
    ensures Echoes(asked, ReportFor(hostname), BARE)
  {
  }

  /** The name under which a tunnel can come up, for a pod that can open another one than `h`. */
  lemma OpensAnother(d: Setup, confirmed: string, h: string) returns (engine: O.Engine, report: T.OnlineReport)
    requires Reuses(d.config) && CanOpenOther(d, confirmed, h)
    ensures Opens(d, confirmed, engine, report, BARE) && report.hostname != h
  {
    hide Reuses, TunnelProperties, Echoes;
    engine := Allocating(h);
    if confirmed != "" {
      ConfirmedIsAsked(d, confirmed, engine);
      report := ReportFor(confirmed);
      SessionOpens(d, confirmed, engine);
      ReportEchoes(Some(confirmed), confirmed);
    } else {
      var asked := OpenSession(d, h, engine);
      var name := if asked.Some? then asked.value else h + "x";
      report := ReportFor(name);
      ReportEchoes(asked, name);
    }
  }

  lemma SessionOpens(d: Setup, confirmed: string, engine: O.Engine)
    requires Reuses(d.config) && confirmed != "" && TunnelProperties(d.config, confirmed, d.normalize).Ok?
    requires engine(0).Created?
    ensures SessionOf(d, confirmed, engine).tunnel.Some? && SessionOf(d, confirmed, engine).requests != []
  {
    hide TunnelProperties;
    var p := TunnelProperties(d.config, confirmed, d.normalize).value;
    NameOfProperties(d, confirmed);
    O.KnownHostnameIsRequested(p, d.connection, d.generate, engine);
  }

  /** A reusing configuration asks for the confirmed name, or for none. */
  lemma NameOfProperties(d: Setup, confirmed: string)
    requires Reuses(d.config) && TunnelProperties(d.config, confirmed, d.normalize).Ok?
    ensures TunnelProperties(d.config, confirmed, d.normalize).value.hostname == NonEmpty(confirmed)
  {
  }

  /** With nothing confirmed: the session yields a tunnel whose name, if one is asked for at all, is not `h`. */
  lemma OpenSession(d: Setup, h: string, engine: O.Engine) returns (asked: Option<string>)
    requires Reuses(d.config) && CanOpenOther(d, "", h) && engine == Allocating(h)
    ensures var session := SessionOf(d, "", engine);
            && session.tunnel.Some? && session.requests != []
            && asked == session.requests[|session.requests| - 1].hostname
            && asked != Some(h)
  {
    hide TunnelProperties, Reuses, Cut;
    var p := TunnelProperties(d.config, "", d.normalize).value;
    NameOfProperties(d, "");
    var session := SessionOf(d, "", engine);
    AllocatedDomain(h);
    asked := session.requests[|session.requests| - 1].hostname;
    if d.connection.stableDomainEngine == "" && d.generate(p, d.connection.engine).value.Some? {
      assert asked == Some(O.Splice(d.generate(p, d.connection.engine).value.value, h + "x"));
    }
  }

  lemma AllocatedDomain(h: string)
    ensures O.ServingDomain(Allocating(h)(0)) == Some(h + "x")
  {
    CutAbsent("", ".t.");
    CutConcat("", ".t.", h + "x");
    assert "" + ".t." + (h + "x") == ".t." + (h + "x");
  }

  /** A pod that cannot open another name than `h` opens `h`, and under an address that confirms it. */
  lemma OpensOnly(d: Setup, confirmed: string, h: string, engine: O.Engine, report: T.OnlineReport, shown: Presentation)
    requires Reuses(d.config) && PlainHost(h) && !CanOpenOther(d, confirmed, h)
    requires Opens(d, confirmed, engine, report, shown)
    ensures report.hostname == h && ConfirmedHostname(report.PublicAddress()) == h
  {
    hide Reuses, TunnelProperties, ConfirmedHostname;
    AskedIsPinned(d, confirmed, h, engine);
    ConfirmedIffPresented(report.tunnelID, h, h, shown);
  }

  lemma AskedIsPinned(d: Setup, confirmed: string, h: string, engine: O.Engine)
    requires Reuses(d.config) && h != "" && !CanOpenOther(d, confirmed, h)
    ensures var session := SessionOf(d, confirmed, engine);
            session.tunnel.Some? && session.requests != []
            ==> session.requests[|session.requests| - 1].hostname == Some(h)
  {
    hide Reuses, TunnelProperties;
    var p := TunnelProperties(d.config, confirmed, d.normalize);
    if p.Ok? {
      NameOfProperties(d, confirmed);
      if confirmed != "" {
        O.KnownHostnameIsRequested(p.value, d.connection, d.generate, engine);
      }
    }
  }

  // ---- Whole runs ----

  /** No attempt can stray from `h`, and what is stored names `h`. */
  ghost predicate Kept(allowed: Setups, s: State, h: string) {
    && Linked(s)
    && s.system.recorded.hostname == h
    && (ConfirmedHostname(s.system.recorded) != h ==> !SomeOpensOther(allowed, "", h))
    && forall v | v in s.attempts :: !CanStray(allowed, s.attempts[v], h)
  }

  predicate Records(s: State, next: State, h: string) {
    && s.recorded <= next.recorded
    && forall i | |s.recorded| <= i < |next.recorded| :: next.recorded[i].hostname == h
  }

  lemma HoldsConfirmed(allowed: Setups, s: State, h: string)
    requires h != "" && Kept(allowed, s, h)
    ensures !SomeOpensOther(allowed, ConfirmedHostname(s.system.recorded), h)
  {
    hide CanOpenOther, LeavesOpen, TunnelProperties;
    ConfirmedForAnyAddress(s.system.recorded);
    forall d | allowed(d)
      ensures !CanOpenOther(d, h, h)
    {
      NeverOther(d, h);
    }
  }

  lemma NeverOther(d: Setup, h: string)
    requires h != ""
    ensures !CanOpenOther(d, h, h)
  {
  }

  lemma StepKeeps(allowed: Setups, s: State, step: Step, h: string)
    requires OnlyReusing(allowed) && PlainHost(h) && Kept(allowed, s, h) && Enabled(s, step)
    requires step.Open? ==> allowed(step.setup)
    ensures Kept(allowed, Next(s, step), h) && Records(s, Next(s, step), h)
  {
    hide SessionOf, Linked, Reuses, ConfirmedHostname, CanOpenOther, SomeOpensOther, S.Next, S.Inv, S.ServePatch;
    LinkedNext(s, step);
    RecordedNext(s, step);
    HoldsConfirmed(allowed, s, h);
    match step {
      case Open(w, d, engine, report, shown) =>
        OpenKeeps(allowed, s.attempts[w].confirmed, d, engine, report, shown, h);
      case Connected(w) =>
        if Accepts(s, w) {
          ConnectingReadsRecorded(s, w);
        }
      case _ =>
    }
  }

  lemma OpenKeeps(allowed: Setups, confirmed: string, d: Setup, engine: O.Engine, report: T.OnlineReport,
                  shown: Presentation, h: string)
    requires OnlyReusing(allowed) && PlainHost(h) && allowed(d) && !SomeOpensOther(allowed, confirmed, h)
    requires var session := SessionOf(d, confirmed, engine);
             session.tunnel.Some? && session.requests != []
             ==> Echoes(session.requests[|session.requests| - 1].hostname, report, shown)
    ensures SessionOf(d, confirmed, engine).tunnel.Some? ==> !CanStray(allowed, Opened(report), h)
  {
    hide Reuses, CanOpenOther, ConfirmedHostname, Echoes;
    TunnelNeedsRequest(d, confirmed, engine);
    if SessionOf(d, confirmed, engine).tunnel.Some? {
      OpensOnly(d, confirmed, h, engine, report, shown);
    }
  }

  lemma TunnelNeedsRequest(d: Setup, confirmed: string, engine: O.Engine)
    ensures SessionOf(d, confirmed, engine).tunnel.Some? ==> SessionOf(d, confirmed, engine).requests != []
  {
    hide TunnelProperties;
  }

  lemma {:induction false} RunKeeps(allowed: Setups, s: State, steps: seq<Step>, h: string)
    requires OnlyReusing(allowed) && PlainHost(h) && Kept(allowed, s, h)
    requires Uses(steps, allowed) && Run(s, steps).Some?
    ensures Records(s, Run(s, steps).value, h)
    decreases |steps|
  {
    hide Kept, Enabled, Next, OnlyReusing;
    if steps != [] {
      StepKeeps(allowed, s, steps[0], h);
      RunKeeps(allowed, Next(s, steps[0]), steps[1..], h);
    }
  }

  /** Some continuation with such pods records a hostname other than `h`. */
  ghost predicate RecordsAnother(allowed: Setups, s: State, steps: seq<Step>, h: string) {
    Uses(steps, allowed) && Run(s, steps).Some? && !Records(s, Run(s, steps).value, h)
  }

  lemma {:induction false} RunConcat(s: State, a: seq<Step>, b: seq<Step>)
    requires Run(s, a).Some?
    ensures Run(s, a + b) == Run(Run(s, a).value, b)
    decreases |a|
  {
    hide Enabled, Next;
    if a == [] {
      assert a + b == b;
    } else {
      assert a + b == [a[0]] + (a[1..] + b);
      RunCons(s, a[0], a[1..] + b);
      RunConcat(Next(s, a[0]), a[1..], b);
    }
  }

  /** An attempt that holds a name, and a tunnel that comes up for it: its report can be recorded. */
  lemma HoldingAttemptRecords(s: State, w: S.Writer, d: Setup, engine: O.Engine, report: T.OnlineReport,
                              shown: Presentation)
    requires Linked(s) && w in s.attempts && s.attempts[w].Holding?
    requires Opens(d, s.attempts[w].confirmed, engine, report, shown)
    ensures var steps := [Open(w, d, engine, report, shown)] + [ReportGet(w), ReportPatch(w)];
            && Run(s, steps).Some? && Run(s, steps).value.recorded == s.recorded + [report]
            && Run(s, steps).value.attempts == s.attempts - {w} && Linked(Run(s, steps).value)
            && Run(s, steps).value.system.store.status.PublicAddress() == report.PublicAddress()
  {
    hide SessionOf, Linked, Echoes;
    var open := Open(w, d, engine, report, shown);
    LinkedNext(s, open);
    OpenedAttemptRecords(Next(s, open), w);
    RunCons(s, open, [ReportGet(w), ReportPatch(w)]);
  }

  lemma AnotherIsRecorded(s: State, next: State, report: T.OnlineReport, h: string)
    requires next.recorded == s.recorded + [report] && report.hostname != h
    ensures !Records(s, next, h)
  {
    assert next.recorded[|s.recorded|] == report;
  }

  lemma HoldingStrays(allowed: Setups, s: State, v: S.Writer, h: string) returns (steps: seq<Step>)
    requires OnlyReusing(allowed) && Linked(s) && v in s.attempts && s.attempts[v].Holding?
    requires CanStray(allowed, s.attempts[v], h)
    ensures RecordsAnother(allowed, s, steps, h)
  {
    hide CanOpenOther, Linked, RecordsAnother;
    var d :| allowed(d) && CanOpenOther(d, s.attempts[v].confirmed, h);
    steps := HoldingStraysWith(allowed, s, v, d, h);
  }

  lemma HoldingStraysWith(allowed: Setups, s: State, v: S.Writer, d: Setup, h: string) returns (steps: seq<Step>)
    requires allowed(d) && Reuses(d.config) && Linked(s) && v in s.attempts && s.attempts[v].Holding?
    requires CanOpenOther(d, s.attempts[v].confirmed, h)
    ensures RecordsAnother(allowed, s, steps, h)
  {
    hide CanOpenOther, Opens, Linked, Enabled, Next, Records, Reuses, Run;
    var engine, report := OpensAnother(d, s.attempts[v].confirmed, h);
    steps := [Open(v, d, engine, report, BARE)] + [ReportGet(v), ReportPatch(v)];
    HoldingAttemptRecords(s, v, d, engine, report, BARE);
    AnotherIsRecorded(s, Run(s, steps).value, report, h);
  }

  /** An attempt that records `h` under an address that does not confirm it makes room for a later one. */
  lemma UnconfirmingStrays(allowed: Setups, s: State, v: S.Writer, h: string) returns (steps: seq<Step>)
    requires OnlyReusing(allowed) && Linked(s) && v in s.attempts && s.attempts[v].Opened? && h != ""
    requires s.attempts[v].report.hostname == h && CanStray(allowed, s.attempts[v], h)
    ensures RecordsAnother(allowed, s, steps, h)
  {
    hide CanOpenOther, Linked, RecordsAnother, ConfirmedHostname;
    ConfirmedForAnyAddress(s.attempts[v].report.PublicAddress());
    var d :| allowed(d) && CanOpenOther(d, "", h);
    var engine, report := OpensAnother(d, "", h);
    steps := OpensAfterwards(allowed, s, v, d, engine, report, h);
  }

  lemma OpensAfterwards(allowed: Setups, s: State, v: S.Writer, d: Setup, engine: O.Engine, report: T.OnlineReport,
                        h: string)
    returns (steps: seq<Step>)
    requires Linked(s) && v in s.attempts && s.attempts[v].Opened? && allowed(d)
    requires ConfirmedHostname(s.attempts[v].report.PublicAddress()) == ""
    requires Opens(d, "", engine, report, BARE) && report.hostname != h
    ensures RecordsAnother(allowed, s, steps, h)
  {
    hide Linked, Enabled, Next, Records, ConfirmedHostname, SessionOf, Echoes, Run, Undisturbed;
    var first, later := [ReportGet(v), ReportPatch(v)], Undisturbed(v, d, engine, report, BARE);
    OpenedAttemptRecords(s, v);
    var middle := Run(s, first).value;
    UndisturbedAttemptRecords(d, middle, v, engine, report, BARE);
    RunConcat(s, first, later);
    steps := first + later;
    assert Run(s, steps).value.recorded == s.recorded + [s.attempts[v].report, report];
    LaterIsRecorded(s, Run(s, steps).value, s.attempts[v].report, report, h);
    UndisturbedUses(allowed, v, d, engine, report);
  }

  lemma UndisturbedUses(allowed: Setups, v: S.Writer, d: Setup, engine: O.Engine, report: T.OnlineReport)
    requires allowed(d)
    ensures Uses([ReportGet(v), ReportPatch(v)] + Undisturbed(v, d, engine, report, BARE), allowed)
  {
  }

  lemma LaterIsRecorded(s: State, next: State, r: T.OnlineReport, report: T.OnlineReport, h: string)
    requires next.recorded == s.recorded + [r, report] && report.hostname != h
    ensures !Records(s, next, h)
  {
    assert next.recorded[|s.recorded| + 1] == report;
  }

  lemma OpenedStrays(allowed: Setups, s: State, v: S.Writer, h: string) returns (steps: seq<Step>)
    requires OnlyReusing(allowed) && Linked(s) && v in s.attempts && s.attempts[v].Opened? && h != ""
    requires CanStray(allowed, s.attempts[v], h)
    ensures RecordsAnother(allowed, s, steps, h)
  {
    if s.attempts[v].report.hostname != h {
      hide Linked, Enabled, Next, Records, CanStray;
      steps := [ReportGet(v), ReportPatch(v)];
      OpenedAttemptRecords(s, v);
      AnotherIsRecorded(s, Run(s, steps).value, s.attempts[v].report, h);
    } else {
      steps := UnconfirmingStrays(allowed, s, v, h);
    }
  }

  /**
   With overlapping agents: after `h` has been recorded and is confirmed, some continuation records another hostname
   exactly when some attempt under way can stray. It can if it has a tunnel open under another name, if it holds
   another confirmed name and its pod's configuration is accepted, or if it holds none and a pod's configuration and
   generator leave the name open.
   */
  lemma OverlapIff(allowed: Setups, s: State, h: string)
    requires OnlyReusing(allowed) && Linked(s) && PlainHost(h) && ConfirmedHostname(s.system.recorded) == h
    ensures (exists steps :: RecordsAnother(allowed, s, steps, h))
            <==> exists v :: v in s.attempts && CanStray(allowed, s.attempts[v], h)
  {
    hide CanStray, Linked, RecordsAnother;
    if v :| v in s.attempts && CanStray(allowed, s.attempts[v], h) {
      StrayRecordsAnother(allowed, s, v, h);
    } else {
      forall steps
        ensures !RecordsAnother(allowed, s, steps, h)
      {
        KeptRecordsNoOther(allowed, s, steps, h);
      }
    }
  }

  /** Right after a report is accepted that confirms its own hostname: the attempts that matter are the other ones. */
  lemma AfterReportIff(allowed: Setups, s: State, w: S.Writer)
    requires OnlyReusing(allowed) && Linked(s) && Enabled(s, ReportPatch(w)) && Accepts(s, w)
    requires var r := s.attempts[w].report;
             PlainHost(r.hostname) && ConfirmedHostname(r.PublicAddress()) == r.hostname
    ensures var h, next := s.attempts[w].report.hostname, Next(s, ReportPatch(w));
            (exists steps :: RecordsAnother(allowed, next, steps, h))
            <==> exists v :: v in s.attempts && v != w && CanStray(allowed, s.attempts[v], h)
  {
    hide CanStray, Linked, RecordsAnother, ConfirmedHostname, PlainHost, Accepts, S.Next;
    var h, next := s.attempts[w].report.hostname, Next(s, ReportPatch(w));
    LinkedNext(s, ReportPatch(w));
    RecordedNext(s, ReportPatch(w));
    OverlapIff(allowed, next, h);
    assert next.attempts == s.attempts - {w};
    if v :| v in next.attempts && CanStray(allowed, next.attempts[v], h) {
      assert v in s.attempts && v != w && s.attempts[v] == next.attempts[v];
    }
    if v :| v in s.attempts && v != w && CanStray(allowed, s.attempts[v], h) {
      assert v in next.attempts && s.attempts[v] == next.attempts[v];
    }
  }

  lemma StrayRecordsAnother(allowed: Setups, s: State, v: S.Writer, h: string)
    requires OnlyReusing(allowed) && Linked(s) && h != "" && v in s.attempts && CanStray(allowed, s.attempts[v], h)
    ensures exists steps :: RecordsAnother(allowed, s, steps, h)
  {
    var steps;
    if s.attempts[v].Holding? {
      steps := HoldingStrays(allowed, s, v, h);
    } else {
      steps := OpenedStrays(allowed, s, v, h);
    }
  }

  lemma KeptRecordsNoOther(allowed: Setups, s: State, steps: seq<Step>, h: string)
    requires OnlyReusing(allowed) && Linked(s) && PlainHost(h) && ConfirmedHostname(s.system.recorded) == h
    requires forall v | v in s.attempts :: !CanStray(allowed, s.attempts[v], h)
    ensures !RecordsAnother(allowed, s, steps, h)
  {
    hide CanStray, Linked, Records;
    ConfirmedForAnyAddress(s.system.recorded);
    if Uses(steps, allowed) && Run(s, steps).Some? {
      RunKeeps(allowed, s, steps, h);
    }
  }

  // ---- A run in which it happens ----

  /** A pod of tunnel `t` whose SDK knows no name to ask for. */
  function Unnamed(t: Tunnel, connection: ConnectionConfig, normalize: Normalizer): Setup {
    Setup(BuildTunnelConfig(t, RequestedHostname(t.spec)), connection, (p, engine) => Ok(None), normalize)
  }

  /** An engine that serves whatever is asked for. */
  const SERVING: O.Engine := k => O.Created(None, true, true)

  lemma UnnamedOpens(t: Tunnel, connection: ConnectionConfig, normalize: Normalizer, report: T.OnlineReport)
    requires CrdRules(t.spec) && ValidateTunnelSpec(t.spec).None? && AgentRefusal(t.spec, normalize).None?
    requires Reuses(BuildTunnelConfig(t, RequestedHostname(t.spec)))
    ensures Opens(Unnamed(t, connection, normalize), "", SERVING, report, BARE)
  {
    hide Reuses, TunnelProperties, BuildTunnelConfig;
    var d := Unnamed(t, connection, normalize);
    AcceptedSpecAtAgent(t, "", normalize);
    NameOfProperties(d, "");
  }

  /** Two agents read the status before anything is confirmed; then both open a tunnel and record it. */
  function OverlapSteps(v: S.Writer, w: S.Writer, d: Setup, first: T.OnlineReport, second: T.OnlineReport): seq<Step> {
    [Start(v), Connected(v), Start(w), Connected(w)]
    + ([Open(v, d, SERVING, first, BARE)] + [ReportGet(v), ReportPatch(v)]
       + ([Open(w, d, SERVING, second, BARE)] + [ReportGet(w), ReportPatch(w)]))
  }

  lemma BothHold(s: State, v: S.Writer, w: S.Writer)
    requires Linked(s) && s.attempts == map[] && v != w && ConfirmedHostname(s.system.recorded) == ""
    ensures var after := Run(s, [Start(v), Connected(v), Start(w), Connected(w)]);
            && after.Some? && Linked(after.value) && after.value.recorded == s.recorded
            && after.value.attempts == map[v := Holding(""), w := Holding("")]
  {
    hide Enabled, Next, Linked, ConfirmedHostname;
    StoredIsRecorded(s);
    ConnectingHolds(s, v);
    var s1 := Next(s, Start(v));
    var s2 := Next(s1, Connected(v));
    StoredIsRecorded(s2);
    ConnectingHolds(s2, w);
    var s3 := Next(s2, Start(w));
    assert [Start(v), Connected(v), Start(w), Connected(w)]
        == [Start(v)] + ([Connected(v)] + ([Start(w)] + ([Connected(w)] + [])));
    RunCons(s, Start(v), [Connected(v)] + ([Start(w)] + ([Connected(w)] + [])));
    RunCons(s1, Connected(v), [Start(w)] + ([Connected(w)] + []));
    RunCons(s2, Start(w), [Connected(w)] + []);
    RunCons(s3, Connected(w), []);
  }

  /** For every accepted spec that leaves the hostname to the engine: the second agent replaces the first one's name. */
  lemma OverlappingAgentsDisagree(t: Tunnel, connection: ConnectionConfig, normalize: Normalizer, s: State,
                                  v: S.Writer, w: S.Writer, h: string, other: string)
    requires CrdRules(t.spec) && ValidateTunnelSpec(t.spec).None? && AgentRefusal(t.spec, normalize).None?
    requires RequestedHostname(t.spec) == "" && Published(t.spec) && EffectiveProtocol(t.spec) != TCP
    requires Linked(s) && s.attempts == map[] && v != w && ConfirmedHostname(s.system.recorded) == ""
    requires PlainHost(h) && other != h
    ensures var d := Unnamed(t, connection, normalize);
            var after := Run(s, OverlapSteps(v, w, d, ReportFor(h), ReportFor(other)));
            && Reuses(d.config)
            && ConfirmedHostname(ReportFor(h).PublicAddress()) == h
            && after.Some?
            && after.value.recorded == s.recorded + [ReportFor(h), ReportFor(other)]
            && after.value.system.store.status.hostname == other
  {
    hide Linked, Enabled, Next, ConfirmedHostname, Reuses, Opens, Run, BuildTunnelConfig, PlainHost;
    var d := Unnamed(t, connection, normalize);
    SpecReuses(t);
    UnnamedOpens(t, connection, normalize, ReportFor(h));
    UnnamedOpens(t, connection, normalize, ReportFor(other));
    ReportConfirms(h);
    BothHold(s, v, w);
    var start := [Start(v), Connected(v), Start(w), Connected(w)];
    var one := [Open(v, d, SERVING, ReportFor(h), BARE)] + [ReportGet(v), ReportPatch(v)];
    var two := [Open(w, d, SERVING, ReportFor(other), BARE)] + [ReportGet(w), ReportPatch(w)];
    var held := Run(s, start).value;
    HoldingAttemptRecords(held, v, d, SERVING, ReportFor(h), BARE);
    var settled := Run(held, one).value;
    HoldingAttemptRecords(settled, w, d, SERVING, ReportFor(other), BARE);
    RunConcat(held, one, two);
    RunConcat(s, start, one + two);
  }

  lemma ReportConfirms(h: string)
    requires PlainHost(h)
    ensures ConfirmedHostname(ReportFor(h).PublicAddress()) == h
  {
    hide ConfirmedHostname;
    ConfirmedIffPresented("id", h, h, BARE);
  }
}
