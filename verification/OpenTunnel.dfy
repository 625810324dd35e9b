/** `openTunnel`: asking the engine for a tunnel under a stable name, with one tunnel open at a time. */
module OpenTunnel {
  import opened Wrappers
  import opened Text
  import opened AgentConfig
  import opened AgentProperties

  /** How the engine answers one CreateTunnel, and how the tunnel it makes behaves. */
  datatype Answer = Refused | Created(hostname: Option<string>, readable: bool, closable: bool)

  /** The engine's answer to each request on a control channel, in order. */
  type Engine = nat -> Answer

  /**
   The SDK's name generator: for properties without a hostname and an engine address, the name to use, if the
   address supports one. A hostname that is set already is left alone.
   */
  type Generator = (Properties, string) -> Result<Option<string>, ()>

  function MaybeSetStableDomain(p: Properties, engine: string, generate: Generator): Result<Properties, ()> {
    if p.hostname.Some? then Ok(p)
    else
      match generate(p, engine)
      case Err(e) => Err(e)
      case Ok(name) => Ok(p.(hostname := name))
  }

  function Splice(generated: string, domain: string): string {
    Cut(generated, ".").before + ".t." + domain
  }

  /** What one call asks for, which request serves the agent, and which tunnels it leaves open. */
  datatype Session = Session(requests: seq<Properties>, tunnel: Option<nat>, open: set<nat>)

  const NOTHING := Session([], None, {})

  /** A single request. */
  function Single(p: Properties, engine: Engine): Session {
    if engine(0).Created? then Session([p], Some(0), {0}) else Session([p], None, {})
  }

  /** What the engine's allocation says about the serving domain, once its tunnel is released. */
  function ServingDomain(a: Answer): Option<string>
    requires a.Created?
  {
    var p := Cut(if a.hostname.Some? then a.hostname.value else "", ".t.");
    if a.readable && a.closable && p.found && p.after != "" then Some(p.after) else None
  }

  function Plan(p: Properties, c: ConnectionConfig, generate: Generator, engine: Engine): Session {
    if c.stableDomainEngine != "" then
      match MaybeSetStableDomain(p, c.stableDomainEngine, generate)
      case Err(_) => NOTHING
      case Ok(named) => Single(named, engine)
    else
      match MaybeSetStableDomain(p, c.engine, generate)
      case Err(_) => NOTHING
      case Ok(candidate) =>
        if p.hostname.Some? || candidate.hostname.None? || engine(0).Refused? then Single(p, engine)
        else
          match ServingDomain(engine(0))
          case None => Session([p], None, if engine(0).closable then {} else {0})
          case Some(domain) =>
            var named := p.(hostname := Some(Splice(candidate.hostname.value, domain)));
            Session([p, named], if engine(1).Created? then Some(1) else None, if engine(1).Created? then {1} else {})
  }

  class ControlChannel {
    const engine: Engine
    var requests: seq<Properties>
    var open: set<nat>
    /** The largest number of tunnels that were ever open at once. */
    ghost var most: nat

    constructor (engine: Engine)
      ensures this.engine == engine && requests == [] && open == {} && most == 0
    {
      this.engine := engine;
      requests, open, most := [], {}, 0;
    }

    method CreateTunnel(p: Properties) returns (tunnel: Option<nat>)
      modifies this
      ensures requests == old(requests) + [p]
      ensures tunnel == if engine(old(|requests|)).Created? then Some(old(|requests|)) else None
      ensures open == old(open) + (if tunnel.Some? then {tunnel.value} else {})
      ensures most == if |open| > old(most) then |open| else old(most)
    {
      var k := |requests|;
      requests := requests + [p];
      tunnel := None;
      if engine(k).Created? {
        open := open + {k};
        tunnel := Some(k);
      }
      most := if |open| > most then |open| else most;
    }

    method Close(tunnel: nat) returns (ok: bool)
      requires engine(tunnel).Created?
      modifies this`open
      ensures ok == engine(tunnel).closable
      ensures open == if ok then old(open) - {tunnel} else old(open)
    {
      ok := engine(tunnel).closable;
      if ok {
        open := open - {tunnel};
      }
    }
  }

  /** On a fresh channel, for every engine: the session is as planned and never holds two tunnels. */
  method Open(ctrl: ControlChannel, p: Properties, c: ConnectionConfig, generate: Generator)
    returns (tunnel: Option<nat>)
    requires ctrl.requests == [] && ctrl.open == {} && ctrl.most == 0
    modifies ctrl
    ensures Session(ctrl.requests, tunnel, ctrl.open) == Plan(p, c, generate, ctrl.engine)
    ensures ctrl.most <= 1
  {
    if c.stableDomainEngine != "" {
      var named := MaybeSetStableDomain(p, c.stableDomainEngine, generate);
      if named.Err? {
        return None;
      }
      tunnel := ctrl.CreateTunnel(named.value);
      return;
    }
    var candidate := MaybeSetStableDomain(p, c.engine, generate);
    if candidate.Err? {
      return None;
    }
    tunnel := ctrl.CreateTunnel(p);
    if tunnel.None? || p.hostname.Some? || candidate.value.hostname.None? {
      return;
    }
    var answer := ctrl.engine(tunnel.value);
    var closed := ctrl.Close(tunnel.value);
    if !answer.readable || !closed {
      return None;
    }
    var cut := Cut(if answer.hostname.Some? then answer.hostname.value else "", ".t.");
    if !cut.found || cut.after == "" {
      return None;
    }
    var hostname := Cut(candidate.value.hostname.value, ".").before + ".t." + cut.after;
    tunnel := ctrl.CreateTunnel(p.(hostname := Some(hostname)));
  }

  /**
   Quota one: at most two requests, the second only after the first tunnel was read and closed; a tunnel that is
   handed out is the only one open, and after a failure only a tunnel whose close failed may be left.
   */
  lemma SessionFitsQuota(p: Properties, c: ConnectionConfig, generate: Generator, engine: Engine)
    ensures var s := Plan(p, c, generate, engine);
            && |s.requests| <= 2
            && (|s.requests| == 2 ==>
                  engine(0).Created? && engine(0).readable && engine(0).closable && s.requests[0].hostname.None?)
            && (s.tunnel.Some? ==> s.open == {s.tunnel.value} && s.tunnel.value == |s.requests| - 1)
            && (s.tunnel.None? && s.open != {} ==> s.open == {0} && engine(0).Created? && !engine(0).closable)
  {
  }

  /**
   What a call does on a connection without Control plane metadata, in full. The temporary tunnel is given up for a
   stable name exactly when the name is open, the generator has one, and the engine's tunnel can be read, can be closed
   and is served in a domain. The second request then differs from the first in its hostname alone, which is the
   generated label in that domain. In every other case there is one request at most, for what the agent had.
   */
  lemma DiscoveryIsExact(p: Properties, c: ConnectionConfig, generate: Generator, engine: Engine)
    requires c.stableDomainEngine == ""
    ensures var s := Plan(p, c, generate, engine);
            var first := if engine(0).Created? && engine(0).hostname.Some? then engine(0).hostname.value else "";
            var found := Cut(first, ".t.");
            var known := p.hostname.Some? || generate(p, c.engine) == Ok(None);
            if p.hostname.None? && generate(p, c.engine).Err? then s.requests == [] && s.tunnel == None && s.open == {}
            else if known || engine(0).Refused? then
              && s.requests == [p]
              && s.tunnel == (if engine(0).Created? then Some(0) else None)
              && s.open == (if engine(0).Created? then {0} else {})
            else if engine(0).readable && engine(0).closable && found.found && found.after != "" then
              && s.requests
                 == [p, p.(hostname := Some(Cut(generate(p, c.engine).value.value, ".").before + ".t." + found.after))]
              && s.tunnel == (if engine(1).Created? then Some(1) else None)
              && s.open == (if engine(1).Created? then {1} else {})
            else
              && s.requests == [p] && s.tunnel == None
              && s.open == (if engine(0).closable then {} else {0})
  {
    CutAbsent("", ".t.");
  }

  /** With Control plane metadata the name is generated for the engine it names, and asked for at once. */
  lemma NamedAtOnce(p: Properties, c: ConnectionConfig, generate: Generator, engine: Engine)
    requires c.stableDomainEngine != ""
    ensures var s := Plan(p, c, generate, engine);
            var name := if p.hostname.Some? then Ok(p.hostname) else generate(p, c.stableDomainEngine);
            match name
            case Err(_) => s.requests == [] && s.tunnel == None && s.open == {}
            case Ok(hostname) =>
              && s.requests == [p.(hostname := hostname)]
              && s.tunnel == (if engine(0).Created? then Some(0) else None)
              && s.open == (if engine(0).Created? then {0} else {})
  {
    assert p.hostname.Some? ==> p.(hostname := p.hostname) == p;
  }

  /** A known hostname is asked for once, unchanged, whatever the connection and the engine are. */
  lemma KnownHostnameIsRequested(p: Properties, c: ConnectionConfig, generate: Generator, engine: Engine)
    requires p.hostname.Some?
    ensures Plan(p, c, generate, engine) == Single(p, engine)
  {
  }

  /** The name asked for second is the generated label in the engine's own serving domain, and can be taken apart. */
  lemma SpliceIsExact(p: Properties, c: ConnectionConfig, generate: Generator, engine: Engine)
    requires |Plan(p, c, generate, engine).requests| == 2
    ensures var hostname := Plan(p, c, generate, engine).requests[1].hostname;
            && generate(p, c.engine).Ok? && generate(p, c.engine).value.Some?
            && hostname.Some? && engine(0).hostname.Some?
            && Cut(hostname.value, ".t.").found
            && Cut(hostname.value, ".t.").before == Cut(generate(p, c.engine).value.value, ".").before
            && Cut(hostname.value, ".t.").after == Cut(engine(0).hostname.value, ".t.").after != ""
  {
    var generated := generate(p, c.engine).value.value;
    var domain := ServingDomain(engine(0)).value;
    CutAbsent("", ".t.");
    CutHeadIsFree(generated, ".");
    CutConcat(Cut(generated, ".").before, ".t.", domain);
  }
}
