/** The Service behind a tunnel: where it is looked up, which of its ports is used, what the port must speak. */
module Services {
  import opened Wrappers
  import opened Api
  import opened AgentConfig

  datatype TargetError = ServiceNotFound | PortNotFound | ProtocolMismatch

  function ServiceKey(t: Tunnel): Key {
    Key(if t.spec.serviceNamespace != "" then t.spec.serviceNamespace else t.key.namespace, t.spec.serviceName)
  }

  function ServiceHost(key: Key): string {
    key.name + "." + key.namespace + ".svc"
  }

  predicate IsWanted(port: ServicePort, want: PortRef) {
    match want
    case PortName(name) => port.name == name
    case PortNumber(number) => port.port == number
  }

  function FirstPort(ports: seq<ServicePort>, want: PortRef): Option<ServicePort> {
    if ports == [] then None
    else if IsWanted(ports[0], want) then Some(ports[0])
    else FirstPort(ports[1..], want)
  }

  /** The port used is wanted and no earlier one is; there is none exactly when no port is wanted. */
  lemma {:induction false} FirstPortIsFirst(ports: seq<ServicePort>, want: PortRef)
    ensures match FirstPort(ports, want)
            case None => forall i | 0 <= i < |ports| :: !IsWanted(ports[i], want)
            case Some(p) => exists k :: 0 <= k < |ports| && ports[k] == p && IsWanted(p, want)
                                        && forall i | 0 <= i < k :: !IsWanted(ports[i], want)
  {
    if ports != [] {
      var rest := ports[1..];
      FirstPortIsFirst(rest, want);
      if IsWanted(ports[0], want) {
        assert ports[0] == FirstPort(ports, want).value;
      } else {
        assert forall i | 0 < i < |ports| :: ports[i] == rest[i - 1];
        if FirstPort(rest, want).Some? {
          var p := FirstPort(rest, want).value;
          var k :| 0 <= k < |rest| && rest[k] == p && IsWanted(p, want)
                   && forall i | 0 <= i < k :: !IsWanted(rest[i], want);
          assert ports[k + 1] == p;
        }
      }
    }
  }

  /** The search loop of `resolveServicePort`. */
  method ResolveServicePort(ports: seq<ServicePort>, want: PortRef) returns (found: Option<ServicePort>)
    ensures found == FirstPort(ports, want)
  {
    for i := 0 to |ports|
      invariant FirstPort(ports, want) == FirstPort(ports[i..], want)
    {
      assert ports[i..][0] == ports[i] && ports[i..][1..] == ports[i + 1..];
      if IsWanted(ports[i], want) {
        return Some(ports[i]);
      }
    }
    return None;
  }

  function ExpectedProtocol(s: TunnelSpec): TransportProtocol {
    match s.kind
    case Some(Datagram) => UDPProtocol
    case Some(Bytestream) => TCPProtocol
    case None =>
      match s.protocol
      case Some(DTLS) => UDPProtocol
      case Some(QUIC) => UDPProtocol
      case Some(HTTP) => if IsHTTP3(s) then UDPProtocol else TCPProtocol
      case _ => TCPProtocol
  }

  /** A port without a protocol speaks TCP. */
  function ActualProtocol(port: ServicePort): TransportProtocol {
    match port.protocol
    case Some(p) => p
    case None => TCPProtocol
  }

  function ResolveServiceTarget(t: Tunnel, svc: Service): Result<ResolvedTarget, TargetError> {
    match FirstPort(svc.ports, t.spec.servicePort)
    case None => Err(PortNotFound)
    case Some(port) =>
      if ActualProtocol(port) != ExpectedProtocol(t.spec) then Err(ProtocolMismatch)
      else Ok(ResolvedTarget(ServiceHost(svc.key), port.port, ActualProtocol(port)))
  }

  function ResolveTarget(t: Tunnel, services: map<Key, Service>): Result<ResolvedTarget, TargetError> {
    if ServiceKey(t) !in services then Err(ServiceNotFound)
    else ResolveServiceTarget(t, services[ServiceKey(t)])
  }

  /**
   The manager and the agent always agree on what an accepted target speaks: once the defaults are filled in, it is UDP
   exactly when the agent's tunnel carries datagrams. An object that bypasses the defaults keeps to this too, unless
   it is HTTP/3 and leaves both its protocol and its type open.
   */
  lemma TargetFitsTunnel(t: Tunnel, services: map<Key, Service>, c: Connection, engine: string, stable: string)
    requires ResolveTarget(t, services).Ok?
    ensures var config := BuildAgentConfig(t, c, ResolveTarget(t, services).value, engine, stable);
            var agree := config.target.protocol == "UDP" <==> config.tunnel.kind == "datagram";
            && (Defaulted(t.spec) ==> agree)
            && (agree <==> !(t.spec.protocol.None? && t.spec.kind.None? && IsHTTP3(t.spec)))
  {
    ExpectedIsInferred(t.spec);
    assert TypeName(Datagram) == "datagram" && TypeName(Bytestream) == "bytestream" != "datagram";
    assert TransportName(UDPProtocol) == "UDP" && TransportName(TCPProtocol) == "TCP" != "UDP";
  }

  lemma ExpectedIsInferred(s: TunnelSpec)
    ensures (ExpectedProtocol(s) == UDPProtocol <==> InferTunnelType(s) == Datagram)
            <==> !(s.protocol.None? && s.kind.None? && IsHTTP3(s))
  {
  }

  /**
   The agent dials the Service the spec names, in the namespace the spec names or else the tunnel's own, on the first
   port that has the name or the number the spec gives, in that port's protocol.
   */
  lemma AgentDialsTheService(t: Tunnel, services: map<Key, Service>, c: Connection, engine: string, stable: string)
    requires forall key | key in services :: services[key].key == key
    requires ResolveTarget(t, services).Ok?
    ensures var target := BuildAgentConfig(t, c, ResolveTarget(t, services).value, engine, stable).target;
            TargetMeans(t, services, target)
  {
    hide BuildTunnelConfig, Itoa, FirstPort, IsWanted, FirstMatch;
    var key := ServiceKey(t);
    var ports := services[key].ports;
    FirstPortIsFirst(ports, t.spec.servicePort);
    var port := FirstPort(ports, t.spec.servicePort).value;
    var k :| 0 <= k < |ports| && ports[k] == port && IsWanted(port, t.spec.servicePort)
             && forall i | 0 <= i < k :: !IsWanted(ports[i], t.spec.servicePort);
    MatchesAreWanted(ports, t.spec.servicePort, k);
    assert port.protocol.Some? ==> port.protocol.value.TCPProtocol? || port.protocol.value.UDPProtocol?;
    var target := BuildAgentConfig(t, c, ResolveTarget(t, services).value, engine, stable).target;
    assert IsPort(target, ports, k);
    assert TargetsService(services, key, t.spec.servicePort, target);
    assert key == Key(if t.spec.serviceNamespace != "" then t.spec.serviceNamespace else t.key.namespace,
                      t.spec.serviceName);
  }

  /** The target is port number `k` of the Service, in its protocol, which is TCP if none is given. */
  predicate IsPort(target: TargetConfig, ports: seq<ServicePort>, k: int) {
    && 0 <= k < |ports|
    && target.port == Itoa(ports[k].port)
    && target.protocol == (if ports[k].protocol == Some(UDPProtocol) then "UDP" else "TCP")
  }

  ghost predicate TargetsService(services: map<Key, Service>, key: Key, want: PortRef, target: TargetConfig) {
    && key in services
    && target.host == key.name + "." + key.namespace + ".svc"
    && exists k :: FirstMatch(services[key].ports, want, k) && IsPort(target, services[key].ports, k)
  }

  ghost predicate TargetMeans(t: Tunnel, services: map<Key, Service>, target: TargetConfig) {
    TargetsService(services, Key(if t.spec.serviceNamespace != "" then t.spec.serviceNamespace else t.key.namespace,
                                 t.spec.serviceName), t.spec.servicePort, target)
  }

  /** Port number `k` has the name or the number that is asked for, and no port before it has. */
  predicate FirstMatch(ports: seq<ServicePort>, want: PortRef, k: int) {
    && 0 <= k < |ports|
    && match want
       case PortName(name) => ports[k].name == name && forall i | 0 <= i < k :: ports[i].name != name
       case PortNumber(number) => ports[k].port == number && forall i | 0 <= i < k :: ports[i].port != number
  }

  lemma MatchesAreWanted(ports: seq<ServicePort>, want: PortRef, k: int)
    requires 0 <= k < |ports| && IsWanted(ports[k], want) && forall i | 0 <= i < k :: !IsWanted(ports[i], want)
    ensures FirstMatch(ports, want, k)
  {
  }

  /** When a target is resolved at all: the Service is there, a port matches, and the first match speaks what is due. */
  lemma TargetIff(t: Tunnel, services: map<Key, Service>)
    ensures var key := Key(if t.spec.serviceNamespace != "" then t.spec.serviceNamespace else t.key.namespace,
                           t.spec.serviceName);
            && (ResolveTarget(t, services) == Err(ServiceNotFound) <==> key !in services)
            && (key in services ==>
                  var ports := services[key].ports;
                  && (ResolveTarget(t, services) == Err(PortNotFound)
                      <==> forall k :: !FirstMatch(ports, t.spec.servicePort, k))
                  && (ResolveTarget(t, services).Ok?
                      <==> exists k :: FirstMatch(ports, t.spec.servicePort, k)
                             && (ports[k].protocol == Some(UDPProtocol) <==> ExpectedProtocol(t.spec) == UDPProtocol)))
  {
    if ServiceKey(t) in services {
      MatchesOf(services[ServiceKey(t)].ports, t.spec.servicePort);
      assert ExpectedProtocol(t.spec).TCPProtocol? || ExpectedProtocol(t.spec).UDPProtocol?;
    }
  }

  lemma MatchesOf(ports: seq<ServicePort>, want: PortRef)
    ensures FirstPort(ports, want).None? <==> forall k :: !FirstMatch(ports, want, k)
    ensures forall k | FirstMatch(ports, want, k) :: FirstPort(ports, want) == Some(ports[k])
    ensures FirstPort(ports, want).Some? ==>
              exists k :: FirstMatch(ports, want, k) && ports[k] == FirstPort(ports, want).value
  {
    FirstPortIsFirst(ports, want);
    hide FirstPort;
    if FirstPort(ports, want).Some? {
      var p := FirstPort(ports, want).value;
      var k :| 0 <= k < |ports| && ports[k] == p && IsWanted(p, want)
               && forall i | 0 <= i < k :: !IsWanted(ports[i], want);
      MatchesAreWanted(ports, want, k);
      forall j | FirstMatch(ports, want, j)
        ensures j == k
      {
        assert IsWanted(ports[j], want) && IsWanted(ports[k], want);
      }
    }
  }

  /** The documented port rules, for a spec that gives its protocol and leaves the type to be inferred. */
  lemma DocumentedPortRules(t: Tunnel, services: map<Key, Service>)
    requires t.spec.protocol.Some? && t.spec.kind.None? && ResolveTarget(t, services).Ok?
    ensures ResolveTarget(t, services).value.protocol
         == match t.spec.protocol.value
            case HTTP => if t.spec.http.Some? && t.spec.http.value.version == Some(H3) then UDPProtocol else TCPProtocol
            case TLS => TCPProtocol
            case TCP => TCPProtocol
            case DTLS => UDPProtocol
            case QUIC => UDPProtocol
  {
  }
}
