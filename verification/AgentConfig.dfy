/** From a tunnel's spec to the agent's configuration. */
module AgentConfig {
  import opened Wrappers
  import opened Text
  import opened Api
  import Names

  datatype HTTPConfig = HTTPConfig(
    cors: Option<Cors>, version: string, auth: Option<HTTPAuth>, gate: Option<HTTPGate>)

  datatype TLSConfig = TLSConfig(mode: string, minVersion: string, alpns: seq<string>, mtls: Option<bool>)

  datatype TunnelConfig = TunnelConfig(
    name: string, publish: Option<bool>, protocol: string, kind: string, guaranteedDelivery: Option<bool>,
    crossRegion: Option<bool>, hostname: string, tcpPort: Option<int>, labels: map<string, string>,
    upstreamTLS: Option<bool>, trustedIPs: seq<string>, geoIP: seq<string>,
    http: Option<HTTPConfig>, tls: Option<TLSConfig>)

  datatype ProxyConfig = ProxyConfig(http: string, usernameEnv: string, passwordEnv: string,
                                     headers: map<string, string>)

  datatype TransportConfig = TransportConfig(
    mode: string, ipFamily: string, mptcp: Option<bool>, useQUIC: Option<bool>, proxy: Option<ProxyConfig>)

  datatype MTLSFiles = MTLSFiles(certFile: string, keyFile: string, caFile: string)

  datatype ConnectionConfig = ConnectionConfig(
    engine: string, stableDomainEngine: string, mtls: Option<MTLSFiles>, transport: Option<TransportConfig>)

  datatype TargetConfig = TargetConfig(host: string, port: string, protocol: string)

  datatype KubernetesConfig = KubernetesConfig(
    enabled: bool, namespace: string, tunnelName: string, podNameEnv: string, podNamespaceEnv: string)

  datatype Config = Config(
    connection: ConnectionConfig, tunnel: TunnelConfig, target: TargetConfig, kubernetes: KubernetesConfig,
    retryInitial: string, retryMax: string)

  datatype ResolvedTarget = ResolvedTarget(host: string, port: int, protocol: TransportProtocol)

  function Digits(n: nat): string {
    if n < 10 then ['0' + n as char] else Digits(n / 10) + ['0' + (n % 10) as char]
  }

  /** `strconv.Itoa`. */
  function Itoa(n: int): string {
    if n < 0 then "-" + Digits(-n) else Digits(n)
  }

  function Address(t: ResolvedTarget): string {
    t.host + ":" + Itoa(t.port)
  }

  function ProtocolName(p: Protocol): string {
    match p
    case HTTP => "http"
    case TLS => "tls"
    case DTLS => "dtls"
    case QUIC => "quic"
    case TCP => "tcp"
  }

  function TypeName(t: TunnelType): string {
    match t
    case Bytestream => "bytestream"
    case Datagram => "datagram"
  }

  function VersionName(v: HTTPVersion): string {
    match v
    case HTTP11 => "http/1.1"
    case H2C => "h2c"
    case H3 => "h3"
  }

  function ModeName(m: TLSMode): string {
    match m
    case Terminated => "terminated"
    case Passthrough => "passthrough"
  }

  function TLSVersionName(v: TLSVersion): string {
    match v
    case TLS12 => "tls1.2"
    case TLS13 => "tls1.3"
  }

  function TransportName(p: TransportProtocol): string {
    match p
    case TCPProtocol => "TCP"
    case UDPProtocol => "UDP"
  }

  function EffectiveProtocol(s: TunnelSpec): Protocol {
    match s.protocol
    case Some(p) => p
    case None => HTTP
  }

  predicate IsHTTP3(s: TunnelSpec) {
    s.http.Some? && s.http.value.version == Some(H3)
  }

  function InferTunnelType(s: TunnelSpec): TunnelType {
    match s.kind
    case Some(t) => t
    case None =>
      match EffectiveProtocol(s)
      case DTLS => Datagram
      case QUIC => Datagram
      case HTTP => if IsHTTP3(s) then Datagram else Bytestream
      case _ => Bytestream
  }

  function Published(s: TunnelSpec): bool {
    s.publish != Some(false)
  }

  /** The hostname a spec may ask for. */
  function RequestedHostname(s: TunnelSpec): string {
    if s.protocol == Some(TCP) || s.publish == Some(false) then "" else TrimSpace(s.hostname)
  }

  function IdentityOf(t: Tunnel): Names.Identity {
    Names.Identity(t.key.namespace, t.key.name, t.uid)
  }

  function ConfigLabels(t: Tunnel): map<string, string> {
    t.spec.labels
    + map["rstream.managed-by" := "kubernetes-operator",
          "rstream.source" := "kubernetes",
          "rstream.kubernetes.namespace" := t.key.namespace,
          "rstream.kubernetes.name" := t.key.name]
    + if t.uid != "" then map["rstream.kubernetes.uid" := t.uid] else map[]
  }

  /** `uint32(*port)`. */
  function Port32(port: int): int {
    port % 0x1_0000_0000
  }

  function BuildHTTP(h: HTTPSpec): HTTPConfig {
    HTTPConfig(h.cors, VersionName(if h.version.Some? then h.version.value else HTTP11), h.auth, h.gate)
  }

  function BuildTLS(t: TLSSpec): TLSConfig {
    TLSConfig(
      if t.mode.Some? then ModeName(t.mode.value) else "",
      if t.minVersion.Some? then TLSVersionName(t.minVersion.value) else "",
      t.alpns, t.mtls)
  }

  function BuildTransport(t: Transport): TransportConfig {
    TransportConfig(t.mode, t.ipFamily, t.mptcp, t.useQUIC,
      match t.proxy
      case None => None
      case Some(p) => Some(ProxyConfig(
        p.http,
        if p.username.Some? then "RSTREAM_PROXY_USERNAME" else "",
        if p.password.Some? then "RSTREAM_PROXY_PASSWORD" else "",
        p.headers)))
  }

  function BuildTunnelConfig(t: Tunnel, hostname: string): TunnelConfig {
    var s := t.spec;
    TunnelConfig(
      Names.RstreamName(IdentityOf(t), s.tunnelName),
      Some(Published(s)),
      ProtocolName(EffectiveProtocol(s)),
      TypeName(InferTunnelType(s)),
      s.guaranteedDelivery,
      s.crossRegion,
      TrimSpace(hostname),
      if s.tcpPort.Some? then Some(Port32(s.tcpPort.value)) else None,
      ConfigLabels(t),
      s.upstreamTLS, s.trustedIPs, s.geoIP,
      if s.http.Some? then Some(BuildHTTP(s.http.value)) else None,
      if s.tls.Some? then Some(BuildTLS(s.tls.value)) else None)
  }

  /** `BuildAgentConfig`, with the stable-domain engine the reconciler sets right after it. */
  function BuildAgentConfig(t: Tunnel, c: Connection, target: ResolvedTarget, engine: string,
                            stableDomainEngine: string): Config {
    Config(
      ConnectionConfig(
        TrimSpace(engine), stableDomainEngine,
        if c.mtls.None? then None
        else Some(MTLSFiles("/var/run/rstream/mtls/tls.crt", "/var/run/rstream/mtls/tls.key",
                            if c.mtls.value.ca.Some? then "/var/run/rstream/mtls/ca.crt" else "")),
        if c.transport.None? then None else Some(BuildTransport(c.transport.value))),
      BuildTunnelConfig(t, RequestedHostname(t.spec)),
      TargetConfig(target.host, Itoa(target.port), TransportName(target.protocol)),
      KubernetesConfig(true, t.key.namespace, t.key.name, "RSTREAM_AGENT_POD_NAME", "RSTREAM_AGENT_POD_NAMESPACE"),
      "1s", "30s")
  }

  datatype SpecError =
    | PortWithoutTCP | TCPUnpublished | TCPNotBytestream | TCPHostname | TCPHTTPOrTLS | TCPGuaranteedDelivery

  /** `validateTunnelSpec`: the first rule the spec breaks. */
  function ValidateTunnelSpec(s: TunnelSpec): Option<SpecError> {
    if s.tcpPort.Some? && s.protocol != Some(TCP) then Some(PortWithoutTCP)
    else if s.protocol != Some(TCP) then None
    else if s.publish == Some(false) then Some(TCPUnpublished)
    else if s.kind.Some? && s.kind != Some(Bytestream) then Some(TCPNotBytestream)
    else if TrimSpace(s.hostname) != "" then Some(TCPHostname)
    else if s.http.Some? || s.tls.Some? then Some(TCPHTTPOrTLS)
    else if s.guaranteedDelivery == Some(true) then Some(TCPGuaranteedDelivery)
    else None
  }

  /** The number a decimal text stands for. */
  function DecimalValue(s: string): int {
    if s == "" then 0 else DecimalValue(s[..|s| - 1]) * 10 + (s[|s| - 1] as int - '0' as int)
  }

  lemma {:induction false} DigitsValue(n: nat)
    ensures var s := Digits(n);
            && DecimalValue(s) == n && s != ""
            && (forall i | 0 <= i < |s| :: '0' <= s[i] <= '9') && (|s| > 1 ==> s[0] != '0') && (n > 0 ==> s[0] != '0')
  {
    if n >= 10 {
      DigitsValue(n / 10);
      var head, last := Digits(n / 10), ['0' + (n % 10) as char];
      assert (head + last)[..|head|] == head;
    } else {
      assert ['0' + n as char][..0] == "";
    }
  }

  /** A port number is written in decimal, without leading zeros. */
  lemma ItoaMeans(n: nat)
    ensures DecimalValue(Itoa(n)) == n && (|Itoa(n)| > 1 ==> Itoa(n)[0] != '0')
    ensures forall i | 0 <= i < |Itoa(n)| :: '0' <= Itoa(n)[i] <= '9'
  {
    DigitsValue(n);
  }
}
