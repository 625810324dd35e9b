/** The API objects, with the fields the manager and the agent look at. */
module Api {
  import opened Wrappers

  datatype Key = Key(namespace: string, name: string)

  datatype SecretRef = SecretRef(name: string, key: string)

  datatype Secret = Secret(resourceVersion: string, data: map<string, string>)

  datatype MTLS = MTLS(cert: SecretRef, key: SecretRef, ca: Option<SecretRef>)

  datatype Proxy = Proxy(
    http: string, username: Option<SecretRef>, password: Option<SecretRef>, headers: map<string, string>)

  datatype Transport = Transport(
    mode: string, ipFamily: string, mptcp: Option<bool>, useQUIC: Option<bool>, proxy: Option<Proxy>)

  datatype Header = Header(name: string, value: SecretRef)

  datatype Connection = Connection(
    key: Key,
    projectEndpoint: string, projectID: string, apiURL: string, region: string, engine: string,
    controlPlaneHeaders: seq<Header>,
    token: Option<SecretRef>,
    mtls: Option<MTLS>,
    transport: Option<Transport>)

  datatype TransportProtocol = TCPProtocol | UDPProtocol

  datatype ServicePort = ServicePort(name: string, port: int, protocol: Option<TransportProtocol>)

  datatype Service = Service(key: Key, ports: seq<ServicePort>)

  datatype Protocol = HTTP | TLS | DTLS | QUIC | TCP

  datatype TunnelType = Bytestream | Datagram

  datatype HTTPVersion = HTTP11 | H2C | H3

  datatype TLSMode = Terminated | Passthrough

  datatype TLSVersion = TLS12 | TLS13

  datatype Cors = Cors(
    allowedOrigins: seq<string>, allowedMethods: seq<string>, allowedHeaders: seq<string>,
    exposedHeaders: seq<string>, allowCredentials: bool, maxAge: int)

  datatype HTTPAuth = HTTPAuth(token: Option<bool>, rstream: Option<bool>)

  datatype HTTPGate = HTTPGate(challenge: Option<bool>)

  datatype HTTPSpec = HTTPSpec(
    cors: Option<Cors>, version: Option<HTTPVersion>, auth: Option<HTTPAuth>, gate: Option<HTTPGate>)

  datatype TLSSpec = TLSSpec(
    mode: Option<TLSMode>, minVersion: Option<TLSVersion>, alpns: seq<string>, mtls: Option<bool>)

  datatype AgentSpec = AgentSpec(
    image: string, replicas: Option<int>, podLabels: map<string, string>, podAnnotations: map<string, string>)

  datatype PortRef = PortName(name: string) | PortNumber(number: int)

  datatype TunnelSpec = TunnelSpec(
    connectionRef: Option<string>,
    serviceNamespace: string, serviceName: string, servicePort: PortRef,
    tunnelName: string,
    publish: Option<bool>,
    protocol: Option<Protocol>,
    kind: Option<TunnelType>,
    guaranteedDelivery: Option<bool>,
    crossRegion: Option<bool>,
    hostname: string,
    tcpPort: Option<int>,
    labels: map<string, string>,
    upstreamTLS: Option<bool>,
    trustedIPs: seq<string>,
    geoIP: seq<string>,
    http: Option<HTTPSpec>,
    tls: Option<TLSSpec>,
    agent: Option<AgentSpec>)

  /** What the resource definition fills in before a controller sees the object. */
  predicate Defaulted(s: TunnelSpec) {
    s.protocol.Some? && s.publish.Some?
  }

  /** A tunnel object without its status; `finalizer` is the operator's, `pinned` stands for any other one. */
  datatype Tunnel = Tunnel(
    key: Key, uid: string, spec: TunnelSpec, finalizer: bool, pinned: bool, deleting: bool)
}
