/** From the agent's configuration to the properties it asks the engine for. */
module AgentProperties {
  import opened Wrappers
  import opened Text
  import opened Api
  import opened AgentConfig
  import Names

  datatype Properties = Properties(
    name: Option<string>, publish: Option<bool>, kind: Option<TunnelType>, protocol: Option<Protocol>,
    port: Option<int>, guaranteedDelivery: Option<bool>, crossRegion: Option<bool>, hostname: Option<string>,
    labels: map<string, string>, geoIP: seq<string>, trustedIPs: seq<string>,
    upstreamTLS: Option<bool>, httpUseTLS: Option<bool>,
    cors: Option<Cors>, httpVersion: Option<HTTPVersion>, tokenAuth: Option<bool>, rstreamAuth: Option<bool>,
    challenge: Option<bool>,
    tlsMode: Option<TLSMode>, tlsMinVersion: Option<TLSVersion>, alpns: seq<string>, mtlsAuth: Option<bool>)

  const NO_PROPERTIES := Properties(
    None, None, None, None, None, None, None, None, map[], [], [], None, None,
    None, None, None, None, None, None, None, [], None)

  datatype PropertyError =
    | NameMissing | BadType | BadProtocol | BadVersion | BadMode | BadMinVersion
    | PortNeedsTCP | PortRange
    | TCPNeedsPublish | TCPNeedsBytestream | TCPSettings | TCPGuaranteed
    | GuaranteedNeedsDatagram | CorsNeedsPublish | CorsInvalid | HTTPSettings

  predicate Blank(s: string) {
    TrimSpace(s) == ""
  }

  /** A setting given as text: empty means absent, and any other text must parse. */
  datatype Setting<+T> = Absent | Bad | Good(value: T)

  /** How the agent reads an enumerated setting: trimmed, lower-cased and looked up. */
  function Read<T>(val: string, parse: string -> Option<T>): Setting<T> {
    if Blank(val) then Absent
    else
      match parse(ToLower(TrimSpace(val)))
      case Some(v) => Good(v)
      case None => Bad
  }

  function ParseProtocol(v: string): Option<Protocol> {
    if v == "http" then Some(HTTP)
    else if v == "tls" then Some(TLS)
    else if v == "dtls" then Some(DTLS)
    else if v == "quic" then Some(QUIC)
    else if v == "tcp" then Some(TCP)
    else None
  }

  function ParseType(v: string): Option<TunnelType> {
    if v == "bytestream" then Some(Bytestream) else if v == "datagram" then Some(Datagram) else None
  }

  function ParseVersion(v: string): Option<HTTPVersion> {
    if v == "http/1.1" then Some(HTTP11) else if v == "h2c" then Some(H2C) else if v == "h3" then Some(H3) else None
  }

  function ParseMode(v: string): Option<TLSMode> {
    if v == "terminated" then Some(Terminated) else if v == "passthrough" then Some(Passthrough) else None
  }

  function ParseMinVersion(v: string): Option<TLSVersion> {
    if v == "tls1.2" then Some(TLS12) else if v == "tls1.3" then Some(TLS13) else None
  }

  /** The texts of a configuration, as read. */
  datatype Reading = Reading(
    name: string, hostname: string, kind: Setting<TunnelType>, protocol: Setting<Protocol>,
    version: Setting<HTTPVersion>, mode: Setting<TLSMode>, minVersion: Setting<TLSVersion>)

  function ReadConfig(c: TunnelConfig): Reading {
    Reading(
      TrimSpace(c.name),
      TrimSpace(c.hostname),
      Read(c.kind, ParseType),
      Read(c.protocol, ParseProtocol),
      if c.http.Some? then Read(c.http.value.version, ParseVersion) else Absent,
      if c.tls.Some? then Read(c.tls.value.mode, ParseMode) else Absent,
      if c.tls.Some? then Read(c.tls.value.minVersion, ParseMinVersion) else Absent)
  }

  type Normalizer = Cors -> Option<Cors>

  /** The type the tunnel ends up with; TCP fixes it. */
  function KindOf(r: Reading): Setting<TunnelType> {
    if r.protocol == Good(TCP) then Good(Bytestream) else r.kind
  }

  function TCPRefusal(c: TunnelConfig, r: Reading): Option<PropertyError> {
    if c.publish == Some(false) then Some(TCPNeedsPublish)
    else if r.kind.Good? && r.kind.value != Bytestream then Some(TCPNeedsBytestream)
    else if r.hostname != "" || c.http.Some? || c.tls.Some? then Some(TCPSettings)
    else if c.guaranteedDelivery == Some(true) then Some(TCPGuaranteed)
    else None
  }

  function HTTPRefusal(c: TunnelConfig, r: Reading, normalize: Normalizer): Option<PropertyError> {
    if c.http.None? then None
    else if c.http.value.cors.Some? && c.publish == Some(false) then Some(CorsNeedsPublish)
    else if c.http.value.cors.Some? && normalize(c.http.value.cors.value).None? then Some(CorsInvalid)
    else if r.protocol.Good? && r.protocol.value != HTTP then Some(HTTPSettings)
    else if r.version.Bad? then Some(BadVersion)
    else None
  }

  function TLSRefusal(r: Reading): Option<PropertyError> {
    if r.mode.Bad? then Some(BadMode)
    else if r.minVersion.Bad? then Some(BadMinVersion)
    else None
  }

  /** The first rule broken outside the HTTP and TLS sections. */
  function BaseRefusal(c: TunnelConfig, r: Reading): Option<PropertyError> {
    var tcp := r.protocol == Good(TCP);
    if r.name == "" then Some(NameMissing)
    else if r.kind.Bad? then Some(BadType)
    else if r.protocol.Bad? then Some(BadProtocol)
    else if c.tcpPort.Some? && !tcp then Some(PortNeedsTCP)
    else if c.tcpPort.Some? && (c.tcpPort.value == 0 || c.tcpPort.value > 65535) then Some(PortRange)
    else if tcp && TCPRefusal(c, r).Some? then TCPRefusal(c, r)
    else if c.guaranteedDelivery == Some(true) && KindOf(r).Good? && KindOf(r).value != Datagram
    then Some(GuaranteedNeedsDatagram)
    else None
  }

  /** Why a configuration has no properties, if it has none: the first rule it breaks. */
  function Refusal(c: TunnelConfig, r: Reading, normalize: Normalizer): Option<PropertyError> {
    if BaseRefusal(c, r).Some? then BaseRefusal(c, r)
    else if HTTPRefusal(c, r, normalize).Some? then HTTPRefusal(c, r, normalize)
    else TLSRefusal(r)
  }

  /** The hostname to ask for: the configured one, else the confirmed one where a hostname is served. */
  function WantedHostname(c: TunnelConfig, r: Reading, confirmed: string): string {
    if r.hostname != "" then r.hostname
    else if c.publish != Some(false) && r.protocol != Good(TCP) then confirmed
    else ""
  }

  function NonEmpty(s: string): Option<string> {
    if s == "" then None else Some(s)
  }

  function Value<T>(s: Setting<T>): Option<T> {
    if s.Good? then Some(s.value) else None
  }

  /** The properties every accepted configuration has. */
  function Base(c: TunnelConfig, r: Reading, confirmed: string): Properties {
    NO_PROPERTIES.(
      name := Some(r.name),
      publish := if r.protocol == Good(TCP) then Some(true) else c.publish,
      kind := Value(KindOf(r)),
      protocol := Value(r.protocol),
      port := c.tcpPort,
      guaranteedDelivery := c.guaranteedDelivery,
      crossRegion := c.crossRegion,
      hostname := NonEmpty(WantedHostname(c, r, confirmed)),
      labels := c.labels, geoIP := c.geoIP, trustedIPs := c.trustedIPs,
      upstreamTLS := c.upstreamTLS,
      httpUseTLS := if r.protocol in {Absent, Good(HTTP)} then c.upstreamTLS else None)
  }

  function WithHTTP(c: TunnelConfig, r: Reading, normalize: Normalizer, p: Properties): Properties {
    if c.http.None? then p
    else
      var h := c.http.value;
      p.(cors := if h.cors.Some? then normalize(h.cors.value) else None,
         httpVersion := Value(r.version),
         tokenAuth := if h.auth.Some? then h.auth.value.token else None,
         rstreamAuth := if h.auth.Some? then h.auth.value.rstream else None,
         challenge := if h.gate.Some? then h.gate.value.challenge else None)
  }

  function WithTLS(c: TunnelConfig, r: Reading, p: Properties): Properties {
    if c.tls.None? then p
    else p.(tlsMode := Value(r.mode), tlsMinVersion := Value(r.minVersion),
            alpns := c.tls.value.alpns, mtlsAuth := c.tls.value.mtls)
  }

  /** The properties of an accepted configuration. */
  function Accepted(c: TunnelConfig, r: Reading, confirmed: string, normalize: Normalizer): Properties {
    WithTLS(c, r, WithHTTP(c, r, normalize, Base(c, r, confirmed)))
  }

  function Judge(c: TunnelConfig, r: Reading, confirmed: string, normalize: Normalizer)
    : Result<Properties, PropertyError>
  {
    match Refusal(c, r, normalize)
    case Some(e) => Err(e)
    case None => Ok(Accepted(c, r, confirmed, normalize))
  }

  function TunnelProperties(c: TunnelConfig, confirmed: string, normalize: Normalizer)
    : Result<Properties, PropertyError>
  {
    Judge(c, ReadConfig(c), confirmed, normalize)
  }

  /** The agent's own way: assign the properties one by one and stop at the first rule that is broken. */
  method BuildProperties(c: TunnelConfig, confirmed: string, normalize: Normalizer)
    returns (result: Result<Properties, PropertyError>)
    ensures result == TunnelProperties(c, confirmed, normalize)
  {
    var r := ReadConfig(c);
    result := BuildFromReading(c, r, confirmed, normalize);
  }

  method BuildFromReading(c: TunnelConfig, r: Reading, confirmed: string, normalize: Normalizer)
    returns (result: Result<Properties, PropertyError>)
    requires c.http.None? ==> r.version.Absent?
    requires c.tls.None? ==> r.mode.Absent? && r.minVersion.Absent?
    ensures result == Judge(c, r, confirmed, normalize)
  {
    result := BuildBase(c, r, confirmed);
    if result.Ok? {
      result := AddHTTP(c, r, normalize, result.value);
    }
    if result.Ok? {
      result := AddTLS(c, r, result.value);
    }
  }

  /** Everything up to the HTTP section. */
  method BuildBase(c: TunnelConfig, r: Reading, confirmed: string) returns (result: Result<Properties, PropertyError>)
    ensures result == match BaseRefusal(c, r)
                      case Some(e) => Err(e)
                      case None => Ok(Base(c, r, confirmed))
  {
    var props := NO_PROPERTIES;
    if r.name == "" {
      return Err(NameMissing);
    }
    props := props.(name := Some(r.name), publish := c.publish);
    if r.kind != Absent {
      if r.kind.Bad? {
        return Err(BadType);
      }
      props := props.(kind := Some(r.kind.value));
    }
    if r.protocol != Absent {
      if r.protocol.Bad? {
        return Err(BadProtocol);
      }
      props := props.(protocol := Some(r.protocol.value));
    }
    if c.tcpPort.Some? {
      if props.protocol != Some(TCP) {
        return Err(PortNeedsTCP);
      }
      if c.tcpPort.value == 0 || c.tcpPort.value > 65535 {
        return Err(PortRange);
      }
      props := props.(port := c.tcpPort);
    }
    if props.protocol == Some(TCP) {
      if props.publish == Some(false) {
        return Err(TCPNeedsPublish);
      }
      if props.kind.Some? && props.kind != Some(Bytestream) {
        return Err(TCPNeedsBytestream);
      }
      if r.hostname != "" || c.http.Some? || c.tls.Some? {
        return Err(TCPSettings);
      }
      if c.guaranteedDelivery == Some(true) {
        return Err(TCPGuaranteed);
      }
      props := props.(publish := Some(true), kind := Some(Bytestream));
    }
    if c.guaranteedDelivery.Some? {
      if c.guaranteedDelivery.value && props.kind.Some? && props.kind != Some(Datagram) {
        return Err(GuaranteedNeedsDatagram);
      }
      props := props.(guaranteedDelivery := c.guaranteedDelivery);
    }
    props := props.(crossRegion := c.crossRegion);
    var hostname := r.hostname;
    var published := props.publish != Some(false);
    if hostname == "" && published && props.protocol != Some(TCP) {
      hostname := confirmed;
    }
    if hostname != "" {
      props := props.(hostname := Some(hostname));
    }
    props := props.(labels := c.labels, geoIP := c.geoIP, trustedIPs := c.trustedIPs);
    if c.upstreamTLS.Some? {
      props := props.(upstreamTLS := c.upstreamTLS);
      if props.protocol.None? || props.protocol == Some(HTTP) {
        props := props.(httpUseTLS := c.upstreamTLS);
      }
    }
    return Ok(props);
  }

  /** The HTTP section: its settings go on top of `start`. */
  method AddHTTP(c: TunnelConfig, r: Reading, normalize: Normalizer, start: Properties)
    returns (result: Result<Properties, PropertyError>)
    requires start.cors.None? && start.httpVersion.None? && start.tokenAuth.None? && start.rstreamAuth.None?
    requires start.challenge.None?
    requires start.protocol == Value(r.protocol) && !r.protocol.Bad?
    requires start.publish == (if r.protocol == Good(TCP) then Some(true) else c.publish)
    requires r.protocol == Good(TCP) ==> c.http.None?
    requires c.http.None? ==> r.version.Absent?
    ensures result == match HTTPRefusal(c, r, normalize)
                      case Some(e) => Err(e)
                      case None => Ok(WithHTTP(c, r, normalize, start))
  {
    var props := start;
    if c.http.Some? {
      var h := c.http.value;
      if h.cors.Some? {
        if props.publish == Some(false) {
          return Err(CorsNeedsPublish);
        }
        var cors := normalize(h.cors.value);
        if cors.None? {
          return Err(CorsInvalid);
        }
        props := props.(cors := cors);
      }
      if props.protocol.Some? && props.protocol != Some(HTTP) {
        return Err(HTTPSettings);
      }
      if r.version != Absent {
        if r.version.Bad? {
          return Err(BadVersion);
        }
        props := props.(httpVersion := Some(r.version.value));
      }
      if h.auth.Some? {
        props := props.(tokenAuth := h.auth.value.token, rstreamAuth := h.auth.value.rstream);
      }
      if h.gate.Some? {
        props := props.(challenge := h.gate.value.challenge);
      }
    }
    return Ok(props);
  }

  /** The TLS section. */
  method AddTLS(c: TunnelConfig, r: Reading, start: Properties) returns (result: Result<Properties, PropertyError>)
    requires start.tlsMode.None? && start.tlsMinVersion.None? && start.alpns == [] && start.mtlsAuth.None?
    requires c.tls.None? ==> r.mode.Absent? && r.minVersion.Absent?
    ensures result == match TLSRefusal(r)
                      case Some(e) => Err(e)
                      case None => Ok(WithTLS(c, r, start))
  {
    var props := start;
    if c.tls.Some? {
      if r.mode != Absent {
        if r.mode.Bad? {
          return Err(BadMode);
        }
        props := props.(tlsMode := Some(r.mode.value));
      }
      if r.minVersion != Absent {
        if r.minVersion.Bad? {
          return Err(BadMinVersion);
        }
        props := props.(tlsMinVersion := Some(r.minVersion.value));
      }
      props := props.(alpns := c.tls.value.alpns, mtlsAuth := c.tls.value.mtls);
    }
    return Ok(props);
  }

  /** A text in normal form is looked up as it is. */
  lemma ReadNormal<T>(val: string, parse: string -> Option<T>)
    requires val != "" && IsLower(val) && IsTrimmed(val, IsSpace)
    ensures Read(val, parse) == match parse(val) case Some(v) => Good(v) case None => Bad
  {
    NormalFormIsFixed(val);
    TrimIsTrimmed(val, IsSpace);
  }

  lemma ReadEmpty<T>(parse: string -> Option<T>)
    ensures Read("", parse) == Absent
  {
  }

  /** The texts the manager writes are the texts the agent reads. */
  lemma ProtocolRoundTrip(p: Protocol)
    ensures Read(ProtocolName(p), ParseProtocol) == Good(p)
  {
    ReadNormal(ProtocolName(p), ParseProtocol);
    assert "dtls"[0] != "http"[0] && "quic"[0] != "http"[0] && "quic"[0] != "dtls"[0] && "tcp"[1] != "tls"[1];
  }

  lemma TypeRoundTrip(t: TunnelType)
    ensures Read(TypeName(t), ParseType) == Good(t)
  {
    ReadNormal(TypeName(t), ParseType);
  }

  lemma VersionRoundTrip(v: HTTPVersion)
    ensures Read(VersionName(v), ParseVersion) == Good(v)
  {
    ReadNormal(VersionName(v), ParseVersion);
  }

  lemma ModeRoundTrip(m: TLSMode)
    ensures Read(ModeName(m), ParseMode) == Good(m)
  {
    ReadNormal(ModeName(m), ParseMode);
  }

  lemma MinVersionRoundTrip(v: TLSVersion)
    ensures Read(TLSVersionName(v), ParseMinVersion) == Good(v)
  {
    ReadNormal(TLSVersionName(v), ParseMinVersion);
    assert "tls1.2"[5] != "tls1.3"[5];
  }

  /** The registered name of a tunnel is never blank, and is not trimmed any further. */
  lemma NameIsNormal(id: Names.Identity, tunnelName: string)
    ensures var n := Names.RstreamName(id, tunnelName); n != "" && TrimSpace(n) == n
  {
    TrimIsTrimmed(tunnelName, IsSpace);
    TrimIsTrimmed(TrimSpace(tunnelName), IsSpace);
    LabelIsTrimmed(id.namespace + "-" + id.name);
  }

  lemma LabelIsTrimmed(value: string)
    ensures Names.DnsLabel(value) != "" && TrimSpace(Names.DnsLabel(value)) == Names.DnsLabel(value)
  {
    Names.DnsLabelIsLabel(value);
    Names.LabelIsNormal(Names.DnsLabel(value));
    var n := Names.DnsLabel(value);
    assert Names.LabelChar(n[0]) && Names.LabelChar(n[|n| - 1]);
    TrimIsTrimmed(n, IsSpace);
  }

  /** The validation rules of the RstreamTunnel resource definition; its defaults are not needed on top of them. */
  predicate CrdRules(s: TunnelSpec) {
    && (s.tcpPort.Some? ==> EffectiveProtocol(s) == TCP && 1 <= s.tcpPort.value <= 65535)
    && (EffectiveProtocol(s) == TCP ==> Published(s))
    && (EffectiveProtocol(s) == TCP ==> s.kind in {None, Some(Bytestream)})
    && (EffectiveProtocol(s) == TCP ==> s.hostname == "")
    && (EffectiveProtocol(s) == TCP ==> s.http.None? && s.tls.None?)
    && (s.http.Some? && s.http.value.cors.Some? ==> EffectiveProtocol(s) == HTTP && Published(s))
  }

  /** The three ways in which an accepted object still fails at the agent. */
  function AgentRefusal(s: TunnelSpec, normalize: Normalizer): Option<PropertyError> {
    if s.guaranteedDelivery == Some(true) && InferTunnelType(s) == Bytestream then Some(GuaranteedNeedsDatagram)
    else if s.http.Some? && s.http.value.cors.Some? && normalize(s.http.value.cors.value).None? then Some(CorsInvalid)
    else if s.http.Some? && EffectiveProtocol(s) != HTTP then Some(HTTPSettings)
    else None
  }

  /** A reading that says what the spec said. */
  predicate Reads(s: TunnelSpec, r: Reading) {
    && r.name != ""
    && r.hostname == RequestedHostname(s)
    && r.protocol == Good(EffectiveProtocol(s))
    && r.kind == Good(InferTunnelType(s))
    && r.version == VersionOf(s) && r.mode == ModeOf(s) && r.minVersion == MinVersionOf(s)
  }

  /** The HTTP version a spec stands for; with HTTP settings that name none it is HTTP/1.1. */
  function VersionOf(s: TunnelSpec): Setting<HTTPVersion> {
    match s.http
    case None => Absent
    case Some(h) => Good(if h.version.Some? then h.version.value else HTTP11)
  }

  function ModeOf(s: TunnelSpec): Setting<TLSMode> {
    if s.tls.Some? && s.tls.value.mode.Some? then Good(s.tls.value.mode.value) else Absent
  }

  function MinVersionOf(s: TunnelSpec): Setting<TLSVersion> {
    if s.tls.Some? && s.tls.value.minVersion.Some? then Good(s.tls.value.minVersion.value) else Absent
  }

  /** A configuration and its reading that say what the spec said. */
  predicate Carries(s: TunnelSpec, c: TunnelConfig, r: Reading) {
    && Reads(s, r)
    && Copies(s, c)
  }

  /** The settings that are copied without going through a text. */
  predicate Copies(s: TunnelSpec, c: TunnelConfig) {
    && c.publish == Some(Published(s))
    && c.tcpPort == (if s.tcpPort.Some? then Some(Port32(s.tcpPort.value)) else None)
    && c.guaranteedDelivery == s.guaranteedDelivery && c.crossRegion == s.crossRegion
    && c.upstreamTLS == s.upstreamTLS && c.trustedIPs == s.trustedIPs && c.geoIP == s.geoIP
    && (match s.http
        case None => c.http == None
        case Some(h) => c.http.Some? && c.http.value.cors == h.cors && c.http.value.auth == h.auth
                        && c.http.value.gate == h.gate)
    && (match s.tls
        case None => c.tls == None
        case Some(x) => c.tls.Some? && c.tls.value.alpns == x.alpns && c.tls.value.mtls == x.mtls)
  }

  /** The settings that the manager writes as texts. */
  predicate Writes(t: Tunnel, c: TunnelConfig) {
    && c.name == Names.RstreamName(IdentityOf(t), t.spec.tunnelName)
    && c.hostname == TrimSpace(RequestedHostname(t.spec))
    && c.protocol == ProtocolName(EffectiveProtocol(t.spec))
    && c.kind == TypeName(InferTunnelType(t.spec))
    && c.http == (if t.spec.http.Some? then Some(BuildHTTP(t.spec.http.value)) else None)
    && c.tls == (if t.spec.tls.Some? then Some(BuildTLS(t.spec.tls.value)) else None)
  }

  lemma BuiltConfig(t: Tunnel)
    ensures Writes(t, BuildTunnelConfig(t, RequestedHostname(t.spec)))
    ensures Copies(t.spec, BuildTunnelConfig(t, RequestedHostname(t.spec)))
  {
  }

  /** What the agent reads from the configuration the manager built is what the spec said. */
  lemma ConfigReadsBack(t: Tunnel, c: TunnelConfig)
    requires Writes(t, c)
    ensures Reads(t.spec, ReadConfig(c))
  {
    NameIsNormal(IdentityOf(t), t.spec.tunnelName);
    HostnameIsNormal(t.spec);
    ProtocolRoundTrip(EffectiveProtocol(t.spec));
    TypeRoundTrip(InferTunnelType(t.spec));
    HTTPReadsBack(t.spec);
    TLSReadsBack(t.spec);
  }

  lemma HostnameIsNormal(s: TunnelSpec)
    ensures TrimSpace(TrimSpace(RequestedHostname(s))) == RequestedHostname(s)
  {
    TrimIsTrimmed(s.hostname, IsSpace);
    TrimIsTrimmed(RequestedHostname(s), IsSpace);
  }

  lemma HTTPReadsBack(s: TunnelSpec)
    ensures s.http.Some? ==> Read(BuildHTTP(s.http.value).version, ParseVersion) == VersionOf(s)
  {
    if s.http.Some? {
      VersionRoundTrip(if s.http.value.version.Some? then s.http.value.version.value else HTTP11);
    }
  }

  lemma TLSReadsBack(s: TunnelSpec)
    ensures s.tls.Some? ==> Read(BuildTLS(s.tls.value).mode, ParseMode) == ModeOf(s)
    ensures s.tls.Some? ==> Read(BuildTLS(s.tls.value).minVersion, ParseMinVersion) == MinVersionOf(s)
  {
    if s.tls.Some? {
      if s.tls.value.mode.Some? {
        ModeRoundTrip(s.tls.value.mode.value);
      } else {
        ReadEmpty(ParseMode);
      }
      if s.tls.value.minVersion.Some? {
        MinVersionRoundTrip(s.tls.value.minVersion.value);
      } else {
        ReadEmpty(ParseMinVersion);
      }
    }
  }

  /**
   End-to-end acceptance: a spec that passes the resource definition and the manager's validation is refused
   by the agent exactly for one of the reasons in AgentRefusal, and with that reason.
   */
  lemma AcceptedSpecAtAgent(t: Tunnel, confirmed: string, normalize: Normalizer)
    requires CrdRules(t.spec) && ValidateTunnelSpec(t.spec).None?
    ensures var r := TunnelProperties(BuildTunnelConfig(t, RequestedHostname(t.spec)), confirmed, normalize);
            match AgentRefusal(t.spec, normalize)
            case Some(e) => r == Err(e)
            case None => r.Ok?
    ensures EffectiveProtocol(t.spec) == TCP ==> AgentRefusal(t.spec, normalize).None?
  {
    var c := BuildTunnelConfig(t, RequestedHostname(t.spec));
    BuiltConfig(t);
    ConfigReadsBack(t, c);
    ValidatedTCP(t.spec);
    CarriedRefusal(t.spec, c, ReadConfig(c), normalize);
  }

  /** The three reasons in the spec's own terms. */
  lemma AcceptedSpecIsRefusedIff(t: Tunnel, confirmed: string, normalize: Normalizer)
    requires CrdRules(t.spec) && ValidateTunnelSpec(t.spec).None?
    ensures var s := t.spec;
            TunnelProperties(BuildTunnelConfig(t, RequestedHostname(s)), confirmed, normalize).Err?
            <==> || (s.guaranteedDelivery == Some(true) && InferTunnelType(s) != Datagram)
                 || (s.http.Some? && s.http.value.cors.Some? && normalize(s.http.value.cors.value).None?)
                 || (s.http.Some? && s.protocol !in {None, Some(HTTP)})
  {
    hide TunnelProperties, BuildTunnelConfig, RequestedHostname, InferTunnelType;
    AcceptedSpecAtAgent(t, confirmed, normalize);
    assert InferTunnelType(t.spec).Bytestream? || InferTunnelType(t.spec).Datagram?;
  }

  lemma ValidatedTCP(s: TunnelSpec)
    requires ValidateTunnelSpec(s).None?
    ensures s.protocol == Some(TCP) ==> RequestedHostname(s) == "" && s.guaranteedDelivery != Some(true)
    ensures EffectiveProtocol(s) == TCP <==> s.protocol == Some(TCP)
  {
  }

  lemma CarriedRefusal(s: TunnelSpec, c: TunnelConfig, r: Reading, normalize: Normalizer)
    requires CrdRules(s) && Carries(s, c, r)
    requires EffectiveProtocol(s) == TCP ==> r.hostname == "" && s.guaranteedDelivery != Some(true)
    ensures Refusal(c, r, normalize) == AgentRefusal(s, normalize)
    ensures EffectiveProtocol(s) == TCP ==> AgentRefusal(s, normalize).None?
  {
    assert s.tcpPort.Some? ==> Port32(s.tcpPort.value) == s.tcpPort.value;
    assert EffectiveProtocol(s) == TCP ==> TCPRefusal(c, r).None?;
    assert KindOf(r) == r.kind;
  }

  /** The agent's verdict on the configuration of an accepted spec, and where it comes from. */
  lemma AcceptedSpecIsCarried(t: Tunnel, confirmed: string, normalize: Normalizer)
    requires CrdRules(t.spec) && ValidateTunnelSpec(t.spec).None? && AgentRefusal(t.spec, normalize).None?
    ensures var c := BuildTunnelConfig(t, RequestedHostname(t.spec));
            && TunnelProperties(c, confirmed, normalize) == Ok(Accepted(c, ReadConfig(c), confirmed, normalize))
            && Carries(t.spec, c, ReadConfig(c))
            && ReadConfig(c).name == Names.RstreamName(IdentityOf(t), t.spec.tunnelName)
            && c.labels == ConfigLabels(t)
  {
    hide Reads, Copies, Accepted, RequestedHostname;
    var c := BuildTunnelConfig(t, RequestedHostname(t.spec));
    BuiltConfig(t);
    ConfigReadsBack(t, c);
    AcceptedSpecAtAgent(t, confirmed, normalize);
    NameIsNormal(IdentityOf(t), t.spec.tunnelName);
  }

  /**
   What the engine is asked for on behalf of an accepted spec, field by field. First, what the tunnel is: its name,
   protocol, type, publication, port and hostname.
   */
  lemma AcceptedSpecMeans(t: Tunnel, confirmed: string, normalize: Normalizer)
    requires CrdRules(t.spec) && ValidateTunnelSpec(t.spec).None? && AgentRefusal(t.spec, normalize).None?
    ensures var s, r := t.spec, TunnelProperties(BuildTunnelConfig(t, RequestedHostname(t.spec)), confirmed, normalize);
            && r.Ok?
            && r.value.name == Some(if TrimSpace(s.tunnelName) != "" then TrimSpace(s.tunnelName)
                                    else Names.DnsLabel(t.key.namespace + "-" + t.key.name))
            && r.value.protocol == Some(if s.protocol.Some? then s.protocol.value else HTTP)
            && r.value.kind == Some(
                 if s.kind.Some? then s.kind.value
                 else if s.protocol in {Some(DTLS), Some(QUIC)} then Datagram
                 else if s.protocol in {None, Some(HTTP)} && s.http.Some? && s.http.value.version == Some(H3)
                 then Datagram
                 else Bytestream)
            && r.value.publish == Some(s.publish != Some(false))
            && r.value.port == s.tcpPort
            && r.value.hostname == (if s.protocol == Some(TCP) || s.publish == Some(false) then None
                                    else if TrimSpace(s.hostname) != "" then Some(TrimSpace(s.hostname))
                                    else if confirmed != "" then Some(confirmed)
                                    else None)
  {
    hide BuildTunnelConfig, ReadConfig, TunnelProperties, TrimSpace, Names.DnsLabel, VersionOf, ModeOf, MinVersionOf,
         EffectiveProtocol, InferTunnelType, RequestedHostname, Published, Accepted, Names.RstreamName, CrdRules;
    var c := BuildTunnelConfig(t, RequestedHostname(t.spec));
    AcceptedSpecIsCarried(t, confirmed, normalize);
    SpecTerms(t.spec);
    ValidatedTCP(t.spec);
    CarriedProperties(t.spec, c, ReadConfig(c), confirmed, normalize);
    NameOfAccepted(c, ReadConfig(c), confirmed, normalize);
    NameTerm(t);
  }

  lemma CarriedProperties(s: TunnelSpec, c: TunnelConfig, r: Reading, confirmed: string, normalize: Normalizer)
    requires CrdRules(s) && Carries(s, c, r)
    requires EffectiveProtocol(s) == TCP || !Published(s) ==> r.hostname == ""
    ensures var p := Accepted(c, r, confirmed, normalize);
            && p.protocol == Some(EffectiveProtocol(s))
            && p.kind == Some(InferTunnelType(s))
            && p.publish == Some(Published(s))
            && p.port == s.tcpPort
            && p.hostname == NonEmpty(
                 if EffectiveProtocol(s) == TCP || !Published(s) then ""
                 else if r.hostname == "" then confirmed
                 else r.hostname)
  {
    assert s.tcpPort.Some? ==> Port32(s.tcpPort.value) == s.tcpPort.value;
    assert KindOf(r) == r.kind;
  }

  lemma NameOfAccepted(c: TunnelConfig, r: Reading, confirmed: string, normalize: Normalizer)
    ensures Accepted(c, r, confirmed, normalize).name == Some(r.name)
  {
  }

  lemma NameTerm(t: Tunnel)
    ensures Names.RstreamName(IdentityOf(t), t.spec.tunnelName)
         == if TrimSpace(t.spec.tunnelName) != "" then TrimSpace(t.spec.tunnelName)
            else Names.DnsLabel(t.key.namespace + "-" + t.key.name)
  {
    hide TrimSpace, Names.DnsLabel;
  }

  /** The derived settings of a spec, in its own terms. */
  lemma SpecTerms(s: TunnelSpec)
    ensures EffectiveProtocol(s) == if s.protocol.Some? then s.protocol.value else HTTP
    ensures InferTunnelType(s)
         == if s.kind.Some? then s.kind.value
            else if s.protocol in {Some(DTLS), Some(QUIC)} then Datagram
            else if s.protocol in {None, Some(HTTP)} && s.http.Some? && s.http.value.version == Some(H3)
                 then Datagram
            else Bytestream
    ensures Published(s) <==> s.publish != Some(false)
    ensures RequestedHostname(s)
         == if s.protocol == Some(TCP) || s.publish == Some(false) then "" else TrimSpace(s.hostname)
  {
    hide TrimSpace;
  }

  /** Then the HTTP section: version, the policy as normalized, authentication and the challenge. */
  lemma AcceptedSpecHTTP(t: Tunnel, confirmed: string, normalize: Normalizer)
    requires CrdRules(t.spec) && ValidateTunnelSpec(t.spec).None? && AgentRefusal(t.spec, normalize).None?
    ensures var r := TunnelProperties(BuildTunnelConfig(t, RequestedHostname(t.spec)), confirmed, normalize);
            && r.Ok?
            && match t.spec.http
               case None =>
                 && r.value.httpVersion == None && r.value.cors == None && r.value.challenge == None
                 && r.value.tokenAuth == None && r.value.rstreamAuth == None
               case Some(h) =>
                 && r.value.httpVersion == Some(if h.version.Some? then h.version.value else HTTP11)
                 && (h.cors.None? ==> r.value.cors == None)
                 && (h.cors.Some? ==> normalize(h.cors.value).Some? && r.value.cors == normalize(h.cors.value))
                 && r.value.tokenAuth == (if h.auth.Some? then h.auth.value.token else None)
                 && r.value.rstreamAuth == (if h.auth.Some? then h.auth.value.rstream else None)
                 && r.value.challenge == (if h.gate.Some? then h.gate.value.challenge else None)
  {
    hide BuildTunnelConfig, ReadConfig, TunnelProperties, TrimSpace, EffectiveProtocol, InferTunnelType,
         RequestedHostname;
    AcceptedSpecIsCarried(t, confirmed, normalize);
  }

  /** Then the TLS section. */
  lemma AcceptedSpecTLS(t: Tunnel, confirmed: string, normalize: Normalizer)
    requires CrdRules(t.spec) && ValidateTunnelSpec(t.spec).None? && AgentRefusal(t.spec, normalize).None?
    ensures var r := TunnelProperties(BuildTunnelConfig(t, RequestedHostname(t.spec)), confirmed, normalize);
            && r.Ok?
            && match t.spec.tls
               case None =>
                 && r.value.tlsMode == None && r.value.tlsMinVersion == None
                 && r.value.alpns == [] && r.value.mtlsAuth == None
               case Some(x) =>
                 && r.value.tlsMode == x.mode && r.value.tlsMinVersion == x.minVersion
                 && r.value.alpns == x.alpns && r.value.mtlsAuth == x.mtls
  {
    hide BuildTunnelConfig, ReadConfig, TunnelProperties, TrimSpace, EffectiveProtocol, InferTunnelType,
         RequestedHostname;
    AcceptedSpecIsCarried(t, confirmed, normalize);
  }

  /** And the rest; the operator's own labels win over the user's. */
  lemma AcceptedSpecRest(t: Tunnel, confirmed: string, normalize: Normalizer)
    requires CrdRules(t.spec) && ValidateTunnelSpec(t.spec).None? && AgentRefusal(t.spec, normalize).None?
    ensures var s, r := t.spec, TunnelProperties(BuildTunnelConfig(t, RequestedHostname(t.spec)), confirmed, normalize);
            && r.Ok?
            && r.value.guaranteedDelivery == s.guaranteedDelivery && r.value.crossRegion == s.crossRegion
            && r.value.trustedIPs == s.trustedIPs && r.value.geoIP == s.geoIP
            && r.value.upstreamTLS == s.upstreamTLS
            && r.value.httpUseTLS == (if s.protocol in {None, Some(HTTP)} then s.upstreamTLS else None)
            && LabelsMean(t, r.value.labels)
  {
    hide BuildTunnelConfig, ReadConfig, TunnelProperties, TrimSpace, InferTunnelType, RequestedHostname;
    AcceptedSpecIsCarried(t, confirmed, normalize);
    ConfigLabelsMean(t);
  }

  /** The labels say whose tunnel it is, and under any other name what the user said. */
  predicate LabelsMean(t: Tunnel, labels: map<string, string>) {
    var own := {"rstream.managed-by", "rstream.source", "rstream.kubernetes.namespace", "rstream.kubernetes.name"}
               + if t.uid != "" then {"rstream.kubernetes.uid"} else {};
    && labels.Keys == t.spec.labels.Keys + own
    && labels["rstream.managed-by"] == "kubernetes-operator" && labels["rstream.source"] == "kubernetes"
    && labels["rstream.kubernetes.namespace"] == t.key.namespace && labels["rstream.kubernetes.name"] == t.key.name
    && (t.uid != "" ==> labels["rstream.kubernetes.uid"] == t.uid)
    && forall name | name in t.spec.labels && name !in own :: labels[name] == t.spec.labels[name]
  }

  lemma ConfigLabelsMean(t: Tunnel)
    ensures LabelsMean(t, ConfigLabels(t))
  {
    LabelNamesDiffer();
  }

  lemma LabelNamesDiffer()
    ensures "rstream.managed-by" != "rstream.source" && "rstream.managed-by" != "rstream.kubernetes.namespace"
    ensures "rstream.managed-by" != "rstream.kubernetes.name" && "rstream.managed-by" != "rstream.kubernetes.uid"
    ensures "rstream.source" != "rstream.kubernetes.namespace" && "rstream.source" != "rstream.kubernetes.name"
    ensures "rstream.source" != "rstream.kubernetes.uid"
    ensures "rstream.kubernetes.namespace" != "rstream.kubernetes.name"
    ensures "rstream.kubernetes.namespace" != "rstream.kubernetes.uid"
    ensures "rstream.kubernetes.name" != "rstream.kubernetes.uid"
  {
    assert |"rstream.managed-by"| == 18 && |"rstream.source"| == 14 && |"rstream.kubernetes.namespace"| == 28;
    assert |"rstream.kubernetes.name"| == 23 && |"rstream.kubernetes.uid"| == 22;
  }

  /**
   The agent accepts a configuration, of the manager's making or not, exactly when every rule holds: all texts can be
   read, and the settings go together.
   */
  lemma AcceptsIff(c: TunnelConfig, confirmed: string, normalize: Normalizer)
    ensures var kind, protocol := Read(c.kind, ParseType), Read(c.protocol, ParseProtocol);
            TunnelProperties(c, confirmed, normalize).Ok?
            <==>
              && !Blank(c.name) && !kind.Bad? && !protocol.Bad?
              && (c.tcpPort.Some? ==> protocol == Good(TCP) && c.tcpPort.value != 0 && c.tcpPort.value <= 65535)
              && (protocol == Good(TCP) ==>
                    && c.publish != Some(false) && kind != Good(Datagram) && Blank(c.hostname)
                    && c.http.None? && c.tls.None? && c.guaranteedDelivery != Some(true))
              && (c.guaranteedDelivery == Some(true) ==> kind != Good(Bytestream))
              && (c.http.Some? ==>
                    && (c.http.value.cors.Some? ==>
                          c.publish != Some(false) && normalize(c.http.value.cors.value).Some?)
                    && protocol in {Absent, Good(HTTP)}
                    && !Read(c.http.value.version, ParseVersion).Bad?)
              && (c.tls.Some? ==>
                    && !Read(c.tls.value.mode, ParseMode).Bad? && !Read(c.tls.value.minVersion, ParseMinVersion).Bad?)
  {
    hide Read, TrimSpace, Accepted;
  }

  /** The manager's own validation, rule by rule. */
  lemma ValidatesIff(s: TunnelSpec)
    ensures ValidateTunnelSpec(s).None?
            <==> && (s.tcpPort.Some? ==> s.protocol == Some(TCP))
                 && (s.protocol == Some(TCP) ==>
                       && s.publish != Some(false) && s.kind != Some(Datagram) && Blank(s.hostname)
                       && s.http.None? && s.tls.None? && s.guaranteedDelivery != Some(true))
  {
    assert s.kind.Some? ==> s.kind.value.Bytestream? || s.kind.value.Datagram?;
  }

  /**
   The resource definition and the manager agree: of the objects that pass the definition's rules and have its defaults,
   the manager refuses exactly the TCP tunnels with guaranteed delivery.
   */
  lemma RulesAgree(s: TunnelSpec)
    requires CrdRules(s) && Defaulted(s)
    ensures ValidateTunnelSpec(s).Some? <==> s.protocol == Some(TCP) && s.guaranteedDelivery == Some(true)
  {
    ValidatesIff(s);
    TrimIsTrimmed("", IsSpace);
  }
}
