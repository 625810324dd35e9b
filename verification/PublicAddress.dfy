/** `confirmedHostname`: which stored hostname the agent may ask for again. */
module PublicAddress {
  import opened Wrappers
  import opened Text
  import opened TunnelStatus

  predicate Letter(c: char) {
    'a' <= c <= 'z' || 'A' <= c <= 'Z'
  }

  predicate Digit(c: char) {
    '0' <= c <= '9'
  }

  /** A scheme of section 3.1 of RFC 3986. */
  predicate IsScheme(s: string) {
    && s != [] && Letter(s[0])
    && forall i | 0 <= i < |s| :: Letter(s[i]) || Digit(s[i]) || s[i] == '+' || s[i] == '-' || s[i] == '.'
  }

  /** The part of a text before the first character in which an authority ends. */
  function UntilPath(s: string): string {
    if s == [] || s[0] == '/' || s[0] == '?' || s[0] == '#' then [] else [s[0]] + UntilPath(s[1..])
  }

  /** The position of the last `c`, or -1. */
  function LastIndex(s: string, c: char): (r: int)
    ensures -1 <= r < |s|
    ensures r >= 0 ==> s[r] == c
    ensures forall i | r < i < |s| :: s[i] != c
  {
    if s == [] then -1
    else if s[|s| - 1] == c then |s| - 1
    else LastIndex(s[..|s| - 1], c)
  }

  /** The authority of a reference, section 3.2 of RFC 3986; empty when it has none, None when it is malformed. */
  function Authority(endpoint: string): Option<string> {
    if endpoint != [] && endpoint[0] == '/' then
      Some(if |endpoint| >= 2 && endpoint[1] == '/' then UntilPath(endpoint[2..]) else "")
    else
      var p := Cut(endpoint, ":");
      if !p.found || !IsScheme(p.before) then None
      else Some(if |p.after| >= 2 && p.after[0] == '/' && p.after[1] == '/' then UntilPath(p.after[2..]) else "")
  }

  /** Characters `url.Parse` accepts in a host. */
  predicate HostChar(c: char) {
    || Letter(c) || Digit(c) || c as int >= 128
    || c == '!' || c == '"' || c == '$' || '&' <= c <= '.' || ':' <= c <= '>'
    || c == '[' || c == ']' || c == '_' || c == '~'
  }

  predicate AllDigits(s: string) {
    forall i | 0 <= i < |s| :: Digit(s[i])
  }

  predicate HostChars(s: string) {
    forall i | 0 <= i < |s| :: HostChar(s[i])
  }

  /** `URL.Hostname`: user information and port are cut off, brackets stripped. */
  function Hostname(authority: string): Option<string> {
    var hostPort := authority[LastIndex(authority, '@') + 1..];
    if HostChars(hostPort) then StripPort(hostPort) else None
  }

  function StripPort(hostPort: string): Option<string> {
    var colon := LastIndex(hostPort, ':');
    if colon < 0 then Some(Unbracket(hostPort))
    else if AllDigits(hostPort[colon + 1..]) then Some(Unbracket(hostPort[..colon]))
    else if hostPort[0] == '[' && hostPort[|hostPort| - 1] == ']' then Some(Unbracket(hostPort))
    else None
  }

  function Unbracket(host: string): string {
    if |host| >= 2 && host[0] == '[' && host[|host| - 1] == ']' then host[1..|host| - 1] else host
  }

  function EndpointHost(endpoint: string): Option<string> {
    var endpoint := if Contains(endpoint, "://") then endpoint else "//" + endpoint;
    match Authority(endpoint)
    case Some(authority) => Hostname(authority)
    case None => None
  }

  /** The host in the first word of a forwarding address. */
  function AddressHost(forwardingAddress: string): Option<string> {
    EndpointHost(Cut(forwardingAddress, " ").before)
  }

  /** Only a name the engine returned for an online tunnel is reused. */
  function ConfirmedHostname(a: Address): string {
    var host := AddressHost(a.forwardingAddress);
    if host.None? || a.tunnelID == "" || !EqualFold(host.value, a.hostname) then "" else a.hostname
  }

  /** A hostname as an engine serves it. */
  predicate PlainHost(h: string) {
    h != [] && forall i | 0 <= i < |h| :: Letter(h[i]) || Digit(h[i]) || h[i] == '-' || h[i] == '.'
  }

  /** How an engine presents a hostname: a URL, or a bare endpoint, with a port and a note if need be. */
  datatype Presentation = Presentation(scheme: string, port: string, note: string) {
    predicate Valid() {
      && (scheme != "" ==> IsScheme(scheme))
      && AllDigits(port)
    }

    function Endpoint(h: string): string {
      (if scheme != "" then scheme + "://" else "") + HostPort(h)
    }

    function HostPort(h: string): string {
      h + (if port != "" then ":" + port else "")
    }

    function Show(h: string): string {
      Endpoint(h) + (if note != "" then " " + note else "")
    }
  }

  lemma {:induction false} UntilPathAll(s: string)
    requires forall i | 0 <= i < |s| :: s[i] != '/' && s[i] != '?' && s[i] != '#'
    ensures UntilPath(s) == s
  {
    if s != [] {
      UntilPathAll(s[1..]);
    }
  }

  /** The characters of a plain host with a port. */
  predicate Plain(s: string) {
    forall i | 0 <= i < |s| :: Letter(s[i]) || Digit(s[i]) || s[i] == '-' || s[i] == '.' || s[i] == ':'
  }

  lemma HostPortIsPlain(h: string, p: Presentation)
    requires PlainHost(h) && p.Valid()
    ensures Plain(p.HostPort(h))
    ensures UntilPath(p.HostPort(h)) == p.HostPort(h)
  {
    var s := p.HostPort(h);
    assert forall i | |h| < i < |s| :: s[i] == p.port[i - |h| - 1];
    UntilPathAll(s);
  }

  lemma HostnameOfHostPort(h: string, p: Presentation)
    requires PlainHost(h) && p.Valid()
    ensures Hostname(p.HostPort(h)) == Some(h)
  {
    var s := p.HostPort(h);
    HostPortIsPlain(h, p);
    PlainHasNoUser(s);
    StripPortOf(h, p.port);
    assert p.port == "" ==> s == h;
  }

  lemma PlainHasNoUser(s: string)
    requires Plain(s)
    ensures Hostname(s) == StripPort(s)
  {
    assert LastIndex(s, '@') == -1;
    assert s[0..] == s;
    assert HostChars(s);
  }

  lemma StripPortOf(h: string, port: string)
    requires PlainHost(h) && AllDigits(port)
    ensures StripPort(h) == Some(h)
    ensures StripPort(h + (":" + port)) == Some(h)
  {
    assert LastIndex(h, ':') == -1;
    assert Unbracket(h) == h;
    var s := h + (":" + port);
    LastColon(s, h, port);
    assert s[..|h|] == h && s[|h| + 1..] == port;
  }

  lemma LastColon(s: string, h: string, port: string)
    requires s == h + (":" + port) && AllDigits(port)
    ensures LastIndex(s, ':') == |h|
  {
    assert s[|h|] == ':';
    DigitsAreNoColons(port);
    assert forall i | |h| < i < |s| :: s[i] == port[i - |h| - 1];
    LastIndexIs(s, ':', |h|);
  }

  lemma DigitsAreNoColons(s: string)
    requires AllDigits(s)
    ensures forall i | 0 <= i < |s| :: s[i] != ':'
  {
  }

  lemma LastIndexIs(s: string, c: char, k: nat)
    requires k < |s| && s[k] == c && forall i | k < i < |s| :: s[i] != c
    ensures LastIndex(s, c) == k
  {
  }

  lemma EndpointIsFirstWord(h: string, p: Presentation)
    requires PlainHost(h) && p.Valid()
    ensures Cut(p.Show(h), " ").before == p.Endpoint(h)
  {
    var e := p.Endpoint(h);
    HostPortIsPlain(h, p);
    SchemeHasNoSpace(p);
    assert ' ' !in p.HostPort(h);
    if p.note != "" {
      assert p.Show(h) == e + " " + p.note;
      CutConcat(e, " ", p.note);
    } else {
      assert p.Show(h) == e;
      CutAbsent(e, " ");
    }
  }

  lemma SchemeHasNoSpace(p: Presentation)
    requires p.Valid()
    ensures p.scheme != "" ==> ' ' !in p.scheme + "://" && ':' !in p.scheme
  {
  }

  lemma NoSchemeSeparator(s: string)
    requires '/' !in s
    ensures !Contains(s, "://")
  {
    forall i
      ensures !OccursAt(s, "://", i)
    {
      SlashOccurs(s, i);
    }
  }

  lemma SlashOccurs(s: string, i: int)
    ensures OccursAt(s, "://", i) ==> '/' in s
  {
    if OccursAt(s, "://", i) {
      assert s[i + 1] == s[i..i + 3][1];
    }
  }

  lemma EndpointHasSeparator(head: string, tail: string)
    ensures Contains(head + "://" + tail, "://")
  {
    assert OccursAt(head + "://" + tail, "://", |head|);
  }

  lemma AuthorityOfEndpoint(scheme: string, authority: string)
    requires IsScheme(scheme) && UntilPath(authority) == authority
    ensures Authority(scheme + "://" + authority) == Some(authority)
  {
    assert ":" + ("//" + authority) == "://" + authority;
    assert scheme + "://" + authority == scheme + ":" + ("//" + authority);
    AuthorityAfterColon(scheme, "//" + authority);
    assert ("//" + authority)[2..] == authority;
  }

  lemma AuthorityAfterColon(scheme: string, rest: string)
    requires IsScheme(scheme) && |rest| >= 2 && rest[0] == rest[1] == '/'
    ensures Authority(scheme + ":" + rest) == Some(UntilPath(rest[2..]))
  {
    assert ':' !in scheme;
    CutConcat(scheme, ":", rest);
    assert (scheme + ":" + rest)[0] == scheme[0];
  }

  lemma AuthorityOfBare(authority: string)
    requires UntilPath(authority) == authority
    ensures Authority("//" + authority) == Some(authority)
  {
    assert ("//" + authority)[2..] == authority;
  }

  lemma BareEndpointHost(hp: string)
    requires Plain(hp) && UntilPath(hp) == hp
    ensures EndpointHost(hp) == Hostname(hp)
  {
    PlainHasNoSlash(hp);
    NoSchemeSeparator(hp);
    AuthorityOfBare(hp);
  }

  lemma PlainHasNoSlash(s: string)
    requires Plain(s)
    ensures '/' !in s
  {
  }

  lemma UrlHost(scheme: string, hp: string)
    requires IsScheme(scheme) && UntilPath(hp) == hp
    ensures EndpointHost(scheme + "://" + hp) == Hostname(hp)
  {
    EndpointHasSeparator(scheme, hp);
    AuthorityOfEndpoint(scheme, hp);
  }

  lemma EndpointHostOfPresented(h: string, p: Presentation)
    requires PlainHost(h) && p.Valid()
    ensures EndpointHost(p.Endpoint(h)) == Some(h)
  {
    hide EndpointHost, Hostname, UntilPath, Plain;
    HostPortIsPlain(h, p);
    HostnameOfHostPort(h, p);
    if p.scheme == "" {
      assert p.Endpoint(h) == p.HostPort(h);
      BareEndpointHost(p.HostPort(h));
    } else {
      UrlHost(p.scheme, p.HostPort(h));
    }
  }

  /** Parsing an address gives back the host it presents. */
  lemma AddressHostOfShown(h: string, p: Presentation)
    requires PlainHost(h) && p.Valid()
    ensures AddressHost(p.Show(h)) == Some(h)
  {
    EndpointIsFirstWord(h, p);
    EndpointHostOfPresented(h, p);
  }

  /**
   The stored hostname is confirmed exactly when a tunnel was online under it: the tunnel has an id and the
   address the engine returned presents that same hostname.
   */
  lemma ConfirmedIffPresented(id: string, hostname: string, shown: string, p: Presentation)
    requires PlainHost(shown) && p.Valid() && hostname != ""
    ensures ConfirmedHostname(Address(id, hostname, p.Show(shown))) == hostname
            <==> id != "" && EqualFold(shown, hostname)
    ensures ConfirmedHostname(Address(id, hostname, p.Show(shown))) in {"", hostname}
  {
    AddressHostOfShown(shown, p);
  }

  /** For any address whatever: the stored hostname or nothing, and the former only under a host that was read. */
  lemma ConfirmedForAnyAddress(a: Address)
    ensures ConfirmedHostname(a) == a.hostname || ConfirmedHostname(a) == ""
    ensures a.hostname != "" ==>
              (ConfirmedHostname(a) == a.hostname
               <==> a.tunnelID != "" && AddressHost(a.forwardingAddress).Some?
                    && EqualFold(AddressHost(a.forwardingAddress).value, a.hostname))
  {
  }
}
