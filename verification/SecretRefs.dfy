/** The Secrets of a connection: which ones it refers to, in which order they are read, what reading them yields. */
module SecretRefs {
  import opened Wrappers
  import opened Text
  import opened Api
  import opened Ordering

  const DEFAULT_CONNECTION := "default"

  function ConnectionName(t: Tunnel): string {
    if t.spec.connectionRef.None? || t.spec.connectionRef.value == "" then DEFAULT_CONNECTION
    else t.spec.connectionRef.value
  }

  /** By name, then by key. */
  predicate RefLess(a: SecretRef, b: SecretRef) {
    if a.name == b.name then Less(a.key, b.key) else Less(a.name, b.name)
  }

  lemma RefOrder()
    ensures StrictTotal(RefLess)
  {
    StringOrder();
    forall a: SecretRef
      ensures !RefLess(a, a)
    {
      LessIrreflexive(a.key);
    }
    forall a: SecretRef, b: SecretRef
      ensures RefLess(a, b) || RefLess(b, a) || a == b
    {
      LessConnected(a.name, b.name);
      LessConnected(a.key, b.key);
    }
    forall a: SecretRef, b: SecretRef, c: SecretRef | RefLess(a, b) && RefLess(b, c)
      ensures RefLess(a, c)
    {
      RefTransitive(a, b, c);
    }
  }

  lemma RefTransitive(a: SecretRef, b: SecretRef, c: SecretRef)
    requires RefLess(a, b) && RefLess(b, c)
    ensures RefLess(a, c)
  {
    if a.name == b.name && b.name == c.name {
      LessTransitive(a.key, b.key, c.key);
    } else if a.name != b.name && b.name != c.name {
      LessTransitive(a.name, b.name, c.name);
      if a.name == c.name {
        LessIrreflexive(a.name);
      }
    }
  }

  function Given(ref: Option<SecretRef>): set<SecretRef> {
    if ref.Some? then {ref.value} else {}
  }

  /** The references whose Secrets the agent itself uses. */
  function AgentSecretSet(c: Connection): set<SecretRef> {
    Given(c.token)
    + (if c.mtls.Some? then {c.mtls.value.cert, c.mtls.value.key} + Given(c.mtls.value.ca) else {})
    + if c.transport.Some? && c.transport.value.proxy.Some?
      then Given(c.transport.value.proxy.value.username) + Given(c.transport.value.proxy.value.password)
      else {}
  }

  function HeaderSecretSet(c: Connection): set<SecretRef> {
    set h | h in c.controlPlaneHeaders :: h.value
  }

  function SecretSet(c: Connection): set<SecretRef> {
    AgentSecretSet(c) + HeaderSecretSet(c)
  }

  function SecretNames(refs: set<SecretRef>): set<string> {
    set ref | ref in refs :: ref.name
  }

  function AgentSecretNames(c: Connection): set<string> {
    SecretNames(AgentSecretSet(c))
  }

  ghost function AgentSecretList(c: Connection): seq<SecretRef> {
    RefOrder();
    Canonical(RefLess, AgentSecretSet(c))
  }

  ghost function SecretList(c: Connection): seq<SecretRef> {
    RefOrder();
    Canonical(RefLess, SecretSet(c))
  }

  /** `agentSecretRefs`: fill a set reference by reference, then sort. */
  method AgentSecretRefs(c: Connection) returns (refs: seq<SecretRef>)
    ensures refs == AgentSecretList(c)
  {
    var unique: set<SecretRef> := {};
    if c.token.Some? {
      unique := unique + {c.token.value};
    }
    if c.mtls.Some? {
      unique := unique + {c.mtls.value.cert};
      unique := unique + {c.mtls.value.key};
      if c.mtls.value.ca.Some? {
        unique := unique + {c.mtls.value.ca.value};
      }
    }
    if c.transport.Some? && c.transport.value.proxy.Some? {
      var proxy := c.transport.value.proxy.value;
      if proxy.username.Some? {
        unique := unique + {proxy.username.value};
      }
      if proxy.password.Some? {
        unique := unique + {proxy.password.value};
      }
    }
    assert unique == AgentSecretSet(c);
    RefOrder();
    refs := CollectSorted(RefLess, unique);
  }

  /** `secretRefs`: the agent's references and those of the Control plane headers. */
  method AllSecretRefs(c: Connection) returns (refs: seq<SecretRef>)
    ensures refs == SecretList(c)
  {
    var unique: set<SecretRef> := {};
    var own := AgentSecretRefs(c);
    RefOrder();
    for i := 0 to |own|
      invariant unique == set ref | ref in own[..i]
    {
      assert own[..i + 1] == own[..i] + [own[i]];
      unique := unique + {own[i]};
    }
    assert own[..|own|] == own;
    assert unique == AgentSecretSet(c);
    for i := 0 to |c.controlPlaneHeaders|
      invariant unique == AgentSecretSet(c) + set h | h in c.controlPlaneHeaders[..i] :: h.value
    {
      assert c.controlPlaneHeaders[..i + 1] == c.controlPlaneHeaders[..i] + [c.controlPlaneHeaders[i]];
      unique := unique + {c.controlPlaneHeaders[i].value};
    }
    assert c.controlPlaneHeaders[..|c.controlPlaneHeaders|] == c.controlPlaneHeaders;
    assert unique == SecretSet(c);
    refs := CollectSorted(RefLess, unique);
  }

  predicate References(c: Connection, secret: string) {
    exists ref | ref in SecretSet(c) :: ref.name == secret
  }

  /** `connectionReferencesSecret`. */
  method ReferencesSecret(c: Connection, secret: string) returns (found: bool)
    ensures found == References(c, secret)
  {
    var refs := AllSecretRefs(c);
    RefOrder();
    for i := 0 to |refs|
      invariant forall j | 0 <= j < i :: refs[j].name != secret
    {
      if refs[i].name == secret {
        assert refs[i] in refs;
        return true;
      }
    }
    return false;
  }

  /** What has been collected from the Secrets read so far. */
  datatype Found = Found(token: string, headers: map<string, string>, versions: map<string, string>)

  const NOTHING := Found("", map[], map[])

  datatype SecretError = SecretNotFound(name: string) | KeyMissing(ref: SecretRef)

  /** `addControlPlaneHeaders`, over the rest `list` of the headers. */
  function AddHeaders(headers: map<string, string>, list: seq<Header>, ref: SecretRef, value: string)
    : map<string, string>
    decreases list
  {
    if list == [] then headers
    else AddHeaders(if list[0].value == ref then headers[list[0].name := TrimSpace(value)] else headers, list[1..],
                    ref, value)
  }

  method AddControlPlaneHeaders(headers: map<string, string>, list: seq<Header>, ref: SecretRef, value: string)
    returns (r: map<string, string>)
    ensures r == AddHeaders(headers, list, ref, value)
  {
    r := headers;
    for i := 0 to |list|
      invariant AddHeaders(headers, list, ref, value) == AddHeaders(r, list[i..], ref, value)
    {
      assert list[i..][0] == list[i] && list[i..][1..] == list[i + 1..];
      if list[i].value == ref {
        r := r[list[i].name := TrimSpace(value)];
      }
    }
  }

  /** The object a reference points to, and its value under the reference's key. */
  function SecretKey(c: Connection, ref: SecretRef): Key {
    Key(c.key.namespace, ref.name)
  }

  predicate Readable(c: Connection, secrets: map<Key, Secret>, ref: SecretRef) {
    SecretKey(c, ref) in secrets && ref.key in secrets[SecretKey(c, ref)].data
  }

  function Value(c: Connection, secrets: map<Key, Secret>, ref: SecretRef): string
    requires Readable(c, secrets, ref)
  {
    secrets[SecretKey(c, ref)].data[ref.key]
  }

  /** One round of the loop over the references, once the Secret was read. */
  function Take(c: Connection, found: Found, ref: SecretRef, secret: Secret): Found
    requires ref.key in secret.data
  {
    Found(
      if c.token == Some(ref) then TrimSpace(secret.data[ref.key]) else found.token,
      AddHeaders(found.headers, c.controlPlaneHeaders, ref, secret.data[ref.key]),
      if ref.name in AgentSecretNames(c) then found.versions[ref.name := secret.resourceVersion] else found.versions)
  }

  /** Reading one Secret. */
  function Read(c: Connection, secrets: map<Key, Secret>, found: Found, ref: SecretRef): Result<Found, SecretError> {
    var key := SecretKey(c, ref);
    if key !in secrets then Err(SecretNotFound(ref.name))
    else if ref.key !in secrets[key].data then Err(KeyMissing(ref))
    else Ok(Take(c, found, ref, secrets[key]))
  }

  /** The loop over the remaining references. */
  function Gather(c: Connection, secrets: map<Key, Secret>, refs: seq<SecretRef>, found: Found)
    : Result<Found, SecretError>
    decreases refs
  {
    if refs == [] then Ok(found)
    else
      match Read(c, secrets, found, refs[0])
      case Err(e) => Err(e)
      case Ok(more) => Gather(c, secrets, refs[1..], more)
  }

  /** The headers whose value `ref` gives. */
  function HeadersOf(list: seq<Header>, ref: SecretRef): set<string> {
    set h | h in list && h.value == ref :: h.name
  }

  lemma HeadersOfCons(list: seq<Header>, ref: SecretRef)
    requires list != []
    ensures HeadersOf(list, ref) == HeadersOf(list[1..], ref) + if list[0].value == ref then {list[0].name} else {}
  {
    assert list == [list[0]] + list[1..];
  }

  lemma Overlay(headers: map<string, string>, name: string, names: set<string>, value: string)
    ensures headers[name := value] + (map n | n in names :: value) == headers + map n | n in names + {name} :: value
  {
  }

  lemma {:induction false} AddHeadersEffect(headers: map<string, string>, list: seq<Header>, ref: SecretRef,
                                            value: string)
    ensures AddHeaders(headers, list, ref, value)
         == headers + map name | name in HeadersOf(list, ref) :: TrimSpace(value)
    decreases list
  {
    hide HeadersOf, TrimSpace;
    if list == [] {
      NoHeaders(ref);
    } else {
      var rest := HeadersOf(list[1..], ref);
      HeadersOfCons(list, ref);
      if list[0].value == ref {
        AddHeadersEffect(headers[list[0].name := TrimSpace(value)], list[1..], ref, value);
        Overlay(headers, list[0].name, rest, TrimSpace(value));
      } else {
        AddHeadersEffect(headers, list[1..], ref, value);
        assert rest + {} == rest;
      }
    }
  }

  lemma NoHeaders(ref: SecretRef)
    ensures HeadersOf([], ref) == {}
  {
  }

  /** `h` gives its header's value: among the headers of its name, its reference comes last. */
  predicate Wins(c: Connection, done: set<SecretRef>, h: Header) {
    && h in c.controlPlaneHeaders && h.value in done
    && forall g | g in c.controlPlaneHeaders && g.name == h.name && g.value in done :: !RefLess(h.value, g.value)
  }

  predicate HeadersCollected(c: Connection, secrets: map<Key, Secret>, done: set<SecretRef>,
                             headers: map<string, string>)
    requires forall ref | ref in done :: Readable(c, secrets, ref)
  {
    && headers.Keys == (set h | h in c.controlPlaneHeaders && h.value in done :: h.name)
    && forall h | h in c.controlPlaneHeaders && Wins(c, done, h) ::
         h.name in headers && headers[h.name] == TrimSpace(Value(c, secrets, h.value))
  }

  function VersionAt(secrets: map<Key, Secret>, key: Key): string {
    if key in secrets then secrets[key].resourceVersion else ""
  }

  /** The versions that count for the agent. */
  function VersionsOf(c: Connection, secrets: map<Key, Secret>, done: set<SecretRef>): map<string, string> {
    map name | name in SecretNames(done) * AgentSecretNames(c) :: VersionAt(secrets, Key(c.key.namespace, name))
  }

  /** What `found` must be once exactly the references in `done` have been read. */
  predicate Collected(c: Connection, secrets: map<Key, Secret>, done: set<SecretRef>, found: Found) {
    && (forall ref | ref in done :: Readable(c, secrets, ref))
    && found.token == (if c.token.Some? && c.token.value in done then TrimSpace(Value(c, secrets, c.token.value))
                       else "")
    && HeadersCollected(c, secrets, done, found.headers)
    && found.versions == VersionsOf(c, secrets, done)
  }

  lemma HeadersTaken(c: Connection, secrets: map<Key, Secret>, done: set<SecretRef>, headers: map<string, string>,
                     ref: SecretRef)
    requires forall r | r in done + {ref} :: Readable(c, secrets, r)
    requires HeadersCollected(c, secrets, done, headers)
    requires forall d | d in done :: RefLess(d, ref)
    ensures HeadersCollected(c, secrets, done + {ref},
                             AddHeaders(headers, c.controlPlaneHeaders, ref, Value(c, secrets, ref)))
  {
    var value := Value(c, secrets, ref);
    var more := AddHeaders(headers, c.controlPlaneHeaders, ref, value);
    AddHeadersEffect(headers, c.controlPlaneHeaders, ref, value);
    forall h | h in c.controlPlaneHeaders && Wins(c, done + {ref}, h)
      ensures h.name in more && more[h.name] == TrimSpace(Value(c, secrets, h.value))
    {
      if h.value != ref {
        assert h.name !in HeadersOf(c.controlPlaneHeaders, ref);
        assert Wins(c, done, h);
      }
    }
  }

  lemma VersionsTaken(c: Connection, secrets: map<Key, Secret>, done: set<SecretRef>, ref: SecretRef)
    requires Readable(c, secrets, ref)
    ensures VersionsOf(c, secrets, done + {ref})
         == if ref.name in AgentSecretNames(c)
            then VersionsOf(c, secrets, done)[ref.name := secrets[SecretKey(c, ref)].resourceVersion]
            else VersionsOf(c, secrets, done)
  {
    hide AgentSecretSet;
    assert SecretNames(done + {ref}) == SecretNames(done) + {ref.name};
  }

  lemma TakeCollects(c: Connection, secrets: map<Key, Secret>, done: set<SecretRef>, found: Found, ref: SecretRef)
    requires Collected(c, secrets, done, found) && Readable(c, secrets, ref)
    requires forall d | d in done :: RefLess(d, ref)
    ensures Collected(c, secrets, done + {ref}, Take(c, found, ref, secrets[SecretKey(c, ref)]))
  {
    hide HeadersCollected, VersionsOf, AgentSecretNames, AddHeaders, Text.TrimSpace, RefLess;
    HeadersTaken(c, secrets, done, found.headers, ref);
    VersionsTaken(c, secrets, done, ref);
    if c.token == Some(ref) {
    } else {
      assert c.token.Some? && c.token.value in done + {ref} ==> c.token.value in done;
    }
  }

  /** `refs` are in order, and all come after `done`. */
  predicate Follows(done: set<SecretRef>, refs: seq<SecretRef>) {
    Sorted(RefLess, refs) && forall d, i | d in done && 0 <= i < |refs| :: RefLess(d, refs[i])
  }

  lemma FirstFollows(done: set<SecretRef>, refs: seq<SecretRef>)
    requires refs != [] && Follows(done, refs)
    ensures forall d | d in done :: RefLess(d, refs[0])
    ensures Follows(done + {refs[0]}, refs[1..])
    ensures done + {refs[0]} + (set r | r in refs[1..]) == done + (set r | r in refs)
  {
    hide RefLess;
    assert refs == [refs[0]] + refs[1..];
  }

  predicate AllReadable(c: Connection, secrets: map<Key, Secret>, refs: seq<SecretRef>) {
    forall i | 0 <= i < |refs| :: Readable(c, secrets, refs[i])
  }

  lemma AllReadableCons(c: Connection, secrets: map<Key, Secret>, refs: seq<SecretRef>)
    requires refs != []
    ensures AllReadable(c, secrets, refs) <==> Readable(c, secrets, refs[0]) && AllReadable(c, secrets, refs[1..])
  {
    hide Readable;
    assert refs == [refs[0]] + refs[1..];
  }

  /** Reading succeeds exactly when every reference can be read, and then collects exactly what it should. */
  lemma {:induction false} GatherCollects(c: Connection, secrets: map<Key, Secret>, done: set<SecretRef>,
                                          refs: seq<SecretRef>, found: Found)
    requires Collected(c, secrets, done, found) && Follows(done, refs)
    ensures Gather(c, secrets, refs, found).Ok? <==> AllReadable(c, secrets, refs)
    ensures Gather(c, secrets, refs, found).Ok? ==>
              Collected(c, secrets, done + (set ref | ref in refs), Gather(c, secrets, refs, found).value)
    decreases refs
  {
    hide Collected, Take, Follows, AllReadable, RefLess;
    if refs == [] {
      assert AllReadable(c, secrets, refs) by { NothingToRead(c, secrets); }
      assert done + (set ref | ref in refs) == done;
    } else {
      AllReadableCons(c, secrets, refs);
      FirstFollows(done, refs);
      if Readable(c, secrets, refs[0]) {
        TakeCollects(c, secrets, done, found, refs[0]);
        GatherCollects(c, secrets, done + {refs[0]}, refs[1..],
                       Take(c, found, refs[0], secrets[SecretKey(c, refs[0])]));
      }
    }
  }

  lemma NothingToRead(c: Connection, secrets: map<Key, Secret>)
    ensures AllReadable(c, secrets, [])
  {
  }

  /**
   What `resolveConnection` hands on: the trimmed token, for every header the value of its last reference, and the
   versions of exactly the agent's Secrets, whether or not one of them also serves a header.
   */
  lemma ConnectionSecrets(c: Connection, secrets: map<Key, Secret>)
    ensures Gather(c, secrets, SecretList(c), NOTHING).Ok?
            <==> forall ref | ref in SecretSet(c) :: Readable(c, secrets, ref)
    ensures Gather(c, secrets, SecretList(c), NOTHING).Ok? ==>
              && Collected(c, secrets, SecretSet(c), Gather(c, secrets, SecretList(c), NOTHING).value)
              && Gather(c, secrets, SecretList(c), NOTHING).value.versions.Keys == AgentSecretNames(c)
  {
    RefOrder();
    assert Collected(c, secrets, {}, NOTHING);
    GatherCollects(c, secrets, {}, SecretList(c), NOTHING);
    assert (set ref | ref in SecretList(c)) == SecretSet(c);
    assert {} + SecretSet(c) == SecretSet(c);
  }

  /** The Secret a reference names is in the namespace and has the key. */
  predicate Holds(secrets: map<Key, Secret>, namespace: string, ref: SecretRef) {
    Key(namespace, ref.name) in secrets && ref.key in secrets[Key(namespace, ref.name)].data
  }

  predicate HoldsIfGiven(secrets: map<Key, Secret>, namespace: string, ref: Option<SecretRef>) {
    ref.Some? ==> Holds(secrets, namespace, ref.value)
  }

  /** Everything a connection refers to, one by one: token, client certificate, proxy credentials and headers. */
  predicate HoldsAll(c: Connection, secrets: map<Key, Secret>) {
    var ns := c.key.namespace;
    && HoldsIfGiven(secrets, ns, c.token)
    && (c.mtls.Some? ==>
          Holds(secrets, ns, c.mtls.value.cert) && Holds(secrets, ns, c.mtls.value.key)
          && HoldsIfGiven(secrets, ns, c.mtls.value.ca))
    && (c.transport.Some? && c.transport.value.proxy.Some? ==>
          && HoldsIfGiven(secrets, ns, c.transport.value.proxy.value.username)
          && HoldsIfGiven(secrets, ns, c.transport.value.proxy.value.password))
    && forall i | 0 <= i < |c.controlPlaneHeaders| :: Holds(secrets, ns, c.controlPlaneHeaders[i].value)
  }

  /**
   Reading a connection's Secrets, in the connection's own terms: it succeeds exactly when everything it refers to is
   there, and then gives the trimmed token and, under every header's name, the trimmed value of the last of the
   references that the name has.
   */
  lemma ConnectionReads(c: Connection, secrets: map<Key, Secret>)
    ensures Gather(c, secrets, SecretList(c), NOTHING).Ok? <==> HoldsAll(c, secrets)
    ensures SecretList(c) == [] <==>
              && c.token.None? && c.mtls.None? && c.controlPlaneHeaders == []
              && (c.transport.Some? && c.transport.value.proxy.Some? ==>
                    c.transport.value.proxy.value.username.None? && c.transport.value.proxy.value.password.None?)
    ensures HoldsAll(c, secrets) ==>
              FoundMeans(c, secrets, Gather(c, secrets, SecretList(c), NOTHING).value)
  {
    ConnectionSecrets(c, secrets);
    AllReadableIff(c, secrets);
    RefOrder();
    EmptyIsCanonical(RefLess, SecretSet(c), SecretList(c));
    EmptyIff(c);
    if HoldsAll(c, secrets) {
      CollectedMeans(c, secrets, Gather(c, secrets, SecretList(c), NOTHING).value);
    }
  }

  predicate FoundMeans(c: Connection, secrets: map<Key, Secret>, found: Found)
    requires HoldsAll(c, secrets)
  {
    var ns, headers := c.key.namespace, c.controlPlaneHeaders;
    && found.token == (if c.token.None? then ""
                       else TrimSpace(secrets[Key(ns, c.token.value.name)].data[c.token.value.key]))
    && found.headers.Keys == (set h | h in headers :: h.name)
    && forall i | 0 <= i < |headers| && IsLast(headers, i) :: HeaderMeans(c, secrets, found.headers, i)
  }

  /** No other header of the same name has a later reference, by Secret name and then by key. */
  predicate IsLast(headers: seq<Header>, i: nat)
    requires i < |headers|
  {
    forall j | 0 <= j < |headers| && headers[j].name == headers[i].name ::
      !RefLess(headers[i].value, headers[j].value)
  }

  /** The references of a connection, one by one. */
  lemma AgentRefs(c: Connection, ref: SecretRef)
    ensures ref in AgentSecretSet(c) <==>
              || c.token == Some(ref)
              || (c.mtls.Some? && (ref == c.mtls.value.cert || ref == c.mtls.value.key || c.mtls.value.ca == Some(ref)))
              || (c.transport.Some? && c.transport.value.proxy.Some?
                  && (c.transport.value.proxy.value.username == Some(ref)
                      || c.transport.value.proxy.value.password == Some(ref)))
  {
  }

  lemma AllReadableIff(c: Connection, secrets: map<Key, Secret>)
    ensures (forall ref | ref in SecretSet(c) :: Readable(c, secrets, ref)) <==> HoldsAll(c, secrets)
  {
    hide AgentSecretSet, HeaderSecretSet;
    HeaderRefs(c);
    forall ref
      ensures Readable(c, secrets, ref) <==> Holds(secrets, c.key.namespace, ref)
    {
    }
    forall ref: SecretRef
      ensures ref in AgentSecretSet(c) <==>
                || c.token == Some(ref)
                || (c.mtls.Some?
                    && (ref == c.mtls.value.cert || ref == c.mtls.value.key || c.mtls.value.ca == Some(ref)))
                || (c.transport.Some? && c.transport.value.proxy.Some?
                    && (c.transport.value.proxy.value.username == Some(ref)
                        || c.transport.value.proxy.value.password == Some(ref)))
    {
      AgentRefs(c, ref);
    }
    if forall ref | ref in SecretSet(c) :: Readable(c, secrets, ref) {
      forall i | 0 <= i < |c.controlPlaneHeaders|
        ensures Holds(secrets, c.key.namespace, c.controlPlaneHeaders[i].value)
      {
        assert c.controlPlaneHeaders[i].value in SecretSet(c);
      }
      forall ref | ref in AgentSecretSet(c)
        ensures Holds(secrets, c.key.namespace, ref)
      {
        assert ref in SecretSet(c);
      }
    }
  }

  lemma HeaderRefs(c: Connection)
    ensures forall i | 0 <= i < |c.controlPlaneHeaders| :: c.controlPlaneHeaders[i].value in HeaderSecretSet(c)
    ensures forall ref | ref in HeaderSecretSet(c) ::
              exists i :: 0 <= i < |c.controlPlaneHeaders| && c.controlPlaneHeaders[i].value == ref
  {
    forall i | 0 <= i < |c.controlPlaneHeaders|
      ensures c.controlPlaneHeaders[i].value in HeaderSecretSet(c)
    {
      assert c.controlPlaneHeaders[i] in c.controlPlaneHeaders;
    }
  }

  lemma EmptyIff(c: Connection)
    ensures SecretSet(c) == {} <==>
              && c.token.None? && c.mtls.None? && c.controlPlaneHeaders == []
              && (c.transport.Some? && c.transport.value.proxy.Some? ==>
                    c.transport.value.proxy.value.username.None? && c.transport.value.proxy.value.password.None?)
  {
    HeaderRefs(c);
    if c.mtls.Some? {
      assert c.mtls.value.cert in SecretSet(c);
    }
    if c.token.Some? {
      assert c.token.value in SecretSet(c);
    }
    if c.controlPlaneHeaders != [] {
      assert c.controlPlaneHeaders[0].value in SecretSet(c);
    }
    if c.transport.Some? && c.transport.value.proxy.Some? {
      var proxy := c.transport.value.proxy.value;
      assert proxy.username.Some? ==> proxy.username.value in SecretSet(c);
      assert proxy.password.Some? ==> proxy.password.value in SecretSet(c);
    }
  }

  lemma CollectedMeans(c: Connection, secrets: map<Key, Secret>, found: Found)
    requires HoldsAll(c, secrets) && Collected(c, secrets, SecretSet(c), found)
    ensures FoundMeans(c, secrets, found)
  {
    hide AgentSecretNames, VersionsOf, TrimSpace, SecretSet, HeadersCollected, IsLast;
    TokenIsRead(c);
    HeaderNames(c, secrets, found.headers);
    forall i | 0 <= i < |c.controlPlaneHeaders| && IsLast(c.controlPlaneHeaders, i)
      ensures HeaderMeans(c, secrets, found.headers, i)
    {
      LastIsFound(c, secrets, found.headers, i);
    }
  }

  /** A header's trimmed value is found under its name. */
  predicate HeaderMeans(c: Connection, secrets: map<Key, Secret>, headers: map<string, string>, i: nat)
    requires HoldsAll(c, secrets) && i < |c.controlPlaneHeaders|
  {
    var h := c.controlPlaneHeaders[i];
    h.name in headers && headers[h.name] == TrimSpace(secrets[Key(c.key.namespace, h.value.name)].data[h.value.key])
  }

  lemma HeaderNames(c: Connection, secrets: map<Key, Secret>, headers: map<string, string>)
    requires forall ref | ref in SecretSet(c) :: Readable(c, secrets, ref)
    requires HeadersCollected(c, secrets, SecretSet(c), headers)
    ensures headers.Keys == set h | h in c.controlPlaneHeaders :: h.name
  {
    hide SecretSet, Wins;
    forall i | 0 <= i < |c.controlPlaneHeaders|
      ensures c.controlPlaneHeaders[i].value in SecretSet(c)
    {
      HeaderIsRead(c, i);
    }
  }

  lemma LastIsFound(c: Connection, secrets: map<Key, Secret>, headers: map<string, string>, i: nat)
    requires HoldsAll(c, secrets) && forall ref | ref in SecretSet(c) :: Readable(c, secrets, ref)
    requires HeadersCollected(c, secrets, SecretSet(c), headers)
    requires i < |c.controlPlaneHeaders| && IsLast(c.controlPlaneHeaders, i)
    ensures HeaderMeans(c, secrets, headers, i)
  {
    hide SecretSet, Wins, TrimSpace;
    LastWins(c, i);
    HeaderIsRead(c, i);
  }

  lemma TokenIsRead(c: Connection)
    ensures c.token.Some? ==> c.token.value in SecretSet(c)
  {
  }

  lemma HeaderIsRead(c: Connection, i: nat)
    requires i < |c.controlPlaneHeaders|
    ensures c.controlPlaneHeaders[i] in c.controlPlaneHeaders && c.controlPlaneHeaders[i].value in SecretSet(c)
  {
    hide AgentSecretSet;
    HeaderRefs(c);
  }

  lemma LastWins(c: Connection, i: nat)
    requires i < |c.controlPlaneHeaders| && IsLast(c.controlPlaneHeaders, i)
    ensures Wins(c, SecretSet(c), c.controlPlaneHeaders[i])
  {
    hide RefLess, SecretSet;
    HeaderIsRead(c, i);
  }
}
