/**
 What a tunnel's children should be, computed from the cluster, and the index that says which tunnels to look at
 again when one of the objects that computation reads has changed.
 */
module Reconcile {
  import opened Wrappers
  import opened Api
  import opened AgentConfig
  import opened Ordering
  import opened Services
  import opened SecretRefs
  import opened Workload
  import Text

  /** The part of the Control plane's answer that ends up in the children. */
  datatype Resolution = Resolution(engine: string, stableDomainEngine: string)

  /**
   The manager's image, and the Control plane, the YAML encoder, the digest and the error texts as fixed functions.
   */
  datatype Env = Env(
    agentImage: string,
    resolve: (Connection, string, map<string, string>) -> Result<Resolution, string>,
    marshal: Config -> string,
    digest: string -> string,
    describe: Block -> string)

  datatype Cluster = Cluster(
    tunnels: map<Key, Tunnel>, connections: map<Key, Connection>, secrets: map<Key, Secret>,
    services: map<Key, Service>)

  /** Objects are filed under their own keys. */
  predicate Keyed(cl: Cluster) {
    && (forall k | k in cl.tunnels :: cl.tunnels[k].key == k)
    && (forall k | k in cl.connections :: cl.connections[k].key == k)
    && (forall k | k in cl.services :: cl.services[k].key == k)
  }

  datatype Resolved = Resolved(connection: Connection, engine: string, stableDomainEngine: string,
                               versions: seq<string>)

  /** What `applyChildren` gets, and the target that is reported after it. */
  datatype Plan = Plan(connection: Connection, target: ResolvedTarget, options: Options)

  datatype Block =
    | InvalidSpec(spec: SpecError)
    | ConnectionNotFound
    | NoSecretRefs
    | BadSecret(secret: SecretError)
    | Unresolved(error: string)
    | BadTarget(target: TargetError)

  function Lookup<V>(m: map<Key, V>, key: Key): Option<V> {
    if key in m then Some(m[key]) else None
  }

  function ConnectionKey(t: Tunnel): Key {
    Key(t.key.namespace, ConnectionName(t))
  }

  /** The end of `resolveConnection`, from the loop over the Secrets on. */
  ghost function Conclude(env: Env, c: Connection, gathered: Result<Found, SecretError>): Result<Resolved, Block> {
    match gathered
    case Err(e) => Err(BadSecret(e))
    case Ok(found) =>
      match env.resolve(c, found.token, found.headers)
      case Err(error) => Err(Unresolved(error))
      case Ok(r) => Ok(Resolved(c, r.engine, r.stableDomainEngine, VersionList(found.versions)))
  }

  ghost function ResolveWith(env: Env, c: Connection, secrets: map<Key, Secret>): Result<Resolved, Block> {
    if SecretList(c) == [] then Err(NoSecretRefs) else Conclude(env, c, Gather(c, secrets, SecretList(c), NOTHING))
  }

  ghost function ResolveConnection(env: Env, cl: Cluster, t: Tunnel): Result<Resolved, Block> {
    match Lookup(cl.connections, ConnectionKey(t))
    case None => Err(ConnectionNotFound)
    case Some(c) => ResolveWith(env, c, cl.secrets)
  }

  function PlanFor(env: Env, t: Tunnel, r: Resolved, target: ResolvedTarget): Plan {
    var config := BuildAgentConfig(t, r.connection, target, r.engine, r.stableDomainEngine);
    Plan(r.connection, target, Options(env.agentImage, env.marshal(config), r.versions, env.digest))
  }

  /** The end of `Reconcile`, from the result of `resolveConnection` up to `applyChildren`. */
  function FinishPlan(env: Env, services: map<Key, Service>, t: Tunnel, resolved: Result<Resolved, Block>)
    : Result<Plan, Block>
  {
    match resolved
    case Err(b) => Err(b)
    case Ok(r) =>
      match ResolveTarget(t, services)
      case Err(e) => Err(BadTarget(e))
      case Ok(target) => Ok(PlanFor(env, t, r, target))
  }

  /** What reconciling `t` comes to in a cluster that stands still. */
  ghost function Outcome(env: Env, cl: Cluster, t: Tunnel): Result<Plan, Block> {
    match ValidateTunnelSpec(t.spec)
    case Some(e) => Err(InvalidSpec(e))
    case None => FinishPlan(env, cl.services, t, ResolveConnection(env, cl, t))
  }

  /** `resolveConnection`, with its loop over the references. */
  method ReadConnection(env: Env, cl: Cluster, t: Tunnel) returns (r: Result<Resolved, Block>)
    ensures r == ResolveConnection(env, cl, t)
  {
    if ConnectionKey(t) !in cl.connections {
      return Err(ConnectionNotFound);
    }
    var c := cl.connections[ConnectionKey(t)];
    var refs := AllSecretRefs(c);
    if |refs| == 0 {
      return Err(NoSecretRefs);
    }
    var found := NOTHING;
    for i := 0 to |refs|
      invariant Gather(c, cl.secrets, refs, NOTHING) == Gather(c, cl.secrets, refs[i..], found)
    {
      assert refs[i..][0] == refs[i] && refs[i..][1..] == refs[i + 1..];
      var read := Read(c, cl.secrets, found, refs[i]);
      if read.Err? {
        return Err(BadSecret(read.error));
      }
      found := read.value;
    }
    StringOrder();
    var versions := CollectSorted(Less, VersionStrings(found.versions));
    var resolution := env.resolve(c, found.token, found.headers);
    if resolution.Err? {
      return Err(Unresolved(resolution.error));
    }
    return Ok(Resolved(c, resolution.value.engine, resolution.value.stableDomainEngine, versions));
  }

  /** Everything in `Reconcile` before the first write. */
  method Prepare(env: Env, cl: Cluster, t: Tunnel) returns (r: Result<Plan, Block>)
    ensures r == Outcome(env, cl, t)
  {
    var invalid := ValidateTunnelSpec(t.spec);
    if invalid.Some? {
      return Err(InvalidSpec(invalid.value));
    }
    var resolved := ReadConnection(env, cl, t);
    if resolved.Err? {
      return Err(resolved.error);
    }
    var target := ResolveTarget(t, cl.services);
    if target.Err? {
      return Err(BadTarget(target.error));
    }
    return Ok(PlanFor(env, t, resolved.value, target.value));
  }

  /** The objects a tunnel's outcome depends on, besides the tunnel. */
  datatype Object = TheConnection(key: Key) | TheSecret(key: Key) | TheService(key: Key)

  function Inputs(cl: Cluster, t: Tunnel): set<Object> {
    {TheConnection(ConnectionKey(t)), TheService(ServiceKey(t))}
    + if ConnectionKey(t) in cl.connections then
        var c := cl.connections[ConnectionKey(t)];
        set ref | ref in SecretSet(c) :: TheSecret(SecretKey(c, ref))
      else {}
  }

  predicate ReferencedBy(cl: Cluster, secret: Key, connection: Key) {
    && connection.namespace == secret.namespace
    && connection in cl.connections
    && References(cl.connections[connection], secret.name)
  }

  /** The tunnels that the three map functions enqueue for a changed object. */
  function Index(cl: Cluster, changed: Object): set<Key> {
    match changed
    case TheConnection(key) =>
      set k | k in cl.tunnels && k.namespace == key.namespace && ConnectionName(cl.tunnels[k]) == key.name
    case TheService(key) =>
      set k | k in cl.tunnels && ServiceKey(cl.tunnels[k]) == key
    case TheSecret(key) =>
      set k | k in cl.tunnels && k.namespace == key.namespace && ReferencedBy(cl, key, ConnectionKey(cl.tunnels[k]))
  }

  /** `items` is what listing `objects` gives, in one namespace or in all of them. */
  predicate Lists<T(==)>(items: seq<T>, objects: map<Key, T>, keyOf: T -> Key, namespace: Option<string>) {
    && (forall i | 0 <= i < |items| ::
          && keyOf(items[i]) in objects && objects[keyOf(items[i])] == items[i]
          && (namespace.Some? ==> keyOf(items[i]).namespace == namespace.value))
    && (forall k | k in objects && (namespace.Some? ==> k.namespace == namespace.value) :: objects[k] in items)
  }

  function TunnelKeyOf(t: Tunnel): Key {
    t.key
  }

  function ConnectionKeyOf(c: Connection): Key {
    c.key
  }

  method MapConnectionToTunnels(cl: Cluster, key: Key, items: seq<Tunnel>) returns (requests: seq<Key>)
    requires Keyed(cl) && Lists(items, cl.tunnels, TunnelKeyOf, Some(key.namespace))
    ensures (set k | k in requests) == Index(cl, TheConnection(key))
  {
    requests := [];
    for i := 0 to |items|
      invariant forall k | k in requests :: k in Index(cl, TheConnection(key))
      invariant forall j | 0 <= j < i && items[j].key in Index(cl, TheConnection(key)) :: items[j].key in requests
    {
      if ConnectionName(items[i]) == key.name {
        requests := requests + [items[i].key];
      }
    }
    forall k | k in Index(cl, TheConnection(key))
      ensures k in requests
    {
      var j :| 0 <= j < |items| && items[j] == cl.tunnels[k];
    }
  }

  method MapServiceToTunnels(cl: Cluster, key: Key, items: seq<Tunnel>) returns (requests: seq<Key>)
    requires Keyed(cl) && Lists(items, cl.tunnels, TunnelKeyOf, None)
    ensures (set k | k in requests) == Index(cl, TheService(key))
  {
    hide ServiceKey;
    requests := [];
    for i := 0 to |items|
      invariant forall k | k in requests :: k in Index(cl, TheService(key))
      invariant forall j | 0 <= j < i && items[j].key in Index(cl, TheService(key)) :: items[j].key in requests
    {
      if ServiceKey(items[i]) == key {
        requests := requests + [items[i].key];
      }
    }
    forall k | k in Index(cl, TheService(key))
      ensures k in requests
    {
      var j :| 0 <= j < |items| && items[j] == cl.tunnels[k];
    }
  }

  method ConnectionsReferencing(cl: Cluster, key: Key, connections: seq<Connection>) returns (names: set<string>)
    requires Keyed(cl) && Lists(connections, cl.connections, ConnectionKeyOf, Some(key.namespace))
    ensures forall name :: name in names <==> ReferencedBy(cl, key, Key(key.namespace, name))
  {
    names := {};
    for i := 0 to |connections|
      invariant forall name :: name in names <==>
        exists j :: 0 <= j < i && connections[j].key.name == name && References(connections[j], key.name)
    {
      var found := ReferencesSecret(connections[i], key.name);
      if found {
        names := names + {connections[i].key.name};
      }
    }
    forall name | ReferencedBy(cl, key, Key(key.namespace, name))
      ensures name in names
    {
      var c := cl.connections[Key(key.namespace, name)];
      var j :| 0 <= j < |connections| && connections[j] == c;
    }
  }

  method MapSecretToTunnels(cl: Cluster, key: Key, connections: seq<Connection>, items: seq<Tunnel>)
    returns (requests: seq<Key>)
    requires Keyed(cl)
    requires Lists(connections, cl.connections, ConnectionKeyOf, Some(key.namespace))
    requires Lists(items, cl.tunnels, TunnelKeyOf, Some(key.namespace))
    ensures (set k | k in requests) == Index(cl, TheSecret(key))
  {
    hide References;
    var referenced := ConnectionsReferencing(cl, key, connections);
    requests := [];
    for i := 0 to |items|
      invariant forall k | k in requests :: k in Index(cl, TheSecret(key))
      invariant forall j | 0 <= j < i && items[j].key in Index(cl, TheSecret(key)) :: items[j].key in requests
    {
      if ConnectionName(items[i]) in referenced {
        requests := requests + [items[i].key];
      }
    }
    forall k | k in Index(cl, TheSecret(key))
      ensures k in requests
    {
      var j :| 0 <= j < |items| && items[j] == cl.tunnels[k];
    }
  }

  /** The index is exact: it lists a tunnel exactly when the changed object is one of its inputs. */
  lemma IndexIsExact(cl: Cluster, changed: Object, k: Key)
    requires Keyed(cl)
    ensures k in Index(cl, changed) <==> k in cl.tunnels && changed in Inputs(cl, cl.tunnels[k])
  {
    if k in cl.tunnels && changed.TheSecret? && ConnectionKey(cl.tunnels[k]) in cl.connections {
      var c := cl.connections[ConnectionKey(cl.tunnels[k])];
      if changed in Inputs(cl, cl.tunnels[k]) {
        var ref :| ref in SecretSet(c) && SecretKey(c, ref) == changed.key;
      }
      if k in Index(cl, changed) {
        var ref :| ref in SecretSet(c) && ref.name == changed.key.name;
        assert SecretKey(c, ref) == changed.key;
      }
    }
  }

  /** A connection refers to a Secret: for its token, its certificates, its proxy's credentials or a header. */
  predicate RefersTo(c: Connection, secret: string) {
    || (c.token.Some? && c.token.value.name == secret)
    || (c.mtls.Some? && (c.mtls.value.cert.name == secret || c.mtls.value.key.name == secret
                         || (c.mtls.value.ca.Some? && c.mtls.value.ca.value.name == secret)))
    || (c.transport.Some? && c.transport.value.proxy.Some?
        && var proxy := c.transport.value.proxy.value;
           (proxy.username.Some? && proxy.username.value.name == secret)
           || (proxy.password.Some? && proxy.password.value.name == secret))
    || exists i :: 0 <= i < |c.controlPlaneHeaders| && c.controlPlaneHeaders[i].value.name == secret
  }

  lemma ReferencesIff(c: Connection, secret: string)
    ensures References(c, secret) <==> RefersTo(c, secret)
  {
    HeaderRefs(c);
    hide AgentSecretSet, HeaderSecretSet;
    if References(c, secret) {
      var ref :| ref in SecretSet(c) && ref.name == secret;
      AgentRefs(c, ref);
    }
    if RefersTo(c, secret) {
      var ref := RefTo(c, secret);
      AgentRefs(c, ref);
      assert ref in SecretSet(c);
    }
  }

  lemma RefTo(c: Connection, secret: string) returns (ref: SecretRef)
    requires RefersTo(c, secret)
    ensures ref.name == secret
    ensures
      || c.token == Some(ref)
      || (c.mtls.Some? && (ref == c.mtls.value.cert || ref == c.mtls.value.key || c.mtls.value.ca == Some(ref)))
      || (c.transport.Some? && c.transport.value.proxy.Some?
          && (c.transport.value.proxy.value.username == Some(ref)
              || c.transport.value.proxy.value.password == Some(ref)))
      || exists i :: 0 <= i < |c.controlPlaneHeaders| && c.controlPlaneHeaders[i].value == ref
  {
    if c.token.Some? && c.token.value.name == secret {
      ref := c.token.value;
    } else if c.mtls.Some? && c.mtls.value.cert.name == secret {
      ref := c.mtls.value.cert;
    } else if c.mtls.Some? && c.mtls.value.key.name == secret {
      ref := c.mtls.value.key;
    } else if c.mtls.Some? && c.mtls.value.ca.Some? && c.mtls.value.ca.value.name == secret {
      ref := c.mtls.value.ca.value;
    } else if i: int :| 0 <= i < |c.controlPlaneHeaders| && c.controlPlaneHeaders[i].value.name == secret {
      ref := c.controlPlaneHeaders[i].value;
    } else {
      var proxy := c.transport.value.proxy.value;
      ref := if proxy.username.Some? && proxy.username.value.name == secret then proxy.username.value
             else proxy.password.value;
    }
  }

  /**
   Which tunnels are looked at again: for a connection those of its namespace that name it, or none if it is `default`;
   for a Service those that name it, from any namespace; for a Secret those whose connection refers to it.
   */
  lemma IndexMeans(cl: Cluster, changed: Object, k: Key)
    requires Keyed(cl)
    ensures k in Index(cl, changed) <==>
              && k in cl.tunnels
              && var t := cl.tunnels[k];
                 var own := Key(k.namespace, if t.spec.connectionRef.Some? && t.spec.connectionRef.value != ""
                                             then t.spec.connectionRef.value else "default");
                 match changed
                 case TheConnection(key) => key == own
                 case TheService(key) =>
                   key == Key(if t.spec.serviceNamespace != "" then t.spec.serviceNamespace else k.namespace,
                              t.spec.serviceName)
                 case TheSecret(key) =>
                   key.namespace == k.namespace && own in cl.connections && RefersTo(cl.connections[own], key.name)
  {
    hide RefersTo, References;
    if k in cl.tunnels && ConnectionKey(cl.tunnels[k]) in cl.connections && changed.TheSecret? {
      ReferencesIff(cl.connections[ConnectionKey(cl.tunnels[k])], changed.key.name);
    }
  }

  /** The clusters agree on one object. */
  predicate SameObject(a: Cluster, b: Cluster, o: Object) {
    match o
    case TheConnection(key) => Lookup(a.connections, key) == Lookup(b.connections, key)
    case TheSecret(key) => Lookup(a.secrets, key) == Lookup(b.secrets, key)
    case TheService(key) => Lookup(a.services, key) == Lookup(b.services, key)
  }

  lemma {:induction false} GatherFrame(c: Connection, a: map<Key, Secret>, b: map<Key, Secret>, refs: seq<SecretRef>,
                                       found: Found)
    requires forall i | 0 <= i < |refs| :: Lookup(a, SecretKey(c, refs[i])) == Lookup(b, SecretKey(c, refs[i]))
    ensures Gather(c, a, refs, found) == Gather(c, b, refs, found)
    decreases refs
  {
    hide Take;
    if refs != [] {
      assert Read(c, a, found, refs[0]) == Read(c, b, found, refs[0]);
      if Read(c, a, found, refs[0]).Ok? {
        GatherFrame(c, a, b, refs[1..], Read(c, a, found, refs[0]).value);
      }
    }
  }

  /** The inputs decide the outcome. */
  lemma OutcomeFrame(env: Env, a: Cluster, b: Cluster, t: Tunnel)
    requires forall o | o in Inputs(a, t) :: SameObject(a, b, o)
    ensures Outcome(env, a, t) == Outcome(env, b, t)
    ensures ResolveConnection(env, a, t) == ResolveConnection(env, b, t)
    ensures Inputs(a, t) == Inputs(b, t)
  {
    assert SameObject(a, b, TheConnection(ConnectionKey(t)));
    assert SameObject(a, b, TheService(ServiceKey(t)));
    if ConnectionKey(t) in a.connections {
      var c := a.connections[ConnectionKey(t)];
      RefOrder();
      forall i | 0 <= i < |SecretList(c)|
        ensures Lookup(a.secrets, SecretKey(c, SecretList(c)[i])) == Lookup(b.secrets, SecretKey(c, SecretList(c)[i]))
      {
        assert SecretList(c)[i] in SecretList(c);
        assert SameObject(a, b, TheSecret(SecretKey(c, SecretList(c)[i])));
      }
      GatherFrame(c, a.secrets, b.secrets, SecretList(c), NOTHING);
    }
  }

  /** `b` is `a` after at most the object `changed` was created, changed or deleted. */
  ghost predicate DifferOnlyIn(a: Cluster, b: Cluster, changed: Object) {
    a.tunnels == b.tunnels && forall o | o != changed :: SameObject(a, b, o)
  }

  /** Index coverage: every tunnel whose outcome a change can have touched is listed for the changed object. */
  lemma IndexCovers(env: Env, a: Cluster, b: Cluster, changed: Object, k: Key)
    requires Keyed(a) && Keyed(b) && DifferOnlyIn(a, b, changed) && k in a.tunnels
    ensures Outcome(env, a, a.tunnels[k]) != Outcome(env, b, b.tunnels[k]) ==> k in Index(b, changed)
    ensures k !in Index(b, changed) ==> changed !in Inputs(a, a.tunnels[k])
  {
    var t := a.tunnels[k];
    IndexIsExact(b, changed, k);
    if k !in Index(b, changed) {
      forall o | o in Inputs(b, t)
        ensures SameObject(b, a, o)
      {
        assert SameObject(a, b, o);
      }
      OutcomeFrame(env, b, a, t);
    }
  }

  /** A resolved connection carries the versions of the agent's Secrets and nothing else from them. */
  lemma ResolvedVersions(env: Env, c: Connection, secrets: map<Key, Secret>)
    ensures var r := ResolveWith(env, c, secrets);
            r.Ok? ==> r.value.connection == c && r.value.versions == VersionList(VersionsOf(c, secrets, SecretSet(c)))
  {
    hide VersionList, VersionsOf, SecretList, AgentSecretNames;
    ConnectionSecrets(c, secrets);
  }

  lemma SameVersions(a: Cluster, b: Cluster, secret: Key, c: Connection)
    requires DifferOnlyIn(a, b, TheSecret(secret)) && secret.name !in AgentSecretNames(c)
    ensures VersionsOf(c, a.secrets, SecretSet(c)) == VersionsOf(c, b.secrets, SecretSet(c))
  {
    forall name | name in AgentSecretNames(c)
      ensures VersionAt(a.secrets, Key(c.key.namespace, name)) == VersionAt(b.secrets, Key(c.key.namespace, name))
    {
      assert SameObject(a, b, TheSecret(Key(c.key.namespace, name)));
    }
  }

  /**
   A Secret that only serves Control plane headers leaves no trace in the children: when it changes, the plan stays
   the same unless the Control plane resolves the connection differently.
   */
  lemma HeaderSecretLeavesNoTrace(env: Env, a: Cluster, b: Cluster, secret: Key, t: Tunnel)
    requires DifferOnlyIn(a, b, TheSecret(secret))
    requires var c := Lookup(a.connections, ConnectionKey(t)); c.Some? ==> secret.name !in AgentSecretNames(c.value)
    requires var x, y := ResolveConnection(env, a, t), ResolveConnection(env, b, t);
             x.Ok? && y.Ok? && x.value.engine == y.value.engine
                 && x.value.stableDomainEngine == y.value.stableDomainEngine
    ensures Outcome(env, a, t) == Outcome(env, b, t)
  {
    hide VersionsOf, AgentSecretNames, SecretSet, ResolveWith, PlanFor;
    assert SameObject(a, b, TheConnection(ConnectionKey(t))) && SameObject(a, b, TheService(ServiceKey(t)));
    var c := a.connections[ConnectionKey(t)];
    ResolvedVersions(env, c, a.secrets);
    ResolvedVersions(env, c, b.secrets);
    SameVersions(a, b, secret, c);
  }

  /** The Secrets a tunnel's pods get their environment and files from. */
  function MountedSecrets(c: Connection): set<SecretRef> {
    (set e | e in AgentEnv(c) :: e.secret) + (set p | p in MTLSProjections(c) :: p.secret)
  }

  /** The Secrets whose versions are hashed are exactly the ones the Deployment refers to. */
  lemma MountedSecretsAreHashed(c: Connection)
    ensures MountedSecrets(c) == AgentSecretSet(c)
  {
    EnvSecrets(c);
    FileSecrets(c);
  }

  function ProxySecrets(c: Connection): set<SecretRef> {
    if c.transport.Some? && c.transport.value.proxy.Some?
    then Given(c.transport.value.proxy.value.username) + Given(c.transport.value.proxy.value.password)
    else {}
  }

  lemma EnvSecrets(c: Connection)
    ensures (set e | e in AgentEnv(c) :: e.secret) == Given(c.token) + ProxySecrets(c)
  {
    forall ref | ref in Given(c.token) + ProxySecrets(c)
      ensures exists e :: e in AgentEnv(c) && e.secret == ref
    {
      if c.token == Some(ref) {
        assert EnvVar("RSTREAM_AUTHENTICATION_TOKEN", ref) in AgentEnv(c);
      } else if c.transport.value.proxy.value.username == Some(ref) {
        assert EnvVar("RSTREAM_PROXY_USERNAME", ref) in AgentEnv(c);
      } else {
        assert EnvVar("RSTREAM_PROXY_PASSWORD", ref) in AgentEnv(c);
      }
    }
  }

  lemma FileSecrets(c: Connection)
    ensures (set p | p in MTLSProjections(c) :: p.secret)
         == if c.mtls.Some? then {c.mtls.value.cert, c.mtls.value.key} + Given(c.mtls.value.ca) else {}
  {
    if c.mtls.Some? {
      var m := c.mtls.value;
      assert Projection(m.cert, "tls.crt") in MTLSProjections(c) && Projection(m.key, "tls.key") in MTLSProjections(c);
      if m.ca.Some? {
        assert Projection(m.ca.value, "ca.crt") in MTLSProjections(c);
      }
    }
  }

  /**
   What an unchanged workload hash stands for: equal hash inputs mean the same configuration text and, for every
   Secret the pods use, the same resource version.
   */
  lemma EqualHashInputsEqualSecrets(env: Env, c: Connection, a: map<Key, Secret>, b: map<Key, Secret>, text: string,
                                    text': string)
    requires ResolveWith(env, c, a).Ok? && ResolveWith(env, c, b).Ok?
    requires NulFree(text) && NulFree(text') && forall name | name in AgentSecretNames(c) :: ':' !in name
    requires forall v | v in ResolveWith(env, c, a).value.versions + ResolveWith(env, c, b).value.versions :: NulFree(v)
    requires Frame([text] + ResolveWith(env, c, a).value.versions)
          == Frame([text'] + ResolveWith(env, c, b).value.versions)
    ensures text == text'
    ensures forall ref | ref in MountedSecrets(c) :: VersionAt(a, SecretKey(c, ref)) == VersionAt(b, SecretKey(c, ref))
  {
    hide ResolveWith, Frame, VersionList, NulFree, AgentSecretSet;
    var x, y := VersionsOf(c, a, SecretSet(c)), VersionsOf(c, b, SecretSet(c));
    ResolvedVersions(env, c, a);
    ResolvedVersions(env, c, b);
    HashInputIsInjective(text, x, text', y);
    MountedSecretsAreHashed(c);
    forall ref | ref in MountedSecrets(c)
      ensures VersionAt(a, SecretKey(c, ref)) == VersionAt(b, SecretKey(c, ref))
    {
      assert ref in SecretSet(c) && ref.name in SecretNames(SecretSet(c)) * AgentSecretNames(c);
      assert x[ref.name] == y[ref.name];
    }
  }

  /** The key of the connection a tunnel uses: the one it names, or `default`, in its own namespace. */
  lemma ConnectionKeyMeans(t: Tunnel)
    ensures ConnectionKey(t) == Key(t.key.namespace,
                                    if t.spec.connectionRef.Some? && t.spec.connectionRef.value != ""
                                    then t.spec.connectionRef.value else "default")
  {
  }

  lemma ResolvedMeans(env: Env, c: Connection, secrets: map<Key, Secret>) returns (found: Found, res: Resolution)
    requires ResolveWith(env, c, secrets).Ok?
    ensures HoldsAll(c, secrets) && FoundMeans(c, secrets, found)
    ensures env.resolve(c, found.token, found.headers) == Ok(res)
    ensures ResolveWith(env, c, secrets).value
         == Resolved(c, res.engine, res.stableDomainEngine, VersionList(VersionsOf(c, secrets, SecretSet(c))))
  {
    hide FoundMeans, HoldsAll, VersionList, VersionsOf, SecretList, SecretSet;
    ConnectionReads(c, secrets);
    ConnectionSecrets(c, secrets);
    found := Gather(c, secrets, SecretList(c), NOTHING).value;
    res := env.resolve(c, found.token, found.headers).value;
    ResolvedVersions(env, c, secrets);
  }

  /** How the configuration that a plan carries comes about. */
  ghost predicate ConfigMeans(t: Tunnel, c: Connection, services: map<Key, Service>, res: Resolution, config: Config) {
    && config.connection.engine == Text.TrimSpace(res.engine)
    && config.connection.stableDomainEngine == res.stableDomainEngine
    && TargetMeans(t, services, config.target)
    && config.tunnel == BuildTunnelConfig(t, RequestedHostname(t.spec))
    && config.kubernetes.enabled
    && config.kubernetes.namespace == t.key.namespace && config.kubernetes.tunnelName == t.key.name
    && (config.connection.mtls.Some? <==> c.mtls.Some?)
    && (config.connection.transport.Some? <==> c.transport.Some?)
    && (c.transport.Some? ==> TransportMeans(c.transport.value, config.connection.transport.value))
  }

  /** The transport settings as the connection has them, with the names of variables for the proxy's credentials. */
  predicate TransportMeans(from: Transport, to: TransportConfig) {
    && to.mode == from.mode && to.ipFamily == from.ipFamily && to.mptcp == from.mptcp && to.useQUIC == from.useQUIC
    && (to.proxy.Some? <==> from.proxy.Some?)
    && (to.proxy.Some? ==>
          && to.proxy.value.http == from.proxy.value.http && to.proxy.value.headers == from.proxy.value.headers
          && (to.proxy.value.usernameEnv != "" <==> from.proxy.value.username.Some?)
          && (to.proxy.value.passwordEnv != "" <==> from.proxy.value.password.Some?))
  }

  lemma BuiltConfigMeans(t: Tunnel, c: Connection, services: map<Key, Service>, res: Resolution)
    requires forall key | key in services :: services[key].key == key
    requires ResolveTarget(t, services).Ok?
    ensures ConfigMeans(t, c, services, res,
                        BuildAgentConfig(t, c, ResolveTarget(t, services).value, res.engine, res.stableDomainEngine))
  {
    hide BuildTunnelConfig, ResolveTarget, RequestedHostname, TargetMeans;
    AgentDialsTheService(t, services, c, res.engine, res.stableDomainEngine);
  }

  /**
   What the pods of a reconcilable tunnel get: the Control plane is asked with the connection stored under the tunnel's
   connection key, its trimmed token and its headers, and the text is the encoding of a configuration that dials the
   engine it answers, names the tunnel after the stable-domain engine it answers, and targets the Service.
   */
  lemma PlanMeans(env: Env, cl: Cluster, t: Tunnel) returns (found: Found, res: Resolution, config: Config)
    requires Keyed(cl) && Outcome(env, cl, t).Ok?
    ensures var plan := Outcome(env, cl, t).value;
            var key := Key(t.key.namespace, if t.spec.connectionRef.Some? && t.spec.connectionRef.value != ""
                                            then t.spec.connectionRef.value else "default");
            && key in cl.connections && plan.connection == cl.connections[key]
            && HoldsAll(plan.connection, cl.secrets) && FoundMeans(plan.connection, cl.secrets, found)
            && env.resolve(plan.connection, found.token, found.headers) == Ok(res)
            && ConfigMeans(t, plan.connection, cl.services, res, config)
            && plan.options.configText == env.marshal(config)
            && plan.options.agentImage == env.agentImage && plan.options.digest == env.digest
            && plan.options.versions == VersionList(VersionsOf(plan.connection, cl.secrets, SecretSet(plan.connection)))
            && config.target.host == plan.target.host && config.target.port == Itoa(plan.target.port)
  {
    hide FoundMeans, HoldsAll, ConfigMeans, VersionList, VersionsOf, SecretSet, ResolveWith, ResolveTarget,
         BuildTunnelConfig, Itoa, ValidateTunnelSpec;
    ConnectionKeyMeans(t);
    var c := cl.connections[ConnectionKey(t)];
    found, res := ResolvedMeans(env, c, cl.secrets);
    config := BuildAgentConfig(t, c, ResolveTarget(t, cl.services).value, res.engine, res.stableDomainEngine);
    BuiltConfigMeans(t, c, cl.services, res);
  }

  /** When a tunnel is blocked, and by what: the first of these that goes wrong. */
  lemma OutcomeMeans(env: Env, cl: Cluster, t: Tunnel)
    ensures var outcome, c := Outcome(env, cl, t), Lookup(cl.connections, ConnectionKey(t));
            var valid := ValidateTunnelSpec(t.spec).None?;
            && (outcome.Err? && outcome.error.InvalidSpec? <==> !valid)
            && (valid && c.None? ==> outcome == Err(ConnectionNotFound))
            && (valid && c.Some? && SecretList(c.value) == [] ==> outcome == Err(NoSecretRefs))
            && (valid && c.Some? && SecretList(c.value) != [] ==>
                  match Gather(c.value, cl.secrets, SecretList(c.value), NOTHING)
                  case Err(e) => !HoldsAll(c.value, cl.secrets) && outcome == Err(BadSecret(e))
                  case Ok(found) =>
                    && HoldsAll(c.value, cl.secrets)
                    && match env.resolve(c.value, found.token, found.headers)
                       case Err(text) => outcome == Err(Unresolved(text))
                       case Ok(_) =>
                         match ResolveTarget(t, cl.services)
                         case Err(e) => outcome == Err(BadTarget(e))
                         case Ok(_) => outcome.Ok?)
  {
    hide HoldsAll, SecretList, VersionList, ResolveTarget, ValidateTunnelSpec, FoundMeans, PlanFor;
    if ConnectionKey(t) in cl.connections {
      ConnectionReads(cl.connections[ConnectionKey(t)], cl.secrets);
    }
  }
}
