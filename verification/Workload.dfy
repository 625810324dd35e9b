/** The five managed children of a tunnel: what the operator writes into them, and the workload hash. */
module Workload {
  import opened Wrappers
  import opened Text
  import opened Api
  import opened AgentConfig
  import opened Ordering
  import N = Names

  datatype Kind = ConfigMap | ServiceAccount | Role | RoleBinding | Deployment

  datatype EnvVar = EnvVar(name: string, secret: SecretRef)

  datatype Projection = Projection(secret: SecretRef, path: string)

  /** The parts of a child that the operator decides. Fixed pod settings are not repeated here. */
  datatype Body =
    | ConfigMapBody(data: map<string, string>)
    | ServiceAccountBody
    | RoleBody(tunnel: string)
    | RoleBindingBody(role: string, account: string, namespace: string)
    | DeploymentBody(
        replicas: int, image: string, selector: map<string, string>,
        podLabels: map<string, string>, podAnnotations: map<string, string>,
        account: string, configMap: string, env: seq<EnvVar>, mtls: seq<Projection>)

  datatype Managed = Managed(name: string, labels: map<string, string>, body: Body)

  /** A stored child: the managed part, the controller reference, and what others have added to it. */
  datatype Child = Child(managed: Managed, owned: bool, foreign: map<string, string>)

  /** `createOrUpdate` with an `Apply*` function: managed fields are overwritten, all others stay. */
  function Overwrite(existing: Option<Child>, m: Managed): Child {
    Child(m, true, if existing.Some? then existing.value.foreign else map[])
  }

  predicate UpToDate(c: Child, m: Managed) {
    Overwrite(Some(c), m) == c
  }

  datatype Options = Options(agentImage: string, configText: string, versions: seq<string>, digest: string -> string)

  /** What goes into the hash: every value is followed by a NUL. */
  function Frame(values: seq<string>): string {
    if values == [] then "" else values[0] + "\0" + Frame(values[1..])
  }

  /** The write loop of `ConfigHash`; `digest` stands for the first 16 digits of the SHA-256 of a text. */
  method ConfigHash(values: seq<string>, digest: string -> string) returns (h: string)
    ensures h == digest(Frame(values))
  {
    var written := "";
    for i := 0 to |values|
      invariant written + Frame(values[i..]) == Frame(values)
    {
      assert values[i..][0] == values[i] && values[i..][1..] == values[i + 1..];
      written := written + values[i];
      written := written + "\0";
    }
    assert written == Frame(values);
    h := digest(written);
  }

  function AgentLabels(t: Tunnel, component: string): map<string, string> {
    map["app.kubernetes.io/name" := "rstream-operator",
        "app.kubernetes.io/instance" := N.NamesFor(IdentityOf(t)).base,
        "app.kubernetes.io/component" := component,
        "app.kubernetes.io/managed-by" := "rstream-operator",
        "app.kubernetes.io/part-of" := "rstream",
        "rstream.io/tunnel-name" := t.key.name,
        "rstream.io/tunnel-namespace" := t.key.namespace]
    + if t.uid != "" then map["rstream.io/tunnel-uid" := t.uid] else map[]
  }

  function AgentEnv(c: Connection): seq<EnvVar> {
    (if c.token.Some? then [EnvVar("RSTREAM_AUTHENTICATION_TOKEN", c.token.value)] else [])
    + (if c.transport.Some? && c.transport.value.proxy.Some? then
         var proxy := c.transport.value.proxy.value;
         (if proxy.username.Some? then [EnvVar("RSTREAM_PROXY_USERNAME", proxy.username.value)] else [])
         + (if proxy.password.Some? then [EnvVar("RSTREAM_PROXY_PASSWORD", proxy.password.value)] else [])
       else [])
  }

  function MTLSProjections(c: Connection): seq<Projection> {
    if c.mtls.None? then []
    else
      [Projection(c.mtls.value.cert, "tls.crt"), Projection(c.mtls.value.key, "tls.key")]
      + if c.mtls.value.ca.Some? then [Projection(c.mtls.value.ca.value, "ca.crt")] else []
  }

  /** The Deployment's managed part; the user's pod labels and annotations win over the operator's. */
  function DeploymentPart(t: Tunnel, c: Connection, o: Options): Body {
    var names := N.NamesFor(IdentityOf(t));
    var labels := AgentLabels(t, "agent");
    var agent := t.spec.agent;
    DeploymentBody(
      if agent.Some? && agent.value.replicas.Some? then agent.value.replicas.value else 1,
      if agent.Some? && agent.value.image != "" then agent.value.image else o.agentImage,
      labels,
      labels + PodLabels(t),
      map[HASH_ANNOTATION := o.digest(Frame([o.configText] + o.versions))] + PodAnnotations(t),
      names.serviceAccount,
      names.configMap,
      AgentEnv(c),
      MTLSProjections(c))
  }

  /** What the operator wants child `kind` of a tunnel to be. */
  function ManagedPart(kind: Kind, t: Tunnel, c: Connection, o: Options): Managed {
    var names := N.NamesFor(IdentityOf(t));
    match kind
    case ConfigMap => Managed(names.configMap, AgentLabels(t, "config"),
                              ConfigMapBody(map["config.yaml" := o.configText]))
    case ServiceAccount => Managed(names.serviceAccount, AgentLabels(t, "agent-rbac"), ServiceAccountBody)
    case Role => Managed(names.role, AgentLabels(t, "agent-rbac"), RoleBody(t.key.name))
    case RoleBinding =>
      Managed(names.roleBinding, AgentLabels(t, "agent-rbac"),
              RoleBindingBody(names.role, names.serviceAccount, t.key.namespace))
    case Deployment => Managed(names.deployment, AgentLabels(t, "agent"), DeploymentPart(t, c, o))
  }

  /**
   The children fit together: the Deployment refers to the ConfigMap and the ServiceAccount by their own names, and the
   RoleBinding gives that ServiceAccount the Role, in the tunnel's namespace and for this tunnel only.
   */
  lemma ChildrenFit(t: Tunnel, c: Connection, o: Options)
    ensures var config, account := ManagedPart(ConfigMap, t, c, o), ManagedPart(ServiceAccount, t, c, o);
            var role := ManagedPart(Role, t, c, o);
            && (match ManagedPart(Deployment, t, c, o).body
                case DeploymentBody(_, _, _, _, _, usedAccount, usedConfig, _, _) =>
                  usedAccount == account.name && usedConfig == config.name
                case _ => false)
            && ManagedPart(RoleBinding, t, c, o).body == RoleBindingBody(role.name, account.name, t.key.namespace)
            && role.body == RoleBody(t.key.name)
  {
    hide AgentLabels, AgentEnv, MTLSProjections, N.NamesFor, PodLabels, PodAnnotations, Frame;
  }

  function PodLabels(t: Tunnel): map<string, string> {
    if t.spec.agent.Some? then t.spec.agent.value.podLabels else map[]
  }

  function PodAnnotations(t: Tunnel): map<string, string> {
    if t.spec.agent.Some? then t.spec.agent.value.podAnnotations else map[]
  }

  /** A pod made from the template is one the selector selects. */
  predicate Selects(selector: map<string, string>, labels: map<string, string>) {
    forall name | name in selector :: name in labels && labels[name] == selector[name]
  }

  /** The pod template fits the selector exactly when the user's pod labels do not redefine one of its labels. */
  lemma TemplateFitsSelector(t: Tunnel, c: Connection, o: Options)
    ensures var body := ManagedPart(Deployment, t, c, o).body;
            Selects(body.selector, body.podLabels)
            <==> forall name | name in PodLabels(t)
                && name in body.selector :: PodLabels(t)[name] == body.selector[name]
  {
    hide AgentLabels, AgentEnv, MTLSProjections, PodLabels;
    TemplateFits(AgentLabels(t, "agent"), PodLabels(t));
  }

  lemma TemplateFits(selector: map<string, string>, labels: map<string, string>)
    ensures Selects(selector, selector + labels)
            <==> forall name | name in labels && name in selector :: labels[name] == selector[name]
  {
    if Selects(selector, selector + labels) {
      forall name | name in labels && name in selector
        ensures labels[name] == selector[name]
      {
        assert (selector + labels)[name] == labels[name];
      }
    }
  }

  /** What the pods run: image and replicas from the spec or the manager's defaults, and the text as `config.yaml`. */
  lemma PodsMean(t: Tunnel, c: Connection, o: Options)
    ensures ManagedPart(ConfigMap, t, c, o).body == ConfigMapBody(map["config.yaml" := o.configText])
    ensures var agent := t.spec.agent;
            match ManagedPart(Deployment, t, c, o).body
            case DeploymentBody(replicas, image, selector, podLabels, podAnnotations, _, _, env, mtls) =>
              && replicas == (if agent.Some? && agent.value.replicas.Some? then agent.value.replicas.value else 1)
              && image == (if agent.Some? && agent.value.image != "" then agent.value.image else o.agentImage)
              && (forall name | name in PodLabels(t) :: name in podLabels && podLabels[name] == PodLabels(t)[name])
              && (forall name | name in selector && name !in PodLabels(t) ::
                    name in podLabels && podLabels[name] == selector[name])
              && podLabels.Keys == selector.Keys + PodLabels(t).Keys
              && podAnnotations.Keys == {HASH_ANNOTATION} + PodAnnotations(t).Keys
              && (forall name | name in PodAnnotations(t) :: podAnnotations[name] == PodAnnotations(t)[name])
              && (HASH_ANNOTATION !in PodAnnotations(t) ==>
                    podAnnotations[HASH_ANNOTATION] == o.digest(Frame([o.configText] + o.versions)))
            case _ => false
  {
    hide N.NamesFor, AgentLabels, AgentEnv, MTLSProjections, Frame;
  }

  /** A selector that fits the labels of another tunnel's pods, as the operator sets them, is the same tunnel's. */
  lemma SelectorsAreApart(t: Tunnel, u: Tunnel)
    requires Selects(AgentLabels(t, "agent"), AgentLabels(u, "agent"))
    ensures t.key == u.key && (t.uid != "" ==> u.uid == t.uid)
  {
    hide AgentLabels, N.NamesFor;
    LabelsTell(t, "agent");
    LabelsTell(u, "agent");
  }

  lemma LabelsTell(t: Tunnel, component: string)
    ensures var labels := AgentLabels(t, component);
            && LabelIs(labels, "rstream.io/tunnel-name", t.key.name)
            && LabelIs(labels, "rstream.io/tunnel-namespace", t.key.namespace)
            && ("rstream.io/tunnel-uid" in labels <==> t.uid != "")
            && (t.uid != "" ==> LabelIs(labels, "rstream.io/tunnel-uid", t.uid))
  {
    hide N.NamesFor, LabelIs;
    var base := FixedLabels(N.NamesFor(IdentityOf(t)).base, component);
    LabelNamesDiffer();
    NoUid(N.NamesFor(IdentityOf(t)).base, component);
    LastLabels(base, "rstream.io/tunnel-name", t.key.name, "rstream.io/tunnel-namespace", t.key.namespace,
               "rstream.io/tunnel-uid", t.uid);
  }

  predicate LabelIs(labels: map<string, string>, name: string, value: string) {
    name in labels && labels[name] == value
  }

  function FixedLabels(instance: string, component: string): map<string, string> {
    map["app.kubernetes.io/name" := "rstream-operator",
        "app.kubernetes.io/instance" := instance,
        "app.kubernetes.io/component" := component,
        "app.kubernetes.io/managed-by" := "rstream-operator",
        "app.kubernetes.io/part-of" := "rstream"]
  }

  lemma NoUid(instance: string, component: string)
    ensures "rstream.io/tunnel-uid" !in FixedLabels(instance, component)
  {
    forall name | name in FixedLabels(instance, component)
      ensures name[..1] == "a"
    {
    }
    assert "rstream.io/tunnel-uid"[..1] == "r";
  }

  lemma LastLabels(base: map<string, string>, a: string, x: string, b: string, y: string, c: string, z: string)
    requires a != b && a != c && b != c && c !in base
    ensures var labels := base[a := x][b := y] + if z != "" then map[c := z] else map[];
            && LabelIs(labels, a, x) && LabelIs(labels, b, y)
            && (c in labels <==> z != "") && (z != "" ==> LabelIs(labels, c, z))
  {
  }

  lemma LabelNamesDiffer()
    ensures "rstream.io/tunnel-name" != "rstream.io/tunnel-namespace"
    ensures "rstream.io/tunnel-uid" != "rstream.io/tunnel-name"
    ensures "rstream.io/tunnel-uid" != "rstream.io/tunnel-namespace"
  {
    assert |"rstream.io/tunnel-name"| == 22 && |"rstream.io/tunnel-namespace"| == 27 && |"rstream.io/tunnel-uid"| == 21;
  }

  /** The pods have, under the names the configuration uses, the credentials that the connection refers to. */
  lemma ConfigFitsPods(t: Tunnel, c: Connection, target: ResolvedTarget, engine: string, stable: string)
    ensures var config := BuildAgentConfig(t, c, target, engine, stable).connection;
            && (c.token.Some? ==> EnvVar("RSTREAM_AUTHENTICATION_TOKEN", c.token.value) in AgentEnv(c))
            && (c.transport.Some? && c.transport.value.proxy.Some? ==>
                  var proxy := c.transport.value.proxy.value;
                  && config.transport.Some? && config.transport.value.proxy.Some?
                  && NamesCredential(config.transport.value.proxy.value.usernameEnv, proxy.username, AgentEnv(c))
                  && NamesCredential(config.transport.value.proxy.value.passwordEnv, proxy.password, AgentEnv(c)))
            && (config.mtls.Some? <==> c.mtls.Some?)
            && (c.mtls.Some? ==>
                  && NamesFile(config.mtls.value.certFile, Some(c.mtls.value.cert), MTLSProjections(c))
                  && NamesFile(config.mtls.value.keyFile, Some(c.mtls.value.key), MTLSProjections(c))
                  && NamesFile(config.mtls.value.caFile, c.mtls.value.ca, MTLSProjections(c)))
  {
    hide BuildTunnelConfig, Itoa;
    if c.transport.Some? && c.transport.value.proxy.Some? {
      ProxyFits(c, c.transport.value.proxy.value);
    }
    if c.mtls.Some? {
      FilesFit(c, c.mtls.value);
    }
  }

  /** No variable for no credential, and otherwise the variable that holds it. */
  predicate NamesCredential(name: string, ref: Option<SecretRef>, env: seq<EnvVar>) {
    match ref
    case None => name == ""
    case Some(r) => name != "" && EnvVar(name, r) in env
  }

  const MTLS_DIRECTORY := "/var/run/rstream/mtls/"

  /** Likewise for a file in the directory that the projections are mounted under. */
  predicate NamesFile(file: string, ref: Option<SecretRef>, files: seq<Projection>) {
    match ref
    case None => file == ""
    case Some(r) => exists i | 0 <= i < |files| :: files[i].secret == r && file == MTLS_DIRECTORY + files[i].path
  }

  lemma ProxyFits(c: Connection, proxy: Proxy)
    requires c.transport.Some? && c.transport.value.proxy == Some(proxy)
    ensures NamesCredential(if proxy.username.Some? then "RSTREAM_PROXY_USERNAME" else "", proxy.username, AgentEnv(c))
    ensures NamesCredential(if proxy.password.Some? then "RSTREAM_PROXY_PASSWORD" else "", proxy.password, AgentEnv(c))
  {
  }

  lemma FilesFit(c: Connection, m: MTLS)
    requires c.mtls == Some(m)
    ensures NamesFile("/var/run/rstream/mtls/tls.crt", Some(m.cert), MTLSProjections(c))
    ensures NamesFile("/var/run/rstream/mtls/tls.key", Some(m.key), MTLSProjections(c))
    ensures NamesFile(if m.ca.Some? then "/var/run/rstream/mtls/ca.crt" else "", m.ca, MTLSProjections(c))
  {
    var files := MTLSProjections(c);
    assert files[0] == Projection(m.cert, "tls.crt") && files[1] == Projection(m.key, "tls.key");
    assert "/var/run/rstream/mtls/tls.crt" == MTLS_DIRECTORY + files[0].path;
    assert "/var/run/rstream/mtls/tls.key" == MTLS_DIRECTORY + files[1].path;
    if m.ca.Some? {
      assert files[2] == Projection(m.ca.value, "ca.crt");
      assert "/var/run/rstream/mtls/ca.crt" == MTLS_DIRECTORY + files[2].path;
    }
  }

  const HASH_ANNOTATION := "rstream.io/config-hash"

  /**
   A new digest of the configuration replaces the pods exactly when the user's pod annotations leave the hash
   annotation alone: only then is the new Deployment different from the old one.
   */
  lemma NewHashReplacesPods(t: Tunnel, c: Connection, o: Options, o': Options)
    requires o.agentImage == o'.agentImage
    requires o.digest(Frame([o.configText] + o.versions)) != o'.digest(Frame([o'.configText] + o'.versions))
    ensures ManagedPart(Deployment, t, c, o) != ManagedPart(Deployment, t, c, o')
        <==> HASH_ANNOTATION !in PodAnnotations(t)
  {
    hide AgentLabels, Frame, AgentEnv, MTLSProjections;
    var x, y := o.digest(Frame([o.configText] + o.versions)), o'.digest(Frame([o'.configText] + o'.versions));
    HashShows(x, y, PodAnnotations(t));
    assert ManagedPart(Deployment, t, c, o).body.podAnnotations == map[HASH_ANNOTATION := x] + PodAnnotations(t);
    assert ManagedPart(Deployment, t, c, o').body.podAnnotations == map[HASH_ANNOTATION := y] + PodAnnotations(t);
  }

  lemma HashShows(x: string, y: string, annotations: map<string, string>)
    requires x != y
    ensures map[HASH_ANNOTATION := x] + annotations != map[HASH_ANNOTATION := y] + annotations
            <==> HASH_ANNOTATION !in annotations
  {
    var a, b := map[HASH_ANNOTATION := x] + annotations, map[HASH_ANNOTATION := y] + annotations;
    if HASH_ANNOTATION !in annotations {
      assert a[HASH_ANNOTATION] == x && b[HASH_ANNOTATION] == y;
    } else {
      assert a == b;
    }
  }

  /** Secret names and versions as `name:version`. */
  function VersionStrings(versions: map<string, string>): set<string> {
    set name | name in versions :: name + ":" + versions[name]
  }

  ghost function VersionList(versions: map<string, string>): seq<string> {
    StringOrder();
    Canonical(Less, VersionStrings(versions))
  }

  predicate NulFree(s: string) {
    '\0' !in s
  }

  predicate ColonFree(versions: map<string, string>) {
    forall name | name in versions :: ':' !in name
  }

  lemma NulAt(v: string, rest: string)
    requires NulFree(v)
    ensures Cut(v + "\0" + rest, "\0") == Pieces(v, rest, true)
  {
    CutConcat(v, "\0", rest);
  }

  /** The framing of NUL-free values can be undone, so different values are hashed as different texts. */
  lemma {:induction false} FrameInjective(xs: seq<string>, ys: seq<string>)
    requires forall x | x in xs :: NulFree(x)
    requires forall y | y in ys :: NulFree(y)
    requires Frame(xs) == Frame(ys)
    ensures xs == ys
    decreases |xs|
  {
    if xs == [] || ys == [] {
      assert xs == ys == [];
    } else {
      NulAt(xs[0], Frame(xs[1..]));
      NulAt(ys[0], Frame(ys[1..]));
      FrameInjective(xs[1..], ys[1..]);
      assert xs == [xs[0]] + xs[1..] && ys == [ys[0]] + ys[1..];
    }
  }

  lemma VersionStringSplits(name: string, version: string)
    requires ':' !in name
    ensures Cut(name + ":" + version, ":") == Pieces(name, version, true)
  {
    CutConcat(name, ":", version);
  }

  lemma VersionsIncluded(a: map<string, string>, b: map<string, string>)
    requires ColonFree(a) && ColonFree(b) && VersionStrings(a) <= VersionStrings(b)
    ensures forall name | name in a :: name in b && b[name] == a[name]
  {
    forall name | name in a
      ensures name in b && b[name] == a[name]
    {
      assert name + ":" + a[name] in VersionStrings(a);
      var other :| other in b && other + ":" + b[other] == name + ":" + a[name];
      VersionStringSplits(name, a[name]);
      VersionStringSplits(other, b[other]);
    }
  }

  /**
   The workload hash sees exactly the configuration text and which agent secret has which version: equal hash
   inputs mean equal texts and equal maps, in whatever order the map was walked.
   */
  lemma HashInputIsInjective(text: string, versions: map<string, string>, text': string, versions': map<string, string>)
    requires NulFree(text) && NulFree(text') && ColonFree(versions) && ColonFree(versions')
    requires forall v | v in VersionList(versions) + VersionList(versions') :: NulFree(v)
    ensures Frame([text] + VersionList(versions)) == Frame([text'] + VersionList(versions'))
            <==> text == text' && versions == versions'
  {
    var xs, ys := [text] + VersionList(versions), [text'] + VersionList(versions');
    if Frame(xs) == Frame(ys) {
      FrameInjective(xs, ys);
      assert xs[0] == text && ys[0] == text' && xs[1..] == VersionList(versions) && ys[1..] == VersionList(versions');
      forall s
        ensures s in VersionStrings(versions) <==> s in VersionStrings(versions')
      {
        assert s in VersionStrings(versions) <==> s in VersionList(versions);
        assert s in VersionStrings(versions') <==> s in VersionList(versions');
      }
      VersionsIncluded(versions, versions');
      VersionsIncluded(versions', versions);
    }
  }
}
