/** The resource builders (internal/resource): what each builds, and how its Update mutates an object. */
module Builders {
  import opened Basics
  import opened Objects
  import opened Store
  import opened Names
  import opened Metadata
  import opened Resources
  import Merge
  import Plugins
  import Secrets
  import ServerConfig

  const PLUGINS_FILE := "enabled_plugins"
  const CLUSTER_IP := "ClusterIP"
  const NO_SPREAD := "rabbitmq.com/disable-default-topology-spread-constraints"
  const ZONE := "topology.kubernetes.io/zone"
  const ROLLING := "RollingUpdate, partition 0"

  // ------------------------------------------------- the shape of an Update

  /** Labels, annotations and owner after Update; a service has annotations of its own. */
  function Touched(rmq: Cluster, extra: StrMap, meta: Meta): Meta {
    var m := Metadata.Renewed(rmq, meta);
    m.(annotations := ReconcileAnnotations(m.annotations, extra))
  }

  /** Update of every builder but the server ConfigMap's: metadata, then the builder's own part. */
  function PlainUpdate(rmq: Cluster, kind: Kind, extra: StrMap, body: Object -> Object, o: Object): Mutation {
    if !Fits(kind, o) || OwnedByOther(o.meta, rmq) then Rejected
    else Accepted(body(WithMeta(o, Touched(rmq, extra, o.meta))), false)
  }

  function PlainBuilder(
    rmq: Cluster, role: Role, key: Key, build: string -> Object, extra: StrMap, body: Object -> Object): Builder
  {
    Builder(role, key, build, (o: Object) => PlainUpdate(rmq, key.kind, extra, body, o))
  }

  /** A builder's own part is idempotent and blind to metadata and status. */
  ghost predicate LawfulBody(kind: Kind, body: Object -> Object) {
    && (forall o :: Fits(kind, o) ==> Fits(kind, body(o)) && body(o).meta == o.meta && body(body(o)) == body(o))
    && (forall o: Object, m :: Fits(kind, o) ==> body(WithMeta(o, m)) == WithMeta(body(o), m))
    && (forall o: Object, st :: kind == KindStatefulSet && Fits(kind, o) ==>
      body(o.(status := st)) == body(o).(status := st))
  }

  lemma TouchedTwice(rmq: Cluster, extra: StrMap, meta: Meta)
    ensures Touched(rmq, extra, Touched(rmq, extra, meta)) == Touched(rmq, extra, meta)
    ensures !OwnedByOther(Touched(rmq, extra, meta), rmq)
  {
    var kept := Metadata.Kept(rmq.annotations, true);
    var once := Touched(rmq, extra, meta);
    MergeOne(meta.annotations, rmq.annotations, true);
    MergeOne(once.annotations, rmq.annotations, true);
    MergeOne(meta.annotations + kept, extra, false);
    MergeOne(once.annotations + kept, extra, false);
    assert Metadata.Kept(extra, false) == extra;
    assert once.annotations + kept + extra == once.annotations;
  }

  /** The operator's flags on an object do not disturb its metadata fixpoint. */
  lemma TouchedIgnoresFlags(rmq: Cluster, extra: StrMap, o: Object, p: Object)
    requires Clean(rmq) && SameButFlags(o, p) && Touched(rmq, extra, o.meta) == o.meta
    requires forall k :: k in extra ==> !OperatorKey(k)
    ensures Touched(rmq, extra, p.meta) == p.meta && p.meta.owner == o.meta.owner
  {
    hide OperatorKey;
    var kept, a, b := Metadata.Kept(rmq.annotations, true), o.meta.annotations, p.meta.annotations;
    MergeOne(a, rmq.annotations, true);
    MergeOne(b, rmq.annotations, true);
    MergeOne(a + kept, extra, false);
    MergeOne(b + kept, extra, false);
    assert Metadata.Kept(extra, false) == extra;
    assert a + kept + extra == a;
    forall k | k in kept || k in extra ensures k in b && (b + kept + extra)[k] == b[k] {
      assert k in a && (a + kept + extra)[k] == a[k];
    }
    assert b + kept + extra == b;
  }

  lemma PlainFixed(rmq: Cluster, b: Builder, extra: StrMap, body: Object -> Object, o: Object)
    requires LawfulBody(b.key.kind, body)
    requires b.update == PlainBuilder(rmq, b.role, b.key, b.build, extra, body).update
    ensures Fixed(b, o) <==>
              Fits(b.key.kind, o) && !OwnedByOther(o.meta, rmq) && Touched(rmq, extra, o.meta) == o.meta && body(o) == o
  {
    assert b.update(o) == PlainUpdate(rmq, b.key.kind, extra, body, o);
    if Fits(b.key.kind, o) {
      assert body(WithMeta(o, Touched(rmq, extra, o.meta))) == WithMeta(body(o), Touched(rmq, extra, o.meta));
    }
  }

  /** What Update returns is a fixpoint of the builder. */
  lemma PlainIdempotent(rmq: Cluster, b: Builder, extra: StrMap, body: Object -> Object, o: Object)
    requires LawfulBody(b.key.kind, body)
    requires b.update == PlainBuilder(rmq, b.role, b.key, b.build, extra, body).update
    requires Fits(b.key.kind, o) && b.update(o).Accepted?
    ensures Fits(b.key.kind, b.update(o).result) && Fixed(b, b.update(o).result)
  {
    hide Touched;
    var m := Touched(rmq, extra, o.meta);
    TouchedTwice(rmq, extra, o.meta);
    assert b.update(o).result == body(WithMeta(o, m));
    PlainFixed(rmq, b, extra, body, body(WithMeta(o, m)));
  }

  /** A fixpoint stays one when only the operator's flags on it change. */
  lemma PlainIgnoresFlags(rmq: Cluster, b: Builder, extra: StrMap, body: Object -> Object, o: Object, p: Object)
    requires Clean(rmq) && LawfulBody(b.key.kind, body)
    requires forall k :: k in extra ==> !OperatorKey(k)
    requires b.update == PlainBuilder(rmq, b.role, b.key, b.build, extra, body).update
    requires Fixed(b, o) && SameButFlags(o, p)
    ensures Fixed(b, p)
  {
    PlainFixed(rmq, b, extra, body, o);
    PlainFixed(rmq, b, extra, body, p);
    TouchedIgnoresFlags(rmq, extra, o, p);
    hide Touched, OperatorKey, Clean;
    assert p == WithMeta(o, p.meta);
    assert body(p) == WithMeta(body(o), p.meta);
  }

  /** The builder has this shape, with these annotations and this part of its own. */
  ghost predicate Plainly(rmq: Cluster, b: Builder, extra: StrMap, body: Object -> Object) {
    && LawfulBody(b.key.kind, body)
    && (forall k :: k in extra ==> !OperatorKey(k))
    && b.update == PlainBuilder(rmq, b.role, b.key, b.build, extra, body).update
    && (forall r :: Fits(b.key.kind, b.build(r)))
    && (b.role.Node? <==> b.key.kind == KindStatefulSet)
  }

  ghost predicate IsPlain(rmq: Cluster, b: Builder) {
    exists extra, body :: Plainly(rmq, b, extra, body)
  }

  /** Every builder of this shape behaves well. */
  lemma PlainWellBehaved(rmq: Cluster, b: Builder)
    requires Clean(rmq) && IsPlain(rmq, b)
    ensures WellBehaved(b)
  {
    hide Touched, OperatorKey, SameButFlags, Clean;
    var extra, body :| Plainly(rmq, b, extra, body);
    forall o | Fits(b.key.kind, o) && b.update(o).Accepted?
      ensures Fits(b.key.kind, b.update(o).result) && Fixed(b, b.update(o).result)
    {
      PlainIdempotent(rmq, b, extra, body, o);
    }
    forall o: Object, st | o.StatefulSet? && Fixed(b, o) ensures Fixed(b, o.(status := st)) {
      PlainFixed(rmq, b, extra, body, o);
      PlainFixed(rmq, b, extra, body, o.(status := st));
    }
    forall o, p | Fixed(b, o) && SameButFlags(o, p) ensures Fixed(b, p) {
      PlainIgnoresFlags(rmq, b, extra, body, o, p);
    }
  }

  lemma TouchedKeepsFlags(rmq: Cluster, extra: StrMap, meta: Meta, f: string)
    requires Clean(rmq) && OperatorKey(f) && f in meta.annotations && f !in extra
    ensures var m := Touched(rmq, extra, meta);
            f in m.annotations && m.annotations[f] == meta.annotations[f]
  {
    hide OperatorKey;
    MergeOne(meta.annotations, rmq.annotations, true);
    MergeOne(meta.annotations + Metadata.Kept(rmq.annotations, true), extra, false);
  }

  /** Update keeps the operator's flags. */
  lemma PlainKeepsFlags(rmq: Cluster, b: Builder, o: Object, f: string)
    requires Clean(rmq) && IsPlain(rmq, b) && OperatorKey(f) && f in o.meta.annotations && b.update(o).Accepted?
    ensures var p := b.update(o).result;
            f in p.meta.annotations && p.meta.annotations[f] == o.meta.annotations[f]
  {
    hide OperatorKey, Clean, Touched, LawfulBody;
    var extra, body :| Plainly(rmq, b, extra, body);
    PlainMeta(rmq, b, extra, body, o);
    TouchedKeepsFlags(rmq, extra, o.meta, f);
  }

  lemma PlainMeta(rmq: Cluster, b: Builder, extra: StrMap, body: Object -> Object, o: Object)
    requires LawfulBody(b.key.kind, body) && b.update(o).Accepted?
    requires b.update == PlainBuilder(rmq, b.role, b.key, b.build, extra, body).update
    ensures b.update(o).result.meta == Touched(rmq, extra, o.meta)
  {
    hide Touched;
    var p := WithMeta(o, Touched(rmq, extra, o.meta));
    assert b.update(o) == PlainUpdate(rmq, b.key.kind, extra, body, o);
    assert Fits(b.key.kind, p);
    assert body(p).meta == p.meta;
  }

  // ----------------------------------------------------------------- services

  function HeadlessName(rmq: Cluster): string { ChildResourceName(rmq.name, "nodes") }

  function EmptyService(rmq: Cluster): Object {
    Service(Initial(rmq), ServiceSpec("", "", false, map[], []))
  }

  function HeadlessBody(rmq: Cluster, o: Object): Object {
    if !o.Service? then o
    else Service(o.meta, ServiceSpec(
      CLUSTER_IP, "None", true, LabelSelector(rmq.name),
      Merge.Merged(Merge.PORTS, o.service.ports, rmq.spec.headlessPorts)))
  }

  function WithoutNodePorts(ports: seq<ServicePort>): seq<ServicePort> {
    seq(|ports|, i requires 0 <= i < |ports| => ports[i].(nodePort := 0))
  }

  function ServiceType(rmq: Cluster): string {
    if rmq.spec.serviceType == "" then CLUSTER_IP else rmq.spec.serviceType
  }

  function ClientPorts(rmq: Cluster, ports: seq<ServicePort>): seq<ServicePort> {
    var merged := Merge.Merged(Merge.PORTS, ports, rmq.spec.clientPorts);
    if ServiceType(rmq) == CLUSTER_IP then WithoutNodePorts(merged) else merged
  }

  function ClientBody(rmq: Cluster, o: Object): Object {
    if !o.Service? then o
    else Service(o.meta, o.service.(
      ports := ClientPorts(rmq, o.service.ports), selector := LabelSelector(rmq.name), serviceType := ServiceType(rmq)))
  }

  /** Dropping the node ports does not undo a merge. */
  lemma ZeroedStaysMerged(ports: seq<ServicePort>, next: seq<ServicePort>)
    ensures var z := WithoutNodePorts(Merge.Merged(Merge.PORTS, ports, next));
            Merge.Merged(Merge.PORTS, z, next) == z
  {
    Merge.RulesLawful();
    var m := Merge.PORTS;
    var r := Merge.Merged(m, ports, next);
    var z := WithoutNodePorts(r);
    Merge.MergeIdempotent(m, ports, next);
    forall k ensures Merge.Last(m, z, k) == Merge.Last(m, r, k) {
      Merge.KeysPointwise(m, z, r, k);
    }
    forall k | Merge.HasKey(m, next, k)
      ensures Merge.HasKey(m, z, k)
      ensures m.put(z[Merge.Last(m, z, k)], next[Merge.Last(m, next, k)]) == z[Merge.Last(m, z, k)]
    {
      var at := Merge.Last(m, r, k);
      assert m.put(r[at], next[Merge.Last(m, next, k)]) == r[at];
    }
    Merge.FixpointIff(m, z, next);
  }

  /** A second pass over the client ports changes nothing, node ports kept or dropped. */
  lemma ClientPortsTwice(rmq: Cluster, ports: seq<ServicePort>)
    ensures ClientPorts(rmq, ClientPorts(rmq, ports)) == ClientPorts(rmq, ports)
  {
    Merge.RulesLawful();
    Merge.MergeIdempotent(Merge.PORTS, ports, rmq.spec.clientPorts);
    ZeroedStaysMerged(ports, rmq.spec.clientPorts);
  }

  lemma HeadlessBodyLawful(rmq: Cluster)
    ensures LawfulBody(KindService, (o: Object) => HeadlessBody(rmq, o))
  {
    hide CLUSTER_IP;
    forall o: Object | o.Service? ensures HeadlessBody(rmq, HeadlessBody(rmq, o)) == HeadlessBody(rmq, o) {
      Merge.RulesLawful();
      Merge.MergeIdempotent(Merge.PORTS, o.service.ports, rmq.spec.headlessPorts);
    }
  }

  lemma ClientBodyLawful(rmq: Cluster)
    ensures LawfulBody(KindService, (o: Object) => ClientBody(rmq, o))
  {
    hide ClientPorts, ServiceType;
    forall o: Object | o.Service? ensures ClientBody(rmq, ClientBody(rmq, o)) == ClientBody(rmq, o) {
      ClientPortsTwice(rmq, o.service.ports);
    }
  }

  /** The loop that drops node ports. */
  method UpdateClientPorts(rmq: Cluster, ports: seq<ServicePort>) returns (r: seq<ServicePort>)
    ensures r == ClientPorts(rmq, ports)
  {
    Merge.RulesLawful();
    r := Merge.MergeByIndex(Merge.PORTS, ports, rmq.spec.clientPorts);
    if ServiceType(rmq) == CLUSTER_IP {
      ghost var merged := r;
      for i := 0 to |r|
        invariant |r| == |merged|
        invariant forall j :: 0 <= j < |r| ==> r[j] == if j < i then merged[j].(nodePort := 0) else merged[j]
      {
        r := r[i := r[i].(nodePort := 0)];
      }
    }
  }

  // -------------------------------------------------- secrets, plugins, rbac

  function SecretBody(rmq: Cluster, o: Object): Object {
    if !o.Secret? then o else Secret(o.meta, Secrets.UpdatedData(rmq, o.data))
  }

  function PluginsBody(rmq: Cluster, o: Object): Object {
    if !o.ConfigMap? then o
    else ConfigMap(o.meta, o.files[PLUGINS_FILE := Text(Plugins.EnabledPluginsFile(rmq.spec.plugins))])
  }

  function RbacBody(content: seq<string>, o: Object): Object {
    if !o.Rbac? then o else Rbac(o.meta, content)
  }

  function RoleRules(rmq: Cluster): seq<string> { ["endpoints: get", "events: create"] }

  function BindingSubjects(rmq: Cluster): seq<string> {
    [ChildResourceName(rmq.name, "peer-discovery"), ChildResourceName(rmq.name, "server")]
  }

  lemma SecretBodyLawful(rmq: Cluster)
    ensures LawfulBody(KindSecret, (o: Object) => SecretBody(rmq, o))
  {
    hide Secrets.UpdatedData;
    forall o: Object | o.Secret? ensures SecretBody(rmq, SecretBody(rmq, o)) == SecretBody(rmq, o) {
      Secrets.UpdateTwice(rmq, o.data);
    }
  }

  lemma PluginsBodyLawful(rmq: Cluster)
    ensures LawfulBody(KindConfigMap, (o: Object) => PluginsBody(rmq, o))
  {
    hide Plugins.EnabledPluginsFile, PLUGINS_FILE;
    forall o: Object | o.ConfigMap? ensures PluginsBody(rmq, PluginsBody(rmq, o)) == PluginsBody(rmq, o) {
      var f := o.files[PLUGINS_FILE := Text(Plugins.EnabledPluginsFile(rmq.spec.plugins))];
      assert f[PLUGINS_FILE := f[PLUGINS_FILE]] == f;
    }
  }

  lemma SameBodyLawful(kind: Kind)
    requires kind != KindStatefulSet
    ensures LawfulBody(kind, (o: Object) => o)
  {
  }

  lemma RbacBodyLawful(kind: Kind, content: seq<string>)
    requires kind == KindRole || kind == KindRoleBinding
    ensures LawfulBody(kind, (o: Object) => RbacBody(content, o))
  {
    assert forall o :: Fits(kind, o) <==> o.Rbac?;
    var body := (o: Object) => RbacBody(content, o);
    forall o: Object, m | Fits(kind, o) ensures body(WithMeta(o, m)) == WithMeta(body(o), m) {
      assert body(o) == Rbac(o.meta, content) && WithMeta(o, m) == Rbac(m, o.content);
    }
  }

  // ------------------------------------------------------------- StatefulSets

  function When<T>(condition: bool, items: seq<T>): seq<T> { if condition then items else [] }

  function ConfSource(rmq: Cluster): string {
    "projected " + ChildResourceName(rmq.name, "server-conf")
    + if rmq.VaultDefaultUserSecretEnabled() then ""
      else if rmq.ExternalSecretEnabled() then " " + rmq.spec.externalSecret
      else " " + ChildResourceName(rmq.name, "default-user")
  }

  function TLSSource(rmq: Cluster): string {
    "projected " + rmq.spec.tlsSecret
    + if rmq.MutualTLSEnabled() && rmq.spec.caSecret != rmq.spec.tlsSecret then " " + rmq.spec.caSecret else ""
  }

  predicate ConfigurationIsSet(rmq: Cluster) {
    rmq.spec.advancedConfig != "" || rmq.spec.envConfig != "" || rmq.spec.erlangInetConfig != ""
  }

  /** The volumes of a node; a source is written as its kind and the names it refers to. */
  function Volumes(rmq: Cluster): seq<Volume> {
    [ Volume("rabbitmq-confd", ConfSource(rmq)), Volume("rabbitmq-log", "emptyDir"),
      Volume("rabbitmq-plugins", "emptyDir"),
      Volume("plugins-conf", "configMap " + ChildResourceName(rmq.name, "plugins-conf")),
      Volume("rabbitmq-erlang-cookie", "emptyDir"),
      Volume("erlang-cookie-secret", "secret " + ChildResourceName(rmq.name, "erlang-cookie")),
      Volume("pod-info", "downwardAPI") ]
    + When(rmq.SecretTLSEnabled(), [Volume("rabbitmq-tls", TLSSource(rmq))])
    + When(rmq.spec.storage == 0, [Volume(PVC_NAME, "emptyDir")])
    + When(ConfigurationIsSet(rmq), [Volume("server-conf", "configMap " + ChildResourceName(rmq.name, "server-conf"))])
  }

  /** Image, readiness port and the mounts that depend on the cluster. */
  function RabbitmqContainer(rmq: Cluster): Container {
    Container("rabbitmq", rmq.spec.memoryLimit, rmq.spec.memoryRequest,
      [rmq.spec.image, if rmq.spec.disableNonTLS then "amqps" else "amqp"]
      + When(rmq.SecretTLSEnabled(), ["rabbitmq-tls"])
      + When(!rmq.VaultDefaultUserSecretEnabled(), ["default_user.conf"])
      + When(rmq.spec.envConfig != "", ["rabbitmq-env.conf"])
      + When(rmq.spec.advancedConfig != "", ["advanced.config"])
      + When(rmq.spec.erlangInetConfig != "", ["erl_inetrc"]))
  }

  function UpdaterContainer(rmq: Cluster, image: string): Container {
    Container("default-user-credential-updater", 128 * 1048576, 512 * 1024,
      [image, if rmq.TLSEnabled() then "https" else "http"] + When(rmq.SecretTLSEnabled(), ["rabbitmq-tls"]))
  }

  function Containers(rmq: Cluster): seq<Container> {
    [RabbitmqContainer(rmq)]
    + if && rmq.VaultDefaultUserSecretEnabled() && rmq.spec.vault.value.updaterImage.Some?
         && rmq.spec.vault.value.updaterImage.value != ""
      then [UpdaterContainer(rmq, rmq.spec.vault.value.updaterImage.value)] else []
  }

  function SetupContainer(rmq: Cluster): Container {
    Container("setup-container", 500 * 1048576, 500 * 1048576,
      [rmq.spec.image] + When(!rmq.VaultDefaultUserSecretEnabled(), ["default_user.conf"]))
  }

  predicate DefaultConstraintsDisabled(rmq: Cluster) {
    TrimSpace(Lookup(rmq.annotations, NO_SPREAD)) == "true"
  }

  function Constraints(rmq: Cluster, curr: seq<Constraint>): seq<Constraint> {
    if DefaultConstraintsDisabled(rmq) then curr
    else Merge.Merged(Merge.CONSTRAINTS, curr, [Constraint(ZONE, "max skew 1 for " + rmq.name)])
  }

  /** The persistent claim; its labels, annotations and owner only matter when the set is created. */
  function Claims(rmq: Cluster, curr: seq<Claim>): seq<Claim> {
    if rmq.spec.storage == 0 then curr
    else Merge.Merged(Merge.CLAIMS, curr, [Claim(PVC_NAME, rmq.spec.storage, "ReadWriteOnce, owner " + rmq.uid)])
  }

  /** podHostNames */
  function PodHostNames(rmq: Cluster, n: nat): string {
    if n == 0 then ""
    else
      var host := PodName(rmq.name, SET_SUFFIX, n - 1) + "." + HeadlessName(rmq) + "." + rmq.namespace;
      if n == 1 then host else PodHostNames(rmq, n - 1) + "," + host
  }

  const VAULT := "vault.hashicorp.com/"

  /** appendVaultAnnotations; a template is written as the values it is filled with. */
  function VaultAnnotations(rmq: Cluster): StrMap {
    if rmq.spec.vault.None? then map[]
    else
      var vault := rmq.spec.vault.value;
      map[VAULT + "agent-inject" := "true", VAULT + "agent-init-first" := "true", VAULT + "role" := vault.role]
      + (if vault.defaultUserPath == "" then map[]
         else map[VAULT + "agent-inject-secret-11-default_user.conf" := vault.defaultUserPath])
      + (if vault.pkiIssuerPath == "" then map[]
         else map[VAULT + "agent-inject-secret-tls.crt" := vault.pkiIssuerPath,
                  VAULT + "agent-inject-template-tls.crt" := PodHostNames(rmq, rmq.spec.replicas)])
      + vault.annotations
  }

  /** What is copied into the pod specification as it is. */
  function PodContent(rmq: Cluster): seq<string> {
    rmq.spec.podSettings + (if rmq.spec.pullSecrets.Some? then rmq.spec.pullSecrets.value else [])
    + [ChildResourceName(rmq.name, "server")]
  }

  /** podTemplateSpec */
  function Template(rmq: Cluster, pod: PodTemplate): PodTemplate {
    PodTemplate(
      Label(rmq.name),
      ReconcileAnnotations(pod.annotations, VaultAnnotations(rmq)),
      Merge.Merged(Merge.VOLUMES, pod.volumes, Volumes(rmq)),
      Merge.Merged(Merge.CONTAINERS, pod.containers, Containers(rmq)),
      Merge.Merged(Merge.CONTAINERS, pod.initContainers, [SetupContainer(rmq)]),
      Constraints(rmq, pod.constraints),
      PodContent(rmq))
  }

  function UpdatedSpec(rmq: Cluster, spec: SetSpec): SetSpec {
    spec.(
      replicas := if rmq.spec.disable then 0 else 1,
      template := Template(rmq, spec.template),
      claims := Claims(rmq, spec.claims),
      updateStrategy := ROLLING)
  }

  function SetBody(rmq: Cluster, o: Object): Object {
    if !o.StatefulSet? then o else StatefulSet(o.meta, UpdatedSpec(rmq, o.spec), o.status)
  }

  const EMPTY_TEMPLATE := PodTemplate(map[], map[], [], [], [], [], [])

  function BuildSet(rmq: Cluster): Object {
    StatefulSet(Initial(rmq),
      SetSpec(0, LabelSelector(rmq.name), HeadlessName(rmq), EMPTY_TEMPLATE, Claims(rmq, []), ""),
      SetStatus(0, 0, 0))
  }

  lemma TemplateTwice(rmq: Cluster, pod: PodTemplate)
    ensures Template(rmq, Template(rmq, pod)) == Template(rmq, pod)
  {
    hide Volumes, Containers, SetupContainer, VaultAnnotations;
    Merge.RulesLawful();
    MergeTwice(pod.annotations, [VaultAnnotations(rmq)], false);
    Merge.MergeIdempotent(Merge.VOLUMES, pod.volumes, Volumes(rmq));
    Merge.MergeIdempotent(Merge.CONTAINERS, pod.containers, Containers(rmq));
    Merge.MergeIdempotent(Merge.CONTAINERS, pod.initContainers, [SetupContainer(rmq)]);
    Merge.MergeIdempotent(Merge.CONSTRAINTS, pod.constraints, [Constraint(ZONE, "max skew 1 for " + rmq.name)]);
  }

  lemma ClaimsTwice(rmq: Cluster, curr: seq<Claim>)
    ensures Claims(rmq, Claims(rmq, curr)) == Claims(rmq, curr)
  {
    Merge.RulesLawful();
    Merge.MergeIdempotent(Merge.CLAIMS, curr, [Claim(PVC_NAME, rmq.spec.storage, "ReadWriteOnce, owner " + rmq.uid)]);
  }

  lemma SetBodyLawful(rmq: Cluster)
    ensures LawfulBody(KindStatefulSet, (o: Object) => SetBody(rmq, o))
  {
    hide Template, Claims;
    forall o: Object | o.StatefulSet? ensures SetBody(rmq, SetBody(rmq, o)) == SetBody(rmq, o) {
      TemplateTwice(rmq, o.spec.template);
      ClaimsTwice(rmq, o.spec.claims);
    }
  }

  /** volumes: the fixed volumes, then the ones the cluster asks for, merged onto the current ones. */
  method MakeVolumes(rmq: Cluster, curr: seq<Volume>) returns (r: seq<Volume>)
    ensures r == Merge.Merged(Merge.VOLUMES, curr, Volumes(rmq))
  {
    hide ConfSource, TLSSource;
    var volumes := [
      Volume("rabbitmq-confd", ConfSource(rmq)), Volume("rabbitmq-log", "emptyDir"),
      Volume("rabbitmq-plugins", "emptyDir"),
      Volume("plugins-conf", "configMap " + ChildResourceName(rmq.name, "plugins-conf")),
      Volume("rabbitmq-erlang-cookie", "emptyDir"),
      Volume("erlang-cookie-secret", "secret " + ChildResourceName(rmq.name, "erlang-cookie")),
      Volume("pod-info", "downwardAPI")];
    if rmq.SecretTLSEnabled() {
      volumes := volumes + [Volume("rabbitmq-tls", TLSSource(rmq))];
    }
    if rmq.spec.storage == 0 {
      volumes := volumes + [Volume(PVC_NAME, "emptyDir")];
    }
    if ConfigurationIsSet(rmq) {
      volumes := volumes + [Volume("server-conf", "configMap " + ChildResourceName(rmq.name, "server-conf"))];
    }
    assert volumes == Volumes(rmq);
    hide Volumes;
    Merge.RulesLawful();
    r := Merge.MergeByIndex(Merge.VOLUMES, curr, volumes);
  }

  /** podTemplateSpec, rewriting the template it is given. */
  method PodTemplateSpec(rmq: Cluster, template: PodTemplate) returns (pod: PodTemplate)
    ensures pod == Template(rmq, template)
  {
    hide Volumes, Containers, SetupContainer, VaultAnnotations, DefaultConstraintsDisabled;
    Merge.RulesLawful();
    var annotations := Metadata.Merge(template.annotations, [VaultAnnotations(rmq)], false);
    pod := template.(labels := Label(rmq.name), annotations := annotations);
    var volumes := MakeVolumes(rmq, template.volumes);
    var containers := Merge.MergeByIndex(Merge.CONTAINERS, template.containers, Containers(rmq));
    var initContainers := Merge.MergeByIndex(Merge.CONTAINERS, template.initContainers, [SetupContainer(rmq)]);
    pod := pod.(volumes := volumes, containers := containers, initContainers := initContainers);
    if !DefaultConstraintsDisabled(rmq) {
      var constraints := Merge.MergeByIndex(Merge.CONSTRAINTS, template.constraints,
        [Constraint(ZONE, "max skew 1 for " + rmq.name)]);
      pod := pod.(constraints := constraints);
    }
    pod := pod.(content := PodContent(rmq));
  }

  lemma TouchedPlainly(rmq: Cluster, meta: Meta)
    ensures Touched(rmq, map[], meta) == Metadata.Renewed(rmq, meta)
  {
    MergeOne(Metadata.Renewed(rmq, meta).annotations, map[], false);
    assert Metadata.Kept(map[], false) == map[];
  }

  /** StatefulSetBuilder.Update, field by field. */
  method UpdateStatefulSet(rmq: Cluster, o: Object) returns (m: Mutation)
    requires o.StatefulSet?
    ensures m == PlainUpdate(rmq, KindStatefulSet, map[], (p: Object) => SetBody(rmq, p), o)
  {
    hide Template, Metadata.GetLabels;
    var meta, spec := o.meta, o.spec;
    meta := meta.(labels := Metadata.GetLabels(rmq.name, rmq.labels));
    var annotations := Metadata.Merge(meta.annotations, [rmq.annotations], true);
    meta := meta.(annotations := annotations);
    spec := spec.(replicas := if rmq.spec.disable then 0 else 1);
    var template := PodTemplateSpec(rmq, spec.template);
    spec := spec.(template := template);
    if rmq.spec.storage != 0 {
      Merge.RulesLawful();
      var claims := Merge.MergeByIndex(Merge.CLAIMS, spec.claims,
        [Claim(PVC_NAME, rmq.spec.storage, "ReadWriteOnce, owner " + rmq.uid)]);
      spec := spec.(claims := claims);
    }
    spec := spec.(updateStrategy := ROLLING);
    if OwnedByOther(o.meta, rmq) { return Rejected; }
    meta := meta.(owner := Some(OwnerRef(OWNER_KIND, rmq.name, rmq.uid)));
    TouchedPlainly(rmq, o.meta);
    hide Touched;
    return Accepted(StatefulSet(meta, spec, o.status), false);
  }

  // -------------------------------------------------------- the builder list

  function ServiceNamed(rmq: Cluster, suffix: string): Key { Key(KindService, ChildResourceName(rmq.name, suffix)) }
  function SecretNamed(rmq: Cluster, suffix: string): Key { Key(KindSecret, ChildResourceName(rmq.name, suffix)) }
  function ConfigNamed(rmq: Cluster, suffix: string): Key { Key(KindConfigMap, ChildResourceName(rmq.name, suffix)) }

  function NodeKey(cluster: string, i: nat): Key { Key(KindStatefulSet, StatefulsetName(cluster, SET_SUFFIX, i)) }

  function HeadlessBuilder(rmq: Cluster): Builder {
    PlainBuilder(rmq, HeadlessService, ServiceNamed(rmq, "nodes"), _ => EmptyService(rmq), map[],
      (o: Object) => HeadlessBody(rmq, o))
  }

  function ClientBuilder(rmq: Cluster): Builder {
    PlainBuilder(rmq, ClientService, ServiceNamed(rmq, ""), _ => EmptyService(rmq), rmq.spec.serviceAnnotations,
      (o: Object) => ClientBody(rmq, o))
  }

  function CookieBuilder(rmq: Cluster): Builder {
    PlainBuilder(rmq, ErlangCookie, SecretNamed(rmq, "erlang-cookie"), r => Secrets.BuildCookie(rmq, r), map[],
      (o: Object) => o)
  }

  function UserBuilder(rmq: Cluster): Builder {
    PlainBuilder(rmq, DefaultUserSecret, SecretNamed(rmq, "default-user"), r => Secrets.BuildDefaultUser(rmq, r),
      map[], (o: Object) => SecretBody(rmq, o))
  }

  function PluginsBuilder(rmq: Cluster): Builder {
    PlainBuilder(rmq, PluginsConfigMap, ConfigNamed(rmq, "plugins-conf"),
      _ => ConfigMap(Initial(rmq), map[PLUGINS_FILE := Text(Plugins.EnabledPluginsFile([]))]), map[],
        (o: Object) => PluginsBody(rmq, o))
  }

  function ServerConfBuilder(rmq: Cluster): Builder {
    Builder(ServerConfigMap, ConfigNamed(rmq, "server-conf"), _ => ConfigMap(Initial(rmq), map[]),
      (o: Object) => ServerConfig.UpdateServerConfig(rmq, o))
  }

  function AccountBuilder(rmq: Cluster): Builder {
    PlainBuilder(rmq, ServiceAccount, Key(KindServiceAccount, ChildResourceName(rmq.name, "server")),
      _ => Rbac(Initial(rmq), []), map[], (o: Object) => o)
  }

  function RoleBuilder(rmq: Cluster): Builder {
    PlainBuilder(rmq, PeerDiscoveryRole, Key(KindRole, ChildResourceName(rmq.name, "peer-discovery")),
      _ => Rbac(Initial(rmq), []), map[],
      (o: Object) => RbacBody(RoleRules(rmq), o))
  }

  function BindingBuilder(rmq: Cluster): Builder {
    PlainBuilder(rmq, RoleBinding, Key(KindRoleBinding, ChildResourceName(rmq.name, "server")),
      _ => Rbac(Initial(rmq), []), map[],
      (o: Object) => RbacBody(BindingSubjects(rmq), o))
  }

  function NodeBuilder(rmq: Cluster, i: nat): Builder {
    PlainBuilder(rmq, Node(i), NodeKey(rmq.name, i), _ => BuildSet(rmq), map[], (o: Object) => SetBody(rmq, o))
  }

  predicate HasUserSecret(rmq: Cluster) {
    !rmq.VaultDefaultUserSecretEnabled() && !rmq.ExternalSecretEnabled()
  }

  function BaseBuilders(rmq: Cluster): seq<Builder> {
    [HeadlessBuilder(rmq), ClientBuilder(rmq), CookieBuilder(rmq)]
    + When(HasUserSecret(rmq), [UserBuilder(rmq)])
    + [PluginsBuilder(rmq), ServerConfBuilder(rmq), AccountBuilder(rmq), RoleBuilder(rmq), BindingBuilder(rmq)]
  }

  /** Where the server ConfigMap's builder stands among them. */
  function ConfIndex(rmq: Cluster): nat { if HasUserSecret(rmq) then 5 else 4 }

  function NodeBuilders(rmq: Cluster, n: nat): (r: seq<Builder>)
    ensures |r| == n && forall i :: 0 <= i < n ==> r[i] == NodeBuilder(rmq, i)
  {
    if n == 0 then [] else NodeBuilders(rmq, n - 1) + [NodeBuilder(rmq, n - 1)]
  }

  function ResourceBuilders(rmq: Cluster): seq<Builder> {
    BaseBuilders(rmq) + NodeBuilders(rmq, rmq.spec.replicas)
  }

  /** ResourceBuilders: all builders are appended, then the one for the user secret is cut out. */
  method MakeResourceBuilders(rmq: Cluster) returns (builders: seq<Builder>)
    ensures builders == ResourceBuilders(rmq)
  {
    hide HeadlessBuilder, ClientBuilder, CookieBuilder, UserBuilder, PluginsBuilder, ServerConfBuilder;
    hide AccountBuilder, RoleBuilder, BindingBuilder, NodeBuilder;
    builders := [
      HeadlessBuilder(rmq), ClientBuilder(rmq), CookieBuilder(rmq), UserBuilder(rmq), PluginsBuilder(rmq),
      ServerConfBuilder(rmq), AccountBuilder(rmq), RoleBuilder(rmq), BindingBuilder(rmq)];
    ghost var base := builders;
    for i := 0 to rmq.spec.replicas
      invariant builders == base + NodeBuilders(rmq, i)
    {
      builders := builders + [NodeBuilder(rmq, i)];
    }
    if rmq.VaultDefaultUserSecretEnabled() || rmq.ExternalSecretEnabled() {
      builders := builders[..3] + builders[3 + 1..];
      assert base[..3] + base[4..] == BaseBuilders(rmq);
    } else {
      assert base == BaseBuilders(rmq);
    }
  }

  // ------------------------------------------------------------------- proofs

  lemma ServicesPlain(rmq: Cluster)
    requires Clean(rmq)
    ensures IsPlain(rmq, HeadlessBuilder(rmq)) && IsPlain(rmq, ClientBuilder(rmq))
  {
    hide LawfulBody, HeadlessBody, ClientBody, OperatorKey;
    HeadlessBodyLawful(rmq);
    ClientBodyLawful(rmq);
    assert Plainly(rmq, HeadlessBuilder(rmq), map[], (o: Object) => HeadlessBody(rmq, o));
    assert Plainly(rmq, ClientBuilder(rmq), rmq.spec.serviceAnnotations, (o: Object) => ClientBody(rmq, o));
  }

  lemma SecretsPlain(rmq: Cluster)
    ensures IsPlain(rmq, CookieBuilder(rmq)) && IsPlain(rmq, UserBuilder(rmq))
  {
    hide LawfulBody, SecretBody, OperatorKey, ChildResourceName, Initial, Secrets.BuildData;
    SameBodyLawful(KindSecret);
    SecretBodyLawful(rmq);
    assert Plainly(rmq, CookieBuilder(rmq), map[], (o: Object) => o);
    assert Plainly(rmq, UserBuilder(rmq), map[], (o: Object) => SecretBody(rmq, o));
  }

  lemma PluginsPlain(rmq: Cluster)
    ensures IsPlain(rmq, PluginsBuilder(rmq))
  {
    hide LawfulBody, PluginsBody, OperatorKey, ChildResourceName, Initial, Plugins.EnabledPluginsFile, PLUGINS_FILE;
    PluginsBodyLawful(rmq);
    assert Plainly(rmq, PluginsBuilder(rmq), map[], (o: Object) => PluginsBody(rmq, o));
  }

  lemma RbacPlain(rmq: Cluster)
    ensures IsPlain(rmq, AccountBuilder(rmq)) && IsPlain(rmq, RoleBuilder(rmq)) && IsPlain(rmq, BindingBuilder(rmq))
  {
    hide LawfulBody, RbacBody, OperatorKey, ChildResourceName, Initial;
    SameBodyLawful(KindServiceAccount);
    RbacBodyLawful(KindRole, RoleRules(rmq));
    RbacBodyLawful(KindRoleBinding, BindingSubjects(rmq));
    assert Plainly(rmq, AccountBuilder(rmq), map[], (o: Object) => o);
    assert Plainly(rmq, RoleBuilder(rmq), map[], (o: Object) => RbacBody(RoleRules(rmq), o));
    assert Plainly(rmq, BindingBuilder(rmq), map[], (o: Object) => RbacBody(BindingSubjects(rmq), o));
  }

  lemma NodePlain(rmq: Cluster, i: nat)
    ensures IsPlain(rmq, NodeBuilder(rmq, i))
  {
    hide LawfulBody, SetBody, OperatorKey;
    SetBodyLawful(rmq);
    assert Plainly(rmq, NodeBuilder(rmq, i), map[], (o: Object) => SetBody(rmq, o));
  }

  /** Every builder but the server ConfigMap's is plain. */
  lemma BuilderKinds(rmq: Cluster, b: Builder)
    requires Clean(rmq) && b in ResourceBuilders(rmq)
    ensures IsPlain(rmq, b) || b == ServerConfBuilder(rmq)
    ensures b.key.kind == KindStatefulSet ==> exists i: nat :: i < rmq.spec.replicas && b == NodeBuilder(rmq, i)
    ensures b.key.kind == KindSecret ==> b == CookieBuilder(rmq) || b == UserBuilder(rmq)
  {
    hide Clean, IsPlain, HeadlessBody, ClientBody, SecretBody, PluginsBody, RbacBody, SetBody, PlainUpdate;
    hide HasUserSecret;
    hide EmptyService, Initial, Secrets.BuildCookie, Secrets.BuildDefaultUser, Plugins.EnabledPluginsFile, PLUGINS_FILE;
    hide ServerConfig.UpdateServerConfig, RoleRules, BindingSubjects, BuildSet, ChildResourceName, StatefulsetName;
    if b in BaseBuilders(rmq) {
      ServicesPlain(rmq);
      SecretsPlain(rmq);
      PluginsPlain(rmq);
      RbacPlain(rmq);
    } else {
      assert b in NodeBuilders(rmq, rmq.spec.replicas);
      var i: nat :| i < rmq.spec.replicas && b == NodeBuilder(rmq, i);
      NodePlain(rmq, i);
    }
  }

  /** A builder that writes a set is that of a node. */
  lemma NodeIndex(rmq: Cluster, b: Builder) returns (i: nat)
    requires Clean(rmq) && b in ResourceBuilders(rmq) && b.key.kind == KindStatefulSet
    ensures i < rmq.spec.replicas && b.key == NodeKey(rmq.name, i)
  {
    hide Clean, IsPlain, SetBody, PlainUpdate, ResourceBuilders, StatefulsetName;
    BuilderKinds(rmq, b);
    i :| i < rmq.spec.replicas && b == NodeBuilder(rmq, i);
  }

  lemma ServerConfIdempotent(rmq: Cluster, o: Object)
    ensures var b := ServerConfBuilder(rmq);
            && (b.update(o).Accepted? ==> b.update(o).result.ConfigMap? && Fixed(b, b.update(o).result))
            && (Fixed(b, o) ==> o.ConfigMap?)
  {
    ServerConfig.OnlyConfigMaps(rmq, o);
    hide ServerConfig.UpdateServerConfig;
    if ServerConfig.UpdateServerConfig(rmq, o).Accepted? {
      ServerConfig.ConfigFixed(rmq, o);
    }
  }

  lemma ServerConfIgnoresFlags(rmq: Cluster, o: Object, p: Object)
    requires Clean(rmq) && Fixed(ServerConfBuilder(rmq), o) && SameButFlags(o, p)
    ensures Fixed(ServerConfBuilder(rmq), p)
  {
    hide ServerConfig.UpdateServerConfig, SameButFlags, Clean;
    ServerConfig.ConfigIgnoresFlags(rmq, o, p);
  }

  lemma ServerConfWellBehaved(rmq: Cluster)
    requires Clean(rmq)
    ensures WellBehaved(ServerConfBuilder(rmq))
  {
    hide ServerConfig.UpdateServerConfig, SameButFlags, Clean, Fixed;
    var b := ServerConfBuilder(rmq);
    forall o
      ensures b.update(o).Accepted? ==> b.update(o).result.ConfigMap? && Fixed(b, b.update(o).result)
      ensures Fixed(b, o) ==> o.ConfigMap?
    {
      ServerConfIdempotent(rmq, o);
    }
    forall o, p | Fixed(b, o) && SameButFlags(o, p) ensures Fixed(b, p) {
      ServerConfIgnoresFlags(rmq, o, p);
    }
  }

  /** Every builder of a cluster whose annotations are clean behaves well. */
  lemma AllWellBehaved(rmq: Cluster)
    requires Clean(rmq)
    ensures forall b :: b in ResourceBuilders(rmq) ==> WellBehaved(b)
  {
    hide WellBehaved, ResourceBuilders, IsPlain;
    forall b | b in ResourceBuilders(rmq) ensures WellBehaved(b) {
      BuilderKinds(rmq, b);
      if IsPlain(rmq, b) {
        PlainWellBehaved(rmq, b);
      } else {
        ServerConfWellBehaved(rmq);
      }
    }
  }

  /** No builder's Update drops a flag. */
  lemma UpdateKeepsFlags(rmq: Cluster, b: Builder, o: Object, f: string)
    requires Clean(rmq) && b in ResourceBuilders(rmq) && OperatorKey(f) && f in o.meta.annotations
    requires b.update(o).Accepted?
    ensures var p := b.update(o).result;
            f in p.meta.annotations && p.meta.annotations[f] == o.meta.annotations[f]
  {
    BuilderKinds(rmq, b);
    hide ResourceBuilders, IsPlain, OperatorKey;
    if IsPlain(rmq, b) {
      PlainKeepsFlags(rmq, b, o, f);
    } else {
      ServerConfig.OnlyConfigMaps(rmq, o);
      RenewedKeeps(rmq, o.meta, f);
      hide ServerConfig.UpdateServerConfig, Metadata.Renewed;
    }
  }

  lemma UserUpdate(rmq: Cluster, o: Object)
    requires UserBuilder(rmq).update(o).Accepted?
    ensures o.Secret?
    ensures UserBuilder(rmq).update(o).result == Secret(Touched(rmq, map[], o.meta), Secrets.UpdatedData(rmq, o.data))
  {
    hide Touched, Secrets.UpdatedData;
  }

  lemma CookieUpdate(rmq: Cluster, o: Object)
    requires CookieBuilder(rmq).update(o).Accepted?
    ensures o.Secret? && CookieBuilder(rmq).update(o).result == Secret(Touched(rmq, map[], o.meta), o.data)
  {
    hide Touched;
  }

  // ------------------------------------------------------------ distinct keys

  lemma SuffixesApart(cluster: string)
    ensures ChildResourceName(cluster, "nodes") != ChildResourceName(cluster, "")
    ensures ChildResourceName(cluster, "erlang-cookie") != ChildResourceName(cluster, "default-user")
    ensures ChildResourceName(cluster, "plugins-conf") != ChildResourceName(cluster, "server-conf")
  {
    ChildNameIs(cluster, "nodes");
    ChildNameIs(cluster, "");
    ChildNameIs(cluster, "erlang-cookie");
    ChildNameIs(cluster, "default-user");
    ChildNameIs(cluster, "plugins-conf");
    ChildNameIs(cluster, "server-conf");
    assert |cluster + "-" + "nodes"| > |cluster|;
    assert |cluster + "-" + "erlang-cookie"| == |cluster| + 14 && |cluster + "-" + "default-user"| == |cluster| + 13;
    assert |cluster + "-" + "plugins-conf"| == |cluster| + 13 && |cluster + "-" + "server-conf"| == |cluster| + 12;
  }

  ghost predicate DistinctKeys(bs: seq<Builder>) {
    forall i, j :: 0 <= i < j < |bs| ==> bs[i].key != bs[j].key
  }

  lemma BaseKeysDistinct(rmq: Cluster)
    ensures DistinctKeys(BaseBuilders(rmq)) && forall b :: b in BaseBuilders(rmq) ==> b.key.kind != KindStatefulSet
  {
    SuffixesApart(rmq.name);
    hide ChildResourceName, HeadlessBody, ClientBody, SecretBody, PluginsBody, RbacBody, HasUserSecret, PlainUpdate;
    hide EmptyService, Initial, Secrets.BuildCookie, Secrets.BuildDefaultUser, Plugins.EnabledPluginsFile, PLUGINS_FILE;
    hide ServerConfig.UpdateServerConfig, RoleRules, BindingSubjects;
  }

  /** No two builders write the same object. */
  lemma KeysDistinct(rmq: Cluster)
    ensures DistinctKeys(ResourceBuilders(rmq))
  {
    BaseKeysDistinct(rmq);
    hide BaseBuilders, PlainUpdate;
    var base, bs := BaseBuilders(rmq), ResourceBuilders(rmq);
    forall i, j | 0 <= i < j < |bs| ensures bs[i].key != bs[j].key {
      if |base| <= j {
        assert bs[j] == NodeBuilder(rmq, j - |base|);
        if |base| <= i {
          assert bs[i] == NodeBuilder(rmq, i - |base|);
          NodeNamesInjective(rmq.name, i - |base|, j - |base|);
        } else {
          assert base[i] in base;
        }
      } else {
        assert base[i] == bs[i] && base[j] == bs[j];
      }
    }
  }

  // ----------------------------------------------- what Update keeps of a set

  /** Update never removes or rewinds the restart stamp, and leaves the status alone. */
  lemma UpdateKeepsStamp(rmq: Cluster, i: nat, o: Object)
    requires Clean(rmq) && NodeBuilder(rmq, i).update(o).Accepted?
    ensures var p := NodeBuilder(rmq, i).update(o).result;
            && o.StatefulSet? && p.StatefulSet? && p.status == o.status
            && NAME_LABEL in p.meta.labels && p.meta.labels[NAME_LABEL] == rmq.name
            && p.meta.owner == Some(OwnerRef(OWNER_KIND, rmq.name, rmq.uid))
            && p.spec.replicas == (if rmq.spec.disable then 0 else 1)
            && (LAST_RESTART in p.spec.template.annotations <==> LAST_RESTART in o.spec.template.annotations)
            && (LAST_RESTART in o.spec.template.annotations ==>
                  p.spec.template.annotations[LAST_RESTART] == o.spec.template.annotations[LAST_RESTART])
  {
    var vault := VaultAnnotations(rmq);
    MergeOne(o.spec.template.annotations, vault, false);
    NoVaultStamp(rmq);
    LabelsSelected(rmq.name, rmq.labels);
    hide VaultAnnotations, Volumes, Containers, SetupContainer, Constraints, Claims, GetLabels;
    assert NodeBuilder(rmq, i).update(o) == PlainUpdate(rmq, KindStatefulSet, map[], (p: Object) => SetBody(rmq, p), o);
  }

  lemma NoVaultStamp(rmq: Cluster)
    requires Clean(rmq)
    ensures LAST_RESTART !in VaultAnnotations(rmq)
  {
    hide PodHostNames;
    assert OperatorKey(LAST_RESTART);
    assert VAULT[0] == 'v' && LAST_RESTART[0] == 'r';
    forall suffix ensures VAULT + suffix != LAST_RESTART {
      assert (VAULT + suffix)[0] == 'v';
    }
  }
}
