/** The API objects the operator reads and writes, as values. */
module Objects {
  import opened Basics

  // ---------------------------------------------------------------- children

  datatype Kind =
    | KindService | KindSecret | KindConfigMap
    | KindServiceAccount | KindRole | KindRoleBinding | KindStatefulSet

  datatype Key = Key(kind: Kind, name: string)

  /** The controller entry of metadata.ownerReferences. */
  datatype OwnerRef = OwnerRef(kind: string, name: string, uid: string)

  datatype Meta = Meta(labels: StrMap, annotations: StrMap, owner: Option<OwnerRef>)

  datatype ServicePort = ServicePort(
    name: string, port: int, targetPort: int, protocol: string, nodePort: int)

  datatype ServiceSpec = ServiceSpec(
    serviceType: string, clusterIP: string, publishNotReady: bool,
    selector: StrMap, ports: seq<ServicePort>)

  /** A key-value file, or text that is not one. */
  datatype File = Ini(entries: seq<Entry>) | Text(text: string)

  datatype Entry = Entry(key: string, value: string)

  datatype Volume = Volume(name: string, source: string)

  datatype Container = Container(
    name: string, memoryLimit: nat, memoryRequest: nat, content: seq<string>)

  datatype Constraint = Constraint(topologyKey: string, content: string)

  /** A claim template: its name, requested storage and everything else. */
  datatype Claim = Claim(name: string, storage: nat, content: string)

  datatype PodTemplate = PodTemplate(
    labels: StrMap, annotations: StrMap,
    volumes: seq<Volume>, containers: seq<Container>, initContainers: seq<Container>,
    constraints: seq<Constraint>, content: seq<string>)

  datatype SetSpec = SetSpec(
    replicas: nat, selector: StrMap, serviceName: string,
    template: PodTemplate, claims: seq<Claim>, updateStrategy: string)

  datatype SetStatus = SetStatus(currentRevision: nat, updateRevision: nat, readyReplicas: nat)

  datatype Object =
    | Service(meta: Meta, service: ServiceSpec)
    | Secret(meta: Meta, data: StrMap)
    | ConfigMap(meta: Meta, files: map<string, File>)
    | Rbac(meta: Meta, content: seq<string>)
    | StatefulSet(meta: Meta, spec: SetSpec, status: SetStatus)

  /** The object has the Go type that a key of this kind is read into. */
  predicate Fits(kind: Kind, o: Object) {
    match kind
    case KindService => o.Service?
    case KindSecret => o.Secret?
    case KindConfigMap => o.ConfigMap?
    case KindStatefulSet => o.StatefulSet?
    case _ => o.Rbac?
  }

  // ----------------------------------------------------- the RabbitmqCluster

  datatype Vault = Vault(
    role: string, defaultUserPath: string, pkiIssuerPath: string,
    updaterImage: Option<string>, annotations: StrMap)

  datatype Spec = Spec(
    replicas: nat, disable: bool, image: string, skipPostDeploySteps: bool, storage: nat,
    serviceType: string, serviceAnnotations: StrMap,
    tlsSecret: string, caSecret: string, disableNonTLS: bool,
    vault: Option<Vault>, externalSecret: string,
    plugins: seq<string>,
    additionalConfig: Option<seq<Entry>>,   // None: the text does not parse
    advancedConfig: string, envConfig: string, erlangInetConfig: string,
    memoryLimit: nat, memoryRequest: nat,
    clientPorts: seq<ServicePort>,          // what the port tables yield for this cluster
    headlessPorts: seq<ServicePort>,
    podSettings: seq<string>,               // fields copied verbatim into the pod template
    pullSecrets: Option<seq<string>>)

  datatype ConditionType = AllReplicasReady | ClusterAvailable | NoWarnings | ReconcileSuccess

  datatype ConditionStatus = ConditionTrue | ConditionFalse | ConditionUnknown

  datatype Condition = Condition(
    ctype: ConditionType, status: ConditionStatus,
    lastTransition: string, reason: string, message: string)

  datatype DefaultUser = DefaultUser(serviceName: string, secretName: Option<string>)

  datatype ClusterStatus = ClusterStatus(
    replicas: nat, conditions: seq<Condition>, defaultUser: Option<DefaultUser>,
    binding: Option<string>, observedGeneration: nat)

  datatype Cluster = Cluster(
    name: string, namespace: string, uid: string, generation: nat,
    deleting: bool, finalizers: seq<string>,
    labels: StrMap, annotations: StrMap,
    spec: Spec, status: ClusterStatus)
  {
    predicate SecretTLSEnabled() { spec.tlsSecret != "" }

    predicate VaultTLSEnabled() { spec.vault.Some? && spec.vault.value.pkiIssuerPath != "" }

    predicate TLSEnabled() { SecretTLSEnabled() || VaultTLSEnabled() }

    predicate MutualTLSEnabled() { (SecretTLSEnabled() && spec.caSecret != "") || VaultTLSEnabled() }

    predicate VaultDefaultUserSecretEnabled() {
      spec.vault.Some? && spec.vault.value.defaultUserPath != ""
    }

    predicate ExternalSecretEnabled() { spec.externalSecret != "" }

    predicate PluginEnabled(plugin: string) { plugin in spec.plugins }
  }

  // -------------------------------------------- annotations with a meaning

  const PLUGINS_UPDATED := "rabbitmq.com/pluginsUpdatedAt"
  const SERVER_CONF_UPDATED := "rabbitmq.com/serverConfUpdatedAt"
  const LAST_RESTART := "rabbitmq.com/lastRestartAt"
  const SET_CREATED := "rabbitmq.com/createdAt"
  const REBALANCE_NEEDED := "rabbitmq.com/queueRebalanceNeededAt"

  const NAME_LABEL := "app.kubernetes.io/name"

  /** The annotations the operator itself keeps on child objects. */
  predicate OperatorKey(k: string) {
    k == PLUGINS_UPDATED || k == SERVER_CONF_UPDATED || k == LAST_RESTART || k == SET_CREATED
  }

  /** No user-supplied annotation uses one of the operator's child annotations. */
  predicate Clean(rmq: Cluster) {
    && (forall k :: k in rmq.annotations ==> !OperatorKey(k))
    && (forall k :: k in rmq.spec.serviceAnnotations ==> !OperatorKey(k))
    && (rmq.spec.vault.Some? ==>
          forall k :: k in rmq.spec.vault.value.annotations ==> !OperatorKey(k))
  }

  /** The flag is set: present and not the empty string. */
  predicate Flagged(annotations: StrMap, k: string) {
    Lookup(annotations, k) != ""
  }

  function WithMeta(o: Object, meta: Meta): Object { o.(meta := meta) }

  function WithAnnotation(o: Object, k: string, v: string): Object {
    o.(meta := o.meta.(annotations := o.meta.annotations[k := v]))
  }

  function WithoutAnnotation(o: Object, k: string): Object {
    o.(meta := o.meta.(annotations := o.meta.annotations - {k}))
  }

  /** The two differ at most in the operator's own annotations. */
  ghost predicate SameButFlags(o: Object, p: Object) {
    && p == o.(meta := o.meta.(annotations := p.meta.annotations))
    && forall k :: !OperatorKey(k) ==>
         && (k in p.meta.annotations <==> k in o.meta.annotations)
         && (k in o.meta.annotations ==> p.meta.annotations[k] == o.meta.annotations[k])
  }

  // -------------------------------------------------- StatefulSet predicates

  /** statefulSetBeingUpdated */
  predicate BeingUpdated(o: Object) requires o.StatefulSet? {
    o.status.currentRevision != o.status.updateRevision
  }

  /** Neither being updated nor short of ready replicas. */
  predicate Settled(o: Object) requires o.StatefulSet? {
    !BeingUpdated(o) && o.status.readyReplicas == o.spec.replicas
  }

  /** persistenceStorageCapacity: the request of the first claim with this name, or 0. */
  function Capacity(claims: seq<Claim>, name: string): nat {
    if claims == [] then 0
    else if claims[0].name == name then claims[0].storage
    else Capacity(claims[1..], name)
  }
}
