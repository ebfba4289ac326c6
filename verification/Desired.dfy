/** What it means for an object to be in place: each builder's fixpoints, spelled out. */
module Desired {
  import opened Basics
  import opened Objects
  import opened Store
  import opened Metadata
  import opened Builders
  import Merge
  import Names
  import Plugins
  import Secrets
  import opened ServerConfig

  /** The entries of a are in b. */
  ghost predicate Included(a: StrMap, b: StrMap) {
    forall k :: k in a ==> k in b && b[k] == a[k]
  }

  /** Labels and owner are the cluster's, and its annotations, then the builder's own, are all there. */
  ghost predicate MetaInPlace(rmq: Cluster, extra: StrMap, meta: Meta) {
    && meta.labels == GetLabels(rmq.name, rmq.labels)
    && meta.owner == Some(OwnerRef(OWNER_KIND, rmq.name, rmq.uid))
    && Included(extra, meta.annotations)
    && forall k :: k in rmq.annotations && !IsKubernetesAnnotation(k) && k !in extra ==>
         k in meta.annotations && meta.annotations[k] == rmq.annotations[k]
  }

  lemma MetaFixedIff(rmq: Cluster, extra: StrMap, meta: Meta)
    ensures Touched(rmq, extra, meta) == meta && !OwnedByOther(meta, rmq) <==> MetaInPlace(rmq, extra, meta)
  {
    hide GetLabels, IsKubernetesAnnotation;
    var a, kept := meta.annotations, Metadata.Kept(rmq.annotations, true);
    MergeOne(a, rmq.annotations, true);
    MergeOne(a + kept, extra, false);
    assert Metadata.Kept(extra, false) == extra;
    if a + kept + extra == a {
      forall k | k in kept || k in extra ensures k in a && a[k] == if k in extra then extra[k] else kept[k] {
        assert k in a + kept + extra;
      }
    }
    if MetaInPlace(rmq, extra, meta) {
      assert a + kept + extra == a;
    }
  }

  // ------------------------------------------------------------- StatefulSets

  /** The pod template has every label, annotation, volume and container the cluster asks for, whatever else it has. */
  ghost predicate TemplateInPlace(rmq: Cluster, pod: PodTemplate) {
    && pod.labels == Label(rmq.name)
    && Included(VaultAnnotations(rmq), pod.annotations)
    && Merge.VolumesTaken(pod.volumes, Volumes(rmq))
    && Merge.ContainersTaken(pod.containers, Containers(rmq))
    && Merge.ContainersTaken(pod.initContainers, [SetupContainer(rmq)])
    && (!DefaultConstraintsDisabled(rmq) ==>
          Merge.ConstraintsTaken(pod.constraints, [Constraint(ZONE, "max skew 1 for " + rmq.name)]))
    && pod.content == PodContent(rmq)
  }

  lemma TemplateFixedIff(rmq: Cluster, pod: PodTemplate)
    ensures Template(rmq, pod) == pod <==> TemplateInPlace(rmq, pod)
  {
    hide Volumes, Containers, SetupContainer, VaultAnnotations, DefaultConstraintsDisabled, Label, Merge.Absorbed;
    hide Merge.Merged, Merge.VolumesTaken, Merge.ContainersTaken, Merge.ConstraintsTaken;
    var vault := VaultAnnotations(rmq);
    MergeOne(pod.annotations, vault, false);
    AddedIff(pod.annotations, vault);
    Merge.RulesLawful();
    Merge.FixpointIff(Merge.VOLUMES, pod.volumes, Volumes(rmq));
    Merge.FixpointIff(Merge.CONTAINERS, pod.containers, Containers(rmq));
    Merge.FixpointIff(Merge.CONTAINERS, pod.initContainers, [SetupContainer(rmq)]);
    Merge.FixpointIff(Merge.CONSTRAINTS, pod.constraints, [Constraint(ZONE, "max skew 1 for " + rmq.name)]);
    Merge.VolumesTakenIff(pod.volumes, Volumes(rmq));
    Merge.ContainersTakenIff(pod.containers, Containers(rmq));
    Merge.ContainersTakenIff(pod.initContainers, [SetupContainer(rmq)]);
    Merge.ConstraintsTakenIff(pod.constraints, [Constraint(ZONE, "max skew 1 for " + rmq.name)]);
    hide Merge.Lawful;
  }

  lemma AddedIff(a: StrMap, b: StrMap)
    ensures a + Metadata.Kept(b, false) == a <==> Included(b, a)
  {
    assert Metadata.Kept(b, false) == b;
    if a + b == a {
      forall k | k in b ensures k in a && a[k] == b[k] {
        assert k in a + b;
      }
    }
    if Included(b, a) {
      assert a + b == a;
    }
  }

  ghost predicate SetInPlace(rmq: Cluster, o: Object) {
    && o.StatefulSet? && MetaInPlace(rmq, map[], o.meta)
    && o.spec.replicas == (if rmq.spec.disable then 0 else 1)
    && o.spec.updateStrategy == ROLLING
    && TemplateInPlace(rmq, o.spec.template)
    && (rmq.spec.storage != 0 ==>
          Merge.ClaimsTaken(o.spec.claims, [Claim("persistence", rmq.spec.storage, "ReadWriteOnce, owner " + rmq.uid)]))
  }

  /** A node's set is a fixpoint of its builder exactly when it has everything the cluster asks for. */
  lemma NodeFixedIff(rmq: Cluster, i: nat, o: Object)
    ensures Fixed(NodeBuilder(rmq, i), o) <==> SetInPlace(rmq, o)
  {
    hide Touched, Template, TemplateInPlace, MetaInPlace, LawfulBody, Merge.Absorbed, Merge.Merged, Merge.ClaimsTaken;
    SetBodyLawful(rmq);
    PlainFixed(rmq, NodeBuilder(rmq, i), map[], (p: Object) => SetBody(rmq, p), o);
    MetaFixedIff(rmq, map[], o.meta);
    if o.StatefulSet? {
      TemplateFixedIff(rmq, o.spec.template);
      Merge.RulesLawful();
      Merge.FixpointIff(Merge.CLAIMS, o.spec.claims,
        [Claim(Names.PVC_NAME, rmq.spec.storage, "ReadWriteOnce, owner " + rmq.uid)]);
      Merge.ClaimsTakenIff(o.spec.claims,
        [Claim(Names.PVC_NAME, rmq.spec.storage, "ReadWriteOnce, owner " + rmq.uid)]);
      hide Merge.Lawful, ROLLING;
    }
  }

  /** The last container with this name runs the image with these memory limits. */
  ghost predicate Runs(containers: seq<Container>, name: string, image: string, limit: nat, request: nat) {
    exists n ::
      && Merge.LastOf(containers, (c: Container) => c.name, n) && containers[n].name == name
      && containers[n].content != [] && containers[n].content[0] == image
      && containers[n].memoryLimit == limit && containers[n].memoryRequest == request
  }

  /** A set in place runs the image and has the memory the cluster asks for. */
  lemma ImageInPlace(rmq: Cluster, i: nat, o: Object)
    requires Fixed(NodeBuilder(rmq, i), o)
    ensures o.StatefulSet?
    ensures Runs(o.spec.template.containers, "rabbitmq", rmq.spec.image, rmq.spec.memoryLimit, rmq.spec.memoryRequest)
    ensures Runs(o.spec.template.initContainers, "setup-container", rmq.spec.image, 524288000, 524288000)
  {
    hide Fixed, NodeBuilder, Volumes, VaultAnnotations, PodContent, MetaInPlace, Label, Merge.VolumesTaken;
    hide Merge.ConstraintsTaken, Merge.ClaimsTaken, UpdaterContainer;
    NodeFixedIff(rmq, i, o);
    var key := (c: Container) => c.name;
    var containers, setup := Containers(rmq), [SetupContainer(rmq)];
    UpdaterApart(rmq);
    assert Merge.LastOf(containers, key, 0) && Merge.LastOf(setup, key, 0);
  }

  lemma UpdaterApart(rmq: Cluster)
    ensures forall image :: UpdaterContainer(rmq, image).name != "rabbitmq"
  {
    assert |"default-user-credential-updater"| != |"rabbitmq"|;
  }

  /** A changed image takes every node's set out of place. */
  lemma NewImageOutOfPlace(rmq: Cluster, image: string, i: nat, o: Object)
    requires Fixed(NodeBuilder(rmq, i), o) && image != rmq.spec.image
    ensures !Fixed(NodeBuilder(rmq.(spec := rmq.spec.(image := image)), i), o)
  {
    hide Fixed, NodeBuilder;
    var next := rmq.(spec := rmq.spec.(image := image));
    ImageInPlace(rmq, i, o);
    if Fixed(NodeBuilder(next, i), o) {
      ImageInPlace(next, i, o);
    }
  }

  /** What Update makes of a set is what the cluster asks for; containers and claims of others stay. */
  lemma UpdatePutsInPlace(rmq: Cluster, i: nat, o: Object)
    requires NodeBuilder(rmq, i).update(o).Accepted?
    ensures o.StatefulSet? && SetInPlace(rmq, NodeBuilder(rmq, i).update(o).result)
    ensures var p := NodeBuilder(rmq, i).update(o).result;
            && p.StatefulSet? && p.status == o.status
            && p.spec.selector == o.spec.selector && p.spec.serviceName == o.spec.serviceName
            && Merge.OthersKept(o.spec.template.containers, Containers(rmq), p.spec.template.containers,
                 (c: Container) => c.name)
            && Merge.OthersKept(o.spec.template.volumes, Volumes(rmq), p.spec.template.volumes, (v: Volume) => v.name)
  {
    hide Volumes, Containers, VaultAnnotations, PodContent, Merge.OthersKept, Merge.Merged, Touched, SetInPlace, Fixed;
    hide Constraints, Claims, SetupContainer;
    NodeWellBehaved(rmq, i, o);
    NodeFixedIff(rmq, i, NodeBuilder(rmq, i).update(o).result);
    Merge.RulesLawful();
    Merge.MergedKeepsOthers(Merge.CONTAINERS, o.spec.template.containers, Containers(rmq), (c: Container) => c.name);
    Merge.MergedKeepsOthers(Merge.VOLUMES, o.spec.template.volumes, Volumes(rmq), (v: Volume) => v.name);
    hide Merge.Lawful;
  }

  lemma NodeWellBehaved(rmq: Cluster, i: nat, o: Object)
    requires NodeBuilder(rmq, i).update(o).Accepted?
    ensures o.StatefulSet? && Fixed(NodeBuilder(rmq, i), NodeBuilder(rmq, i).update(o).result)
  {
    hide SetBody, LawfulBody, Touched;
    SetBodyLawful(rmq);
    PlainIdempotent(rmq, NodeBuilder(rmq, i), map[], (p: Object) => SetBody(rmq, p), o);
  }

  // ----------------------------------------------------------------- services

  /** Every wanted port is there under its name, and a ClusterIP service has no node ports. */
  ghost predicate PortsInPlace(ports: seq<ServicePort>, wanted: seq<ServicePort>, nodePorts: bool) {
    && Merge.PortsTaken(ports, wanted)
    && (!nodePorts ==> forall i :: 0 <= i < |ports| ==> ports[i].nodePort == 0)
  }

  lemma ClientPortsFixedIff(rmq: Cluster, ports: seq<ServicePort>)
    ensures ClientPorts(rmq, ports) == ports <==>
              PortsInPlace(ports, rmq.spec.clientPorts, ServiceType(rmq) != CLUSTER_IP)
  {
    hide ServiceType, CLUSTER_IP, Merge.PortsTaken;
    Merge.RulesLawful();
    Merge.FixpointIff(Merge.PORTS, ports, rmq.spec.clientPorts);
    Merge.PortsTakenIff(ports, rmq.spec.clientPorts);
    var merged := Merge.Merged(Merge.PORTS, ports, rmq.spec.clientPorts);
    if ServiceType(rmq) == CLUSTER_IP {
      if ClientPorts(rmq, ports) == ports {
        ZeroedStaysMerged(ports, rmq.spec.clientPorts);
        forall i | 0 <= i < |ports| ensures ports[i].nodePort == 0 {
          assert ports[i] == WithoutNodePorts(merged)[i];
        }
      }
      if PortsInPlace(ports, rmq.spec.clientPorts, false) {
        assert WithoutNodePorts(ports) == ports;
      }
    }
  }

  /** A service of no given type is one inside the cluster. */
  function TypeOrDefault(given: string): string { if given != "" then given else "ClusterIP" }

  /** The client service is in place exactly when it selects the nodes, has the wanted type, ports and annotations. */
  lemma ClientFixedIff(rmq: Cluster, o: Object)
    ensures Fixed(ClientBuilder(rmq), o) <==>
              && o.Service? && MetaInPlace(rmq, rmq.spec.serviceAnnotations, o.meta)
              && o.service.serviceType == TypeOrDefault(rmq.spec.serviceType)
              && o.service.selector == map["app.kubernetes.io/name" := rmq.name]
              && PortsInPlace(o.service.ports, rmq.spec.clientPorts, o.service.serviceType != "ClusterIP")
  {
    assert CLUSTER_IP == "ClusterIP" && LabelSelector(rmq.name) == map["app.kubernetes.io/name" := rmq.name];
    assert ServiceType(rmq) == TypeOrDefault(rmq.spec.serviceType);
    hide TypeOrDefault, CLUSTER_IP;
    hide Touched, MetaInPlace, LawfulBody, ClientPorts, PortsInPlace, ServiceType, LabelSelector;
    ClientBodyLawful(rmq);
    PlainFixed(rmq, ClientBuilder(rmq), rmq.spec.serviceAnnotations, (p: Object) => ClientBody(rmq, p), o);
    MetaFixedIff(rmq, rmq.spec.serviceAnnotations, o.meta);
    if o.Service? {
      ClientPortsFixedIff(rmq, o.service.ports);
    }
  }

  /** The headless service is in place exactly when it is headless, publishes unready nodes and has the wanted ports. */
  lemma HeadlessFixedIff(rmq: Cluster, o: Object)
    ensures Fixed(HeadlessBuilder(rmq), o) <==>
              && o.Service? && MetaInPlace(rmq, map[], o.meta)
              && o.service.serviceType == "ClusterIP" && o.service.clusterIP == "None" && o.service.publishNotReady
              && o.service.selector == map["app.kubernetes.io/name" := rmq.name]
              && Merge.PortsTaken(o.service.ports, rmq.spec.headlessPorts)
  {
    assert CLUSTER_IP == "ClusterIP" && LabelSelector(rmq.name) == map["app.kubernetes.io/name" := rmq.name];
    hide Touched, MetaInPlace, LawfulBody, LabelSelector, CLUSTER_IP, Merge.Absorbed, Merge.Merged, Merge.PortsTaken;
    HeadlessBodyLawful(rmq);
    PlainFixed(rmq, HeadlessBuilder(rmq), map[], (p: Object) => HeadlessBody(rmq, p), o);
    MetaFixedIff(rmq, map[], o.meta);
    if o.Service? {
      Merge.RulesLawful();
      Merge.FixpointIff(Merge.PORTS, o.service.ports, rmq.spec.headlessPorts);
      Merge.PortsTakenIff(o.service.ports, rmq.spec.headlessPorts);
    }
  }

  // -------------------------------------------------------------- config maps

  /** The plugins ConfigMap is in place exactly when its file lists the desired plugins. */
  lemma PluginsFixedIff(rmq: Cluster, o: Object)
    ensures Fixed(PluginsBuilder(rmq), o) <==>
              && o.ConfigMap? && MetaInPlace(rmq, map[], o.meta) && PLUGINS_FILE in o.files
              && o.files[PLUGINS_FILE] == Text(Plugins.EnabledPluginsFile(rmq.spec.plugins))
  {
    hide Touched, MetaInPlace, LawfulBody, Plugins.EnabledPluginsFile, PLUGINS_FILE;
    PluginsBodyLawful(rmq);
    PlainFixed(rmq, PluginsBuilder(rmq), map[], (p: Object) => PluginsBody(rmq, p), o);
    MetaFixedIff(rmq, map[], o.meta);
    if o.ConfigMap? {
      var text := Text(Plugins.EnabledPluginsFile(rmq.spec.plugins));
      if PLUGINS_FILE in o.files && o.files[PLUGINS_FILE] == text {
        assert o.files[PLUGINS_FILE := text] == o.files;
      }
    }
  }

  /** A property file is there with its text, or absent when the text is empty. */
  ghost predicate PropertyInPlace(files: map<string, File>, name: string, text: string) {
    if text == "" then name !in files else name in files && files[name] == Text(text)
  }

  ghost predicate FilesInPlace(rmq: Cluster, additional: seq<Entry>, files: map<string, File>) {
    && DEFAULTS_FILE in files && files[DEFAULTS_FILE] == Ini(OperatorFile(rmq, additional))
    && USER_FILE in files && files[USER_FILE] == Ini(UserFile(rmq, additional))
    && PropertyInPlace(files, ADVANCED_FILE, rmq.spec.advancedConfig)
    && PropertyInPlace(files, ENV_FILE, rmq.spec.envConfig)
    && PropertyInPlace(files, INET_FILE, rmq.spec.erlangInetConfig)
  }

  lemma FilesFixedIff(rmq: Cluster, additional: seq<Entry>, files: map<string, File>)
    ensures UpdatedFiles(rmq, additional, files) == files <==> FilesInPlace(rmq, additional, files)
  {
    FilesApart();
    hide OperatorFile, UserFile, DEFAULTS_FILE, USER_FILE, ADVANCED_FILE, ENV_FILE, INET_FILE;
    var r := UpdatedFiles(rmq, additional, files);
    if FilesInPlace(rmq, additional, files) {
      assert r.Keys == files.Keys;
      assert forall k :: k in files ==> r[k] == files[k];
    }
  }

  /** The server ConfigMap is in place exactly when its files are the ones the cluster asks for. */
  lemma ServerConfFixedIff(rmq: Cluster, o: Object)
    ensures Fixed(ServerConfBuilder(rmq), o) <==>
              && o.ConfigMap? && rmq.spec.additionalConfig.Some? && MetaInPlace(rmq, map[], o.meta)
              && FilesInPlace(rmq, rmq.spec.additionalConfig.value, o.files)
  {
    TouchedPlainly(rmq, o.meta);
    MetaFixedIff(rmq, map[], o.meta);
    hide UpdatedFiles, EraseHints, Touched, MetaInPlace, Metadata.Renewed, OwnedByOther, OperatorFile, UserFile;
    hide DEFAULTS_FILE;
    if o.ConfigMap? && rmq.spec.additionalConfig.Some? {
      FilesFixedIff(rmq, rmq.spec.additionalConfig.value, o.files);
    }
    hide PropertyInPlace;
  }

  // ------------------------------------------------------------------ secrets

  /** The maintained entries of the user secret are the ones the cluster asks for. */
  ghost predicate UserDataInPlace(rmq: Cluster, data: StrMap) {
    Secrets.PortsAre(rmq.spec.tlsSecret != "", rmq.spec.plugins, data) && Secrets.Agrees(data)
  }

  lemma UserDataFixedIff(rmq: Cluster, data: StrMap)
    ensures Secrets.UpdatedData(rmq, data) == data <==> UserDataInPlace(rmq, data)
  {
    Secrets.KeysApart();
    Secrets.UpdateKeepsCredentials(rmq, data);
    Secrets.PortsIff(rmq, data);
    hide Secrets.PortsAre;
    hide Secrets.PLUGIN_OF, Secrets.PORTS, Secrets.TLS_PORTS, Secrets.USERNAME, Secrets.PASSWORD, Secrets.HOST;
    hide Secrets.PORT;
    hide Secrets.CONNECTION, Secrets.AMQP, Secrets.AMQPS, Secrets.Spelled, Secrets.UpdatedData;
    var r := Secrets.UpdatedData(rmq, data);
    if UserDataInPlace(rmq, data) {
      forall k ensures (k in r <==> k in data) && (k in r && k in data ==> r[k] == data[k]) {
        if k == Secrets.CONNECTION {
          assert Lookup(r, Secrets.USERNAME) == Lookup(data, Secrets.USERNAME);
          assert Lookup(r, Secrets.PASSWORD) == Lookup(data, Secrets.PASSWORD);
          assert Lookup(r, Secrets.HOST) == Lookup(data, Secrets.HOST)
            && Lookup(r, Secrets.PORT) == Lookup(data, Secrets.PORT);
        }
      }
      assert r == data;
    }
  }

  /** The user secret is in place exactly when its ports fit the plugins and its connection string agrees. */
  lemma UserFixedIff(rmq: Cluster, o: Object)
    ensures Fixed(UserBuilder(rmq), o) <==> o.Secret? && MetaInPlace(rmq, map[], o.meta) && UserDataInPlace(rmq, o.data)
  {
    hide Touched, MetaInPlace, LawfulBody, UserDataInPlace, Secrets.UpdatedData;
    SecretBodyLawful(rmq);
    PlainFixed(rmq, UserBuilder(rmq), map[], (p: Object) => SecretBody(rmq, p), o);
    MetaFixedIff(rmq, map[], o.meta);
    if o.Secret? {
      UserDataFixedIff(rmq, o.data);
    }
  }

  /** The cookie is in place whatever it is: only its metadata is maintained. */
  lemma CookieFixedIff(rmq: Cluster, o: Object)
    ensures Fixed(CookieBuilder(rmq), o) <==> o.Secret? && MetaInPlace(rmq, map[], o.meta)
  {
    hide Touched, MetaInPlace, LawfulBody;
    SameBodyLawful(KindSecret);
    PlainFixed(rmq, CookieBuilder(rmq), map[], (p: Object) => p, o);
    MetaFixedIff(rmq, map[], o.meta);
  }

  // --------------------------------------------------------------------- rbac

  lemma AccountFixedIff(rmq: Cluster, o: Object)
    ensures Fixed(AccountBuilder(rmq), o) <==> o.Rbac? && MetaInPlace(rmq, map[], o.meta)
  {
    hide Touched, MetaInPlace, LawfulBody;
    SameBodyLawful(KindServiceAccount);
    PlainFixed(rmq, AccountBuilder(rmq), map[], (p: Object) => p, o);
    MetaFixedIff(rmq, map[], o.meta);
  }

  /** Role and binding are in place exactly with the rules and subjects of peer discovery. */
  lemma RoleFixedIff(rmq: Cluster, o: Object)
    ensures Fixed(RoleBuilder(rmq), o) <==> o.Rbac? && MetaInPlace(rmq, map[], o.meta) && o.content == RoleRules(rmq)
    ensures Fixed(BindingBuilder(rmq), o) <==>
              o.Rbac? && MetaInPlace(rmq, map[], o.meta) && o.content == BindingSubjects(rmq)
  {
    hide Touched, MetaInPlace, LawfulBody, RoleRules, BindingSubjects;
    RbacBodyLawful(KindRole, RoleRules(rmq));
    RbacBodyLawful(KindRoleBinding, BindingSubjects(rmq));
    PlainFixed(rmq, RoleBuilder(rmq), map[], (p: Object) => RbacBody(RoleRules(rmq), p), o);
    PlainFixed(rmq, BindingBuilder(rmq), map[], (p: Object) => RbacBody(BindingSubjects(rmq), p), o);
    MetaFixedIff(rmq, map[], o.meta);
  }

  // ----------------------------------------------------------------- refusals

  /** The stored operator file is a text that does not parse. */
  predicate Unreadable(files: map<string, File>) {
    "operatorDefaults.conf" in files && files["operatorDefaults.conf"].Text?
      && files["operatorDefaults.conf"].text != ""
  }

  /** Something of another kind or name controls the object. */
  ghost predicate Elsewhere(meta: Meta, name: string) {
    meta.owner.Some? && !(meta.owner.value.kind == "RabbitmqCluster" && meta.owner.value.name == name)
  }

  /**
    A builder refuses to update an object of its type exactly when something else controls it; the
    server ConfigMap's also when the user's configuration or the stored one does not parse.
  */
  lemma RefusedIff(rmq: Cluster, b: Builder, o: Object)
    requires Clean(rmq) && b in ResourceBuilders(rmq) && Fits(b.key.kind, o)
    ensures b.update(o).Rejected? <==>
              || Elsewhere(o.meta, rmq.name)
              || (b == ServerConfBuilder(rmq) && o.ConfigMap?
                  && (rmq.spec.additionalConfig.None? || Unreadable(o.files)))
  {
    hide Clean, ResourceBuilders, IsPlain, ServerConfBuilder, Touched;
    BuilderKinds(rmq, b);
    if b == ServerConfBuilder(rmq) {
      ServerConfRefusedIff(rmq, o);
    } else {
      PlainRefusedIff(rmq, b, o);
    }
  }

  lemma PlainRefusedIff(rmq: Cluster, b: Builder, o: Object)
    requires IsPlain(rmq, b) && Fits(b.key.kind, o)
    ensures b.update(o).Rejected? <==> Elsewhere(o.meta, rmq.name)
  {
    hide LawfulBody, Touched;
    var extra, body :| Plainly(rmq, b, extra, body);
    assert b.update(o) == PlainUpdate(rmq, b.key.kind, extra, body, o);
  }

  lemma ServerConfRefusedIff(rmq: Cluster, o: Object)
    ensures Fits(ServerConfBuilder(rmq).key.kind, o) ==>
              && o.ConfigMap?
              && (ServerConfBuilder(rmq).update(o).Rejected? <==>
                    || Elsewhere(o.meta, rmq.name) || rmq.spec.additionalConfig.None? || Unreadable(o.files))
  {
    hide Metadata.Renewed, EraseHints, OperatorFile, UserFile;
    if o.ConfigMap? && rmq.spec.additionalConfig.Some? {
      UserFileIs(rmq, rmq.spec.additionalConfig.value, o.files);
    }
    hide UpdatedFiles;
  }
}
