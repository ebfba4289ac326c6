/** What the builders read of the cluster: its name, owner identity, labels, annotations and specification. */
module Inputs {
  import opened Basics
  import opened Objects
  import opened Store
  import opened Names
  import opened Metadata
  import opened Builders
  import Desired
  import Merge
  import Plugins
  import Secrets
  import ServerConfig

  /** The two clusters differ at most in status, finalizers, deletion mark and generation. */
  ghost predicate SameInputs(a: Cluster, b: Cluster) {
    b == a.(status := b.status, finalizers := b.finalizers, deleting := b.deleting, generation := b.generation)
  }

  /** The two clusters may differ in annotations too, but agree on the one the pod template depends on. */
  ghost predicate SameSpec(a: Cluster, b: Cluster) {
    && b == a.(status := b.status, finalizers := b.finalizers, deleting := b.deleting, generation := b.generation,
               annotations := b.annotations)
    && Lookup(b.annotations, NO_SPREAD) == Lookup(a.annotations, NO_SPREAD)
  }

  /** The two clusters may differ in the additional configuration besides. */
  ghost predicate SameButConfig(a: Cluster, b: Cluster) {
    && b == a.(status := b.status, finalizers := b.finalizers, deleting := b.deleting, generation := b.generation,
               annotations := b.annotations, spec := a.spec.(additionalConfig := b.spec.additionalConfig))
    && Lookup(b.annotations, NO_SPREAD) == Lookup(a.annotations, NO_SPREAD)
  }

  /** The two clusters ask for the same but for their additional configuration. */
  ghost predicate Reconfigured(a: Cluster, b: Cluster) { SameButConfig(a, b) && a.annotations == b.annotations }

  /** The two builders write the same object in the same way. */
  ghost predicate SameBuilder(a: Builder, b: Builder) {
    a.role == b.role && a.key == b.key && forall o :: a.update(o) == b.update(o)
  }

  lemma SameTouched(a: Cluster, b: Cluster, extra: StrMap, meta: Meta)
    requires Reconfigured(a, b)
    ensures Touched(a, extra, meta) == Touched(b, extra, meta) && OwnedByOther(meta, a) == OwnedByOther(meta, b)
  {
  }

  lemma SamePlain(a: Cluster, b: Cluster, x: Builder, y: Builder, extra: StrMap, body: Object -> Object,
      other: Object -> Object)
    requires Reconfigured(a, b) && x.role == y.role && x.key == y.key
    requires x.update == PlainBuilder(a, x.role, x.key, x.build, extra, body).update
    requires y.update == PlainBuilder(b, y.role, y.key, y.build, extra, other).update
    requires forall o :: body(o) == other(o)
    ensures SameBuilder(x, y)
  {
    hide Touched;
    forall o ensures x.update(o) == y.update(o) {
      SameTouched(a, b, extra, o.meta);
      assert x.update(o) == PlainUpdate(a, x.key.kind, extra, body, o);
      assert y.update(o) == PlainUpdate(b, y.key.kind, extra, other, o);
    }
  }

  lemma SameHosts(a: Cluster, b: Cluster, n: nat)
    requires SameButConfig(a, b)
    ensures PodHostNames(a, n) == PodHostNames(b, n)
  {
    if n > 0 {
      SameHosts(a, b, n - 1);
    }
  }

  lemma SameTemplateParts(a: Cluster, b: Cluster)
    requires SameButConfig(a, b)
    ensures Volumes(a) == Volumes(b) && Containers(a) == Containers(b) && SetupContainer(a) == SetupContainer(b)
    ensures PodContent(a) == PodContent(b)
  {
    assert ConfSource(a) == ConfSource(b) && TLSSource(a) == TLSSource(b)
      && ConfigurationIsSet(a) == ConfigurationIsSet(b);
    assert RabbitmqContainer(a) == RabbitmqContainer(b);
    assert forall image :: UpdaterContainer(a, image) == UpdaterContainer(b, image);
    hide ConfSource, TLSSource, ConfigurationIsSet, RabbitmqContainer, UpdaterContainer, ChildResourceName;
  }

  lemma SameVault(a: Cluster, b: Cluster)
    requires SameButConfig(a, b)
    ensures VaultAnnotations(a) == VaultAnnotations(b)
  {
    SameHosts(a, b, a.spec.replicas);
    hide PodHostNames;
  }

  lemma SameSetBody(a: Cluster, b: Cluster, o: Object)
    requires SameButConfig(a, b)
    ensures SetBody(a, o) == SetBody(b, o)
  {
    SameTemplateParts(a, b);
    SameVault(a, b);
    hide Volumes, Containers, SetupContainer, PodContent, VaultAnnotations;
    if o.StatefulSet? {
      assert Constraints(a, o.spec.template.constraints) == Constraints(b, o.spec.template.constraints);
      assert Claims(a, o.spec.claims) == Claims(b, o.spec.claims);
      assert Template(a, o.spec.template) == Template(b, o.spec.template);
    }
  }

  lemma SameNode(a: Cluster, b: Cluster, i: nat)
    requires Reconfigured(a, b)
    ensures SameBuilder(NodeBuilder(a, i), NodeBuilder(b, i))
  {
    hide SetBody;
    forall o ensures SetBody(a, o) == SetBody(b, o) {
      SameSetBody(a, b, o);
    }
    SamePlain(a, b, NodeBuilder(a, i), NodeBuilder(b, i), map[], (o: Object) => SetBody(a, o),
      (o: Object) => SetBody(b, o));
  }

  lemma SameBodies(a: Cluster, b: Cluster)
    requires SameButConfig(a, b)
    ensures forall o :: HeadlessBody(a, o) == HeadlessBody(b, o)
    ensures forall o :: ClientBody(a, o) == ClientBody(b, o)
    ensures forall o :: SecretBody(a, o) == SecretBody(b, o)
    ensures forall o :: PluginsBody(a, o) == PluginsBody(b, o)
    ensures RoleRules(a) == RoleRules(b) && BindingSubjects(a) == BindingSubjects(b)
  {
    assert Secrets.PluginPorts(a) == Secrets.PluginPorts(b);
    hide Secrets.PluginPorts, Secrets.Spelled, Plugins.EnabledPluginsFile, ChildResourceName, Merge.Merged;
    forall o ensures HeadlessBody(a, o) == HeadlessBody(b, o) && ClientBody(a, o) == ClientBody(b, o) {
    }
    forall o ensures SecretBody(a, o) == SecretBody(b, o) && PluginsBody(a, o) == PluginsBody(b, o) {
    }
  }

  lemma SameServices(a: Cluster, b: Cluster)
    requires Reconfigured(a, b)
    ensures SameBuilder(HeadlessBuilder(a), HeadlessBuilder(b)) && SameBuilder(ClientBuilder(a), ClientBuilder(b))
  {
    SameBodies(a, b);
    hide HeadlessBody, ClientBody;
    SamePlain(a, b, HeadlessBuilder(a), HeadlessBuilder(b), map[], (o: Object) => HeadlessBody(a, o),
      (o: Object) => HeadlessBody(b, o));
    SamePlain(a, b, ClientBuilder(a), ClientBuilder(b), a.spec.serviceAnnotations, (o: Object) => ClientBody(a, o),
      (o: Object) => ClientBody(b, o));
  }

  lemma SameSecrets(a: Cluster, b: Cluster)
    requires Reconfigured(a, b)
    ensures SameBuilder(CookieBuilder(a), CookieBuilder(b)) && SameBuilder(UserBuilder(a), UserBuilder(b))
    ensures SameBuilder(PluginsBuilder(a), PluginsBuilder(b))
  {
    SameBodies(a, b);
    hide SecretBody, PluginsBody;
    SamePlain(a, b, CookieBuilder(a), CookieBuilder(b), map[], (o: Object) => o, (o: Object) => o);
    SamePlain(a, b, UserBuilder(a), UserBuilder(b), map[], (o: Object) => SecretBody(a, o),
      (o: Object) => SecretBody(b, o));
    SamePlain(a, b, PluginsBuilder(a), PluginsBuilder(b), map[], (o: Object) => PluginsBody(a, o),
      (o: Object) => PluginsBody(b, o));
  }

  lemma SameRbac(a: Cluster, b: Cluster)
    requires Reconfigured(a, b)
    ensures SameBuilder(AccountBuilder(a), AccountBuilder(b)) && SameBuilder(RoleBuilder(a), RoleBuilder(b))
    ensures SameBuilder(BindingBuilder(a), BindingBuilder(b))
  {
    SameBodies(a, b);
    hide RbacBody, RoleRules, BindingSubjects;
    SamePlain(a, b, AccountBuilder(a), AccountBuilder(b), map[], (o: Object) => o, (o: Object) => o);
    SamePlain(a, b, RoleBuilder(a), RoleBuilder(b), map[], (o: Object) => RbacBody(RoleRules(a), o),
      (o: Object) => RbacBody(RoleRules(b), o));
    SamePlain(a, b, BindingBuilder(a), BindingBuilder(b), map[],
              (o: Object) => RbacBody(BindingSubjects(a), o), (o: Object) => RbacBody(BindingSubjects(b), o));
  }

  lemma SameSettings(a: Cluster, b: Cluster, additional: seq<Entry>)
    requires SameButConfig(a, b)
    ensures ServerConfig.OperatorFile(a, additional) == ServerConfig.OperatorFile(b, additional)
    ensures ServerConfig.UserFile(a, additional) == ServerConfig.UserFile(b, additional)
  {
    assert ServerConfig.TLSSettings(a) == ServerConfig.TLSSettings(b);
    assert ServerConfig.MutualTLSSettings(a) == ServerConfig.MutualTLSSettings(b);
    hide ServerConfig.TLSSettings, ServerConfig.MutualTLSSettings, ServerConfig.TLS_CONF, ServerConfig.DEFAULT_CONF;
    assert ServerConfig.UserDefaults(a) == ServerConfig.UserDefaults(b);
  }

  lemma SameServerConf(a: Cluster, b: Cluster)
    requires SameInputs(a, b)
    ensures SameBuilder(ServerConfBuilder(a), ServerConfBuilder(b))
  {
    hide ServerConfig.OperatorFile, ServerConfig.UserFile, ServerConfig.Erased;
    forall o ensures ServerConfig.UpdateServerConfig(a, o) == ServerConfig.UpdateServerConfig(b, o) {
      SameTouched(a, b, map[], o.meta);
      assert Metadata.Renewed(a, o.meta) == Metadata.Renewed(b, o.meta);
      if a.spec.additionalConfig.Some? {
        SameSettings(a, b, a.spec.additionalConfig.value);
      }
    }
  }

  /** The relation holds between the base builders of two clusters, pair by pair. */
  ghost predicate BaseRelated(a: Cluster, b: Cluster, rel: (Builder, Builder) -> bool) {
    && rel(HeadlessBuilder(a), HeadlessBuilder(b)) && rel(ClientBuilder(a), ClientBuilder(b))
    && rel(CookieBuilder(a), CookieBuilder(b)) && rel(UserBuilder(a), UserBuilder(b))
    && rel(PluginsBuilder(a), PluginsBuilder(b)) && rel(ServerConfBuilder(a), ServerConfBuilder(b))
    && rel(AccountBuilder(a), AccountBuilder(b)) && rel(RoleBuilder(a), RoleBuilder(b))
    && rel(BindingBuilder(a), BindingBuilder(b))
  }

  lemma BasePaired(a: Cluster, b: Cluster, rel: (Builder, Builder) -> bool)
    requires SameButConfig(a, b) && BaseRelated(a, b, rel)
    ensures var x, y := BaseBuilders(a), BaseBuilders(b);
            |x| == |y| && forall m :: 0 <= m < |x| ==> rel(x[m], y[m])
  {
    assert HasUserSecret(a) == HasUserSecret(b);
    hide HeadlessBuilder, ClientBuilder, CookieBuilder, UserBuilder, PluginsBuilder, ServerConfBuilder;
    hide AccountBuilder, RoleBuilder, BindingBuilder, HasUserSecret;
  }

  /** What holds of the base builders, pair by pair, and of the nodes holds of the whole lists. */
  lemma Paired(a: Cluster, b: Cluster, rel: (Builder, Builder) -> bool)
    requires SameButConfig(a, b) && BaseRelated(a, b, rel) && forall i: nat :: rel(NodeBuilder(a, i), NodeBuilder(b, i))
    ensures var x, y := ResourceBuilders(a), ResourceBuilders(b);
            |x| == |y| && forall m :: 0 <= m < |x| ==> rel(x[m], y[m])
  {
    BasePaired(a, b, rel);
    hide NodeBuilder, BaseBuilders, BaseRelated;
    var x, y := ResourceBuilders(a), ResourceBuilders(b);
    var n := |BaseBuilders(a)|;
    forall m | 0 <= m < |x| ensures rel(x[m], y[m]) {
      if m >= n {
        assert x[m] == NodeBuilder(a, m - n) && y[m] == NodeBuilder(b, m - n);
      }
    }
  }

  /** The two builders write the same object, in the same way unless it is the server ConfigMap. */
  ghost predicate SameOther(x: Builder, y: Builder) {
    x.role == y.role && x.key == y.key && (x.role == ServerConfigMap || SameBuilder(x, y))
  }

  lemma ConfSameOther(a: Cluster, b: Cluster)
    requires Reconfigured(a, b)
    ensures SameOther(ServerConfBuilder(a), ServerConfBuilder(b))
  {
    hide SameBuilder, ChildResourceName;
  }

  /** No builder but that of the server ConfigMap reads the additional configuration. */
  lemma OthersSameBuilders(a: Cluster, b: Cluster)
    requires Reconfigured(a, b)
    ensures var x, y := ResourceBuilders(a), ResourceBuilders(b);
            |x| == |y| && forall m :: 0 <= m < |x| ==> SameOther(x[m], y[m])
  {
    hide HeadlessBuilder, ClientBuilder, CookieBuilder, UserBuilder, PluginsBuilder, ServerConfBuilder;
    hide AccountBuilder, RoleBuilder, BindingBuilder, NodeBuilder, ResourceBuilders, SameBuilder, SameButConfig;
    SameServices(a, b);
    SameSecrets(a, b);
    SameRbac(a, b);
    ConfSameOther(a, b);
    SameRoles(a, b);
    forall i: nat ensures SameOther(NodeBuilder(a, i), NodeBuilder(b, i)) {
      SameNode(a, b, i);
      SameIsOther(NodeBuilder(a, i), NodeBuilder(b, i));
    }
    Paired(a, b, (x, y) => SameOther(x, y));
  }

  lemma SameIsOther(x: Builder, y: Builder)
    requires SameBuilder(x, y)
    ensures SameOther(x, y)
  {
  }

  lemma SameRoles(a: Cluster, b: Cluster)
    requires SameBuilder(HeadlessBuilder(a), HeadlessBuilder(b)) && SameBuilder(ClientBuilder(a), ClientBuilder(b))
    requires SameBuilder(CookieBuilder(a), CookieBuilder(b)) && SameBuilder(UserBuilder(a), UserBuilder(b))
    requires SameBuilder(PluginsBuilder(a), PluginsBuilder(b)) && SameBuilder(AccountBuilder(a), AccountBuilder(b))
    requires SameBuilder(RoleBuilder(a), RoleBuilder(b)) && SameBuilder(BindingBuilder(a), BindingBuilder(b))
    requires SameOther(ServerConfBuilder(a), ServerConfBuilder(b))
    ensures BaseRelated(a, b, (x, y) => SameOther(x, y))
  {
    hide HeadlessBuilder, ClientBuilder, CookieBuilder, UserBuilder, PluginsBuilder, ServerConfBuilder;
    hide AccountBuilder, RoleBuilder, BindingBuilder;
  }

  /** Clusters with the same inputs have, builder by builder, the same builders. */
  lemma SameBuilders(a: Cluster, b: Cluster)
    requires SameInputs(a, b)
    ensures var x, y := ResourceBuilders(a), ResourceBuilders(b);
            |x| == |y| && forall m :: 0 <= m < |x| ==> SameBuilder(x[m], y[m])
  {
    hide ServerConfBuilder, ResourceBuilders, SameBuilder;
    OthersSameBuilders(a, b);
    SameServerConf(a, b);
    var x, y := ResourceBuilders(a), ResourceBuilders(b);
    forall m | 0 <= m < |x| ensures SameBuilder(x[m], y[m]) {
      assert SameOther(x[m], y[m]);
      if x[m].role == ServerConfigMap {
        OnlyConf(a, m);
        OnlyConf(b, m);
      }
    }
  }

  lemma OnlyConf(rmq: Cluster, m: nat)
    requires m < |ResourceBuilders(rmq)| && ResourceBuilders(rmq)[m].role == ServerConfigMap
    ensures ResourceBuilders(rmq)[m] == ServerConfBuilder(rmq)
  {
    hide SetBody, PlainUpdate, ServerConfig.UpdateServerConfig, HasUserSecret, ChildResourceName, NodeKey, Initial;
  }

  // --------------------------------------------------------- other annotations

  /** The second builder writes the same object and accepts whatever the first does. */
  ghost predicate Accepting(x: Builder, y: Builder) {
    x.key == y.key && forall o :: x.update(o).Accepted? ==> y.update(o).Accepted?
  }

  lemma PlainAccepting(
    a: Cluster, b: Cluster, x: Builder, y: Builder, extra: StrMap, other: StrMap, body: Object -> Object,
      another: Object -> Object)
    requires a.name == b.name && x.key == y.key
    requires x.update == PlainBuilder(a, x.role, x.key, x.build, extra, body).update
    requires y.update == PlainBuilder(b, y.role, y.key, y.build, other, another).update
    ensures Accepting(x, y)
  {
    hide Touched;
    forall o | x.update(o).Accepted? ensures y.update(o).Accepted? {
      assert x.update(o) == PlainUpdate(a, x.key.kind, extra, body, o);
      assert y.update(o) == PlainUpdate(b, y.key.kind, other, another, o);
    }
  }

  lemma NodeAccepting(a: Cluster, b: Cluster, i: nat)
    requires SameSpec(a, b)
    ensures Accepting(NodeBuilder(a, i), NodeBuilder(b, i))
  {
    hide SetBody;
    PlainAccepting(a, b, NodeBuilder(a, i), NodeBuilder(b, i), map[], map[], (o: Object) => SetBody(a, o),
      (o: Object) => SetBody(b, o));
  }

  lemma ServicesAccepting(a: Cluster, b: Cluster)
    requires SameSpec(a, b)
    ensures Accepting(HeadlessBuilder(a), HeadlessBuilder(b)) && Accepting(ClientBuilder(a), ClientBuilder(b))
  {
    hide HeadlessBody, ClientBody, ChildResourceName;
    PlainAccepting(a, b, HeadlessBuilder(a), HeadlessBuilder(b), map[], map[],
                   (o: Object) => HeadlessBody(a, o), (o: Object) => HeadlessBody(b, o));
    PlainAccepting(a, b, ClientBuilder(a), ClientBuilder(b), a.spec.serviceAnnotations, b.spec.serviceAnnotations,
                   (o: Object) => ClientBody(a, o), (o: Object) => ClientBody(b, o));
  }

  lemma SecretsAccepting(a: Cluster, b: Cluster)
    requires SameSpec(a, b)
    ensures Accepting(CookieBuilder(a), CookieBuilder(b)) && Accepting(UserBuilder(a), UserBuilder(b))
    ensures Accepting(PluginsBuilder(a), PluginsBuilder(b))
  {
    hide SecretBody, PluginsBody, ChildResourceName;
    PlainAccepting(a, b, CookieBuilder(a), CookieBuilder(b), map[], map[], (o: Object) => o, (o: Object) => o);
    PlainAccepting(a, b, UserBuilder(a), UserBuilder(b), map[], map[],
                   (o: Object) => SecretBody(a, o), (o: Object) => SecretBody(b, o));
    PlainAccepting(a, b, PluginsBuilder(a), PluginsBuilder(b), map[], map[],
                   (o: Object) => PluginsBody(a, o), (o: Object) => PluginsBody(b, o));
  }

  lemma RbacAccepting(a: Cluster, b: Cluster)
    requires SameSpec(a, b)
    ensures Accepting(AccountBuilder(a), AccountBuilder(b)) && Accepting(RoleBuilder(a), RoleBuilder(b))
    ensures Accepting(BindingBuilder(a), BindingBuilder(b))
  {
    hide RbacBody, RoleRules, BindingSubjects, ChildResourceName;
    PlainAccepting(a, b, AccountBuilder(a), AccountBuilder(b), map[], map[], (o: Object) => o, (o: Object) => o);
    PlainAccepting(a, b, RoleBuilder(a), RoleBuilder(b), map[], map[],
                   (o: Object) => RbacBody(RoleRules(a), o), (o: Object) => RbacBody(RoleRules(b), o));
    PlainAccepting(a, b, BindingBuilder(a), BindingBuilder(b), map[], map[],
                   (o: Object) => RbacBody(BindingSubjects(a), o), (o: Object) => RbacBody(BindingSubjects(b), o));
  }

  lemma ServerConfAccepting(a: Cluster, b: Cluster)
    requires SameSpec(a, b)
    ensures Accepting(ServerConfBuilder(a), ServerConfBuilder(b))
  {
    hide ServerConfig.OperatorFile, ServerConfig.UserFile, ServerConfig.Erased, Metadata.Renewed, ChildResourceName;
    if a.spec.additionalConfig.Some? {
      SameSettings(a, b, a.spec.additionalConfig.value);
    }
  }

  /** No builder refuses an object because of an annotation. */
  lemma AllAccepting(a: Cluster, b: Cluster)
    requires SameSpec(a, b)
    ensures var x, y := ResourceBuilders(a), ResourceBuilders(b);
            |x| == |y| && forall m :: 0 <= m < |x| ==> Accepting(x[m], y[m])
  {
    ServicesAccepting(a, b);
    SecretsAccepting(a, b);
    RbacAccepting(a, b);
    ServerConfAccepting(a, b);
    forall i: nat ensures Accepting(NodeBuilder(a, i), NodeBuilder(b, i)) {
      NodeAccepting(a, b, i);
    }
    hide HeadlessBuilder, ClientBuilder, CookieBuilder, UserBuilder, PluginsBuilder, ServerConfBuilder;
    hide AccountBuilder, RoleBuilder, BindingBuilder, NodeBuilder, Accepting, ResourceBuilders;
    Paired(a, b, (x, y) => Accepting(x, y));
  }

  // -------------------------------------------------------- fewer annotations

  /** The second cluster asks for fewer annotations, and otherwise for the same. */
  ghost predicate FewerAnnotations(a: Cluster, b: Cluster) {
    SameSpec(a, b) && forall k :: k in b.annotations ==> k in a.annotations && a.annotations[k] == b.annotations[k]
  }

  lemma FewerMeta(a: Cluster, b: Cluster, extra: StrMap, meta: Meta)
    requires FewerAnnotations(a, b) && Desired.MetaInPlace(a, extra, meta)
    ensures Desired.MetaInPlace(b, extra, meta)
  {
    hide GetLabels, IsKubernetesAnnotation;
  }

  lemma FewerPlain(a: Cluster, b: Cluster, x: Builder, y: Builder, extra: StrMap, body: Object -> Object,
      other: Object -> Object, o: Object)
    requires FewerAnnotations(a, b) && x.key == y.key
    requires LawfulBody(x.key.kind, body) && LawfulBody(x.key.kind, other)
    requires x.update == PlainBuilder(a, x.role, x.key, x.build, extra, body).update
    requires y.update == PlainBuilder(b, y.role, y.key, y.build, extra, other).update
    requires body(o) == other(o) && Fixed(x, o)
    ensures Fixed(y, o)
  {
    hide Touched, LawfulBody, Desired.MetaInPlace, FewerAnnotations;
    PlainFixed(a, x, extra, body, o);
    PlainFixed(b, y, extra, other, o);
    Desired.MetaFixedIff(a, extra, o.meta);
    Desired.MetaFixedIff(b, extra, o.meta);
    FewerMeta(a, b, extra, o.meta);
  }

  lemma FewerNode(a: Cluster, b: Cluster, i: nat, o: Object)
    requires FewerAnnotations(a, b) && Fixed(NodeBuilder(a, i), o)
    ensures NodeBuilder(a, i).key == NodeBuilder(b, i).key && Fixed(NodeBuilder(b, i), o)
  {
    SameSetBody(a, b, o);
    SetBodyLawful(a);
    SetBodyLawful(b);
    hide SetBody, LawfulBody, Fixed;
    FewerPlain(a, b, NodeBuilder(a, i), NodeBuilder(b, i), map[], (p: Object) => SetBody(a, p),
      (p: Object) => SetBody(b, p), o);
  }

  lemma FewerServices(a: Cluster, b: Cluster, o: Object)
    requires FewerAnnotations(a, b)
    ensures Fixed(HeadlessBuilder(a), o) ==> Fixed(HeadlessBuilder(b), o)
    ensures Fixed(ClientBuilder(a), o) ==> Fixed(ClientBuilder(b), o)
  {
    SameBodies(a, b);
    HeadlessBodyLawful(a);
    HeadlessBodyLawful(b);
    ClientBodyLawful(a);
    ClientBodyLawful(b);
    hide HeadlessBody, ClientBody, LawfulBody, Fixed;
    if Fixed(HeadlessBuilder(a), o) {
      FewerPlain(a, b, HeadlessBuilder(a), HeadlessBuilder(b), map[], (p: Object) => HeadlessBody(a, p),
        (p: Object) => HeadlessBody(b, p), o);
    }
    if Fixed(ClientBuilder(a), o) {
      FewerPlain(a, b, ClientBuilder(a), ClientBuilder(b), a.spec.serviceAnnotations,
                 (p: Object) => ClientBody(a, p), (p: Object) => ClientBody(b, p), o);
    }
  }

  lemma FewerSecrets(a: Cluster, b: Cluster, o: Object)
    requires FewerAnnotations(a, b)
    ensures Fixed(CookieBuilder(a), o) ==> Fixed(CookieBuilder(b), o)
    ensures Fixed(UserBuilder(a), o) ==> Fixed(UserBuilder(b), o)
  {
    Desired.CookieFixedIff(a, o);
    Desired.CookieFixedIff(b, o);
    Desired.UserFixedIff(a, o);
    Desired.UserFixedIff(b, o);
    hide Fixed, Desired.MetaInPlace, Desired.UserDataInPlace, CookieBuilder, UserBuilder;
    if o.Secret? {
      SameUserData(a, b, o.data);
    }
    if Desired.MetaInPlace(a, map[], o.meta) {
      FewerMeta(a, b, map[], o.meta);
    }
  }

  lemma SameUserData(a: Cluster, b: Cluster, data: StrMap)
    requires SameSpec(a, b)
    ensures Desired.UserDataInPlace(a, data) == Desired.UserDataInPlace(b, data)
  {
    hide Secrets.PortsAre, Secrets.Agrees;
  }

  lemma FewerPlugins(a: Cluster, b: Cluster, o: Object)
    requires FewerAnnotations(a, b)
    ensures Fixed(PluginsBuilder(a), o) ==> Fixed(PluginsBuilder(b), o)
  {
    Desired.PluginsFixedIff(a, o);
    Desired.PluginsFixedIff(b, o);
    hide Fixed, Desired.MetaInPlace, PluginsBuilder, Plugins.EnabledPluginsFile, PLUGINS_FILE;
    if Desired.MetaInPlace(a, map[], o.meta) {
      FewerMeta(a, b, map[], o.meta);
    }
  }

  lemma FewerRbac(a: Cluster, b: Cluster, o: Object)
    requires FewerAnnotations(a, b)
    ensures Fixed(AccountBuilder(a), o) ==> Fixed(AccountBuilder(b), o)
    ensures Fixed(RoleBuilder(a), o) ==> Fixed(RoleBuilder(b), o)
    ensures Fixed(BindingBuilder(a), o) ==> Fixed(BindingBuilder(b), o)
  {
    SameBodies(a, b);
    hide Fixed, RoleRules, BindingSubjects, Desired.MetaInPlace, FewerAnnotations, PlainUpdate;
    Desired.AccountFixedIff(a, o);
    Desired.AccountFixedIff(b, o);
    Desired.RoleFixedIff(a, o);
    Desired.RoleFixedIff(b, o);
    if Desired.MetaInPlace(a, map[], o.meta) {
      FewerMeta(a, b, map[], o.meta);
    }
  }

  lemma FewerServerConf(a: Cluster, b: Cluster, o: Object)
    requires FewerAnnotations(a, b)
    ensures Fixed(ServerConfBuilder(a), o) ==> Fixed(ServerConfBuilder(b), o)
  {
    Desired.ServerConfFixedIff(a, o);
    Desired.ServerConfFixedIff(b, o);
    hide Fixed, Desired.MetaInPlace, ServerConfBuilder, ServerConfig.OperatorFile, ServerConfig.UserFile;
    if a.spec.additionalConfig.Some? {
      SameSettings(a, b, a.spec.additionalConfig.value);
    }
    if Desired.MetaInPlace(a, map[], o.meta) {
      FewerMeta(a, b, map[], o.meta);
    }
  }

  /** The second builder writes the same object and leaves alone whatever the first does. */
  ghost predicate FewerBuilder(x: Builder, y: Builder) {
    x.key == y.key && forall o :: Fixed(x, o) ==> Fixed(y, o)
  }

  lemma FewerBase(a: Cluster, b: Cluster)
    requires FewerAnnotations(a, b)
    ensures FewerBuilder(HeadlessBuilder(a), HeadlessBuilder(b)) && FewerBuilder(ClientBuilder(a), ClientBuilder(b))
    ensures FewerBuilder(CookieBuilder(a), CookieBuilder(b)) && FewerBuilder(UserBuilder(a), UserBuilder(b))
    ensures FewerBuilder(PluginsBuilder(a), PluginsBuilder(b))
    ensures FewerBuilder(ServerConfBuilder(a), ServerConfBuilder(b))
    ensures FewerBuilder(AccountBuilder(a), AccountBuilder(b)) && FewerBuilder(RoleBuilder(a), RoleBuilder(b))
    ensures FewerBuilder(BindingBuilder(a), BindingBuilder(b))
  {
    SameKeys(a, b);
    hide HeadlessBuilder, ClientBuilder, CookieBuilder, UserBuilder, PluginsBuilder, ServerConfBuilder;
    hide AccountBuilder, RoleBuilder, BindingBuilder, Fixed, FewerAnnotations, SameSpec;
    forall o
      ensures Fixed(HeadlessBuilder(a), o) ==> Fixed(HeadlessBuilder(b), o)
      ensures Fixed(ClientBuilder(a), o) ==> Fixed(ClientBuilder(b), o)
      ensures Fixed(CookieBuilder(a), o) ==> Fixed(CookieBuilder(b), o)
      ensures Fixed(UserBuilder(a), o) ==> Fixed(UserBuilder(b), o)
      ensures Fixed(PluginsBuilder(a), o) ==> Fixed(PluginsBuilder(b), o)
      ensures Fixed(ServerConfBuilder(a), o) ==> Fixed(ServerConfBuilder(b), o)
      ensures Fixed(AccountBuilder(a), o) ==> Fixed(AccountBuilder(b), o)
      ensures Fixed(RoleBuilder(a), o) ==> Fixed(RoleBuilder(b), o)
      ensures Fixed(BindingBuilder(a), o) ==> Fixed(BindingBuilder(b), o)
    {
      FewerServices(a, b, o);
      FewerSecrets(a, b, o);
      FewerPlugins(a, b, o);
      FewerRbac(a, b, o);
      FewerServerConf(a, b, o);
    }
  }

  /** What is in place for a cluster is in place for one that asks for fewer annotations. */
  lemma FewerBuilders(a: Cluster, b: Cluster)
    requires FewerAnnotations(a, b)
    ensures var x, y := ResourceBuilders(a), ResourceBuilders(b);
            |x| == |y| && forall m :: 0 <= m < |x| ==> FewerBuilder(x[m], y[m])
  {
    FewerBase(a, b);
    forall i: nat ensures FewerBuilder(NodeBuilder(a, i), NodeBuilder(b, i)) {
      FewerNodes(a, b, i);
    }
    hide HeadlessBuilder, ClientBuilder, CookieBuilder, UserBuilder, PluginsBuilder, ServerConfBuilder;
    hide AccountBuilder, RoleBuilder, BindingBuilder, NodeBuilder, FewerBuilder, ResourceBuilders, SameSpec;
    FewerIsSame(a, b);
    Paired(a, b, (x, y) => FewerBuilder(x, y));
  }

  lemma FewerIsSame(a: Cluster, b: Cluster)
    requires FewerAnnotations(a, b)
    ensures SameSpec(a, b)
  {
  }

  lemma FewerNodes(a: Cluster, b: Cluster, i: nat)
    requires FewerAnnotations(a, b)
    ensures FewerBuilder(NodeBuilder(a, i), NodeBuilder(b, i))
  {
    hide Fixed, SetBody, PlainUpdate;
    forall o | Fixed(NodeBuilder(a, i), o) ensures Fixed(NodeBuilder(b, i), o) {
      FewerNode(a, b, i, o);
    }
  }

  lemma SameKeys(a: Cluster, b: Cluster)
    requires SameSpec(a, b)
    ensures HeadlessBuilder(a).key == HeadlessBuilder(b).key && ClientBuilder(a).key == ClientBuilder(b).key
    ensures CookieBuilder(a).key == CookieBuilder(b).key && UserBuilder(a).key == UserBuilder(b).key
    ensures PluginsBuilder(a).key == PluginsBuilder(b).key && ServerConfBuilder(a).key == ServerConfBuilder(b).key
    ensures AccountBuilder(a).key == AccountBuilder(b).key && RoleBuilder(a).key == RoleBuilder(b).key
    ensures BindingBuilder(a).key == BindingBuilder(b).key
  {
    hide ChildResourceName;
  }
}
